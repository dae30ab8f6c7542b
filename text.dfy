/** Python string operations the core relies on: `strip`, `in`, `startswith`/`endswith`,
    `lower`, `upper`, and the `\d` digit class. */
module Text {

  /** Python's `str.isspace` set, which `str.strip()` removes from both ends. */
  predicate IsSpace(c: char) {
    || ('\t' <= c <= '\r')               // \t \n \v \f \r
    || ('\U{1C}' <= c <= '\U{1F}')       // file, group, record and unit separators
    || c == ' ' || c == '\U{85}' || c == '\U{A0}' || c == '\U{1680}'
    || ('\U{2000}' <= c <= '\U{200A}')
    || c == '\U{2028}' || c == '\U{2029}' || c == '\U{202F}' || c == '\U{205F}' || c == '\U{3000}'
  }

  /** The `\d` class, restricted to the ASCII digits. */
  predicate IsDigit(c: char) {
    '0' <= c <= '9'
  }

  function StripLeft(s: string): (r: string)
    ensures |r| <= |s| && r == s[|s| - |r|..]
    ensures r == [] || !IsSpace(r[0])
    ensures forall i :: 0 <= i < |s| - |r| ==> IsSpace(s[i])
  {
    if s != [] && IsSpace(s[0]) then StripLeft(s[1..]) else s
  }

  function StripRight(s: string): (r: string)
    ensures |r| <= |s| && r == s[..|r|]
    ensures r == [] || !IsSpace(r[|r| - 1])
    ensures forall i :: |r| <= i < |s| ==> IsSpace(s[i])
  {
    if s != [] && IsSpace(s[|s| - 1]) then StripRight(s[..|s| - 1]) else s
  }

  /** Python's `s.strip()`. */
  function Strip(s: string): string {
    StripRight(StripLeft(s))
  }

  /** A stripped string is empty exactly when the input was all whitespace. */
  lemma StripEmptyIff(s: string)
    ensures Strip(s) == [] <==> forall i :: 0 <= i < |s| ==> IsSpace(s[i])
  {
    var l := StripLeft(s);
    assert l != [] ==> StripRight(l) != [];
    assert l != [] ==> l[0] == s[|s| - |l|];
  }

  /** Whitespace-free ends are left alone, so stripping twice is stripping once. */
  lemma StripIdempotent(s: string)
    ensures Strip(Strip(s)) == Strip(s)
  {
    var r := Strip(s);
    assert StripLeft(r) == r;
    assert StripRight(r) == r;
  }

  /** A stripped string never starts or ends with whitespace. */
  lemma StripEnds(s: string)
    ensures var r := Strip(s); r == [] || (!IsSpace(r[0]) && !IsSpace(r[|r| - 1]))
  {
    var l := StripLeft(s);
    var r := StripRight(l);
    assert r != [] ==> r[0] == l[0];
  }

  predicate StartsWith(s: string, prefix: string) {
    |prefix| <= |s| && s[..|prefix|] == prefix
  }

  predicate EndsWith(s: string, suffix: string) {
    |suffix| <= |s| && s[|s| - |suffix|..] == suffix
  }

  /** `needle` occurs in `s` starting at index `i`. */
  predicate OccursAt(s: string, needle: string, i: int) {
    0 <= i <= |s| - |needle| && s[i..i + |needle|] == needle
  }

  /** Python's `needle in s` on strings. */
  predicate Contains(s: string, needle: string) {
    exists i :: 0 <= i <= |s| - |needle| && OccursAt(s, needle, i)
  }

  /** Python's `str.lower()` on one character: exact for ASCII, Latin-1 and the Turkish letters
      Ğ, Ş, İ; other characters are left unchanged. Note `'İ'.lower()` is two characters. */
  function LowerChar(c: char): string {
    if 'A' <= c <= 'Z' || ('\U{C0}' <= c <= '\U{DE}' && c != '\U{D7}') then [(c as int + 32) as char]
    else if c == 'Ğ' then ['ğ']
    else if c == 'Ş' then ['ş']
    else if c == 'Ÿ' then ['ÿ']
    else if c == 'İ' then ['i', '\U{307}']
    else [c]
  }

  /** Python's `str.upper()` on one character, with the same coverage as `LowerChar`;
      `'ß'.upper()` is `"SS"` and the dotless `'ı'` becomes `'I'`. */
  function UpperChar(c: char): string {
    if 'a' <= c <= 'z' || ('\U{E0}' <= c <= '\U{FE}' && c != '\U{F7}') then [(c as int - 32) as char]
    else if c == '\U{DF}' then ['S', 'S']
    else if c == '\U{B5}' then ['\U{39C}']
    else if c == '\U{FF}' then ['Ÿ']
    else if c == 'ğ' then ['Ğ']
    else if c == 'ş' then ['Ş']
    else if c == 'ı' then ['I']
    else [c]
  }

  function Lower(s: string): string {
    if s == [] then [] else LowerChar(s[0]) + Lower(s[1..])
  }

  function Upper(s: string): string {
    if s == [] then [] else UpperChar(s[0]) + Upper(s[1..])
  }

  /** Lower-casing distributes over concatenation. */
  lemma {:induction false} LowerAppend(a: string, b: string)
    ensures Lower(a + b) == Lower(a) + Lower(b)
  {
    if a == [] {
      assert a + b == b;
    } else {
      assert (a + b)[1..] == a[1..] + b;
      LowerAppend(a[1..], b);
    }
  }

  lemma {:induction false} UpperAppend(a: string, b: string)
    ensures Upper(a + b) == Upper(a) + Upper(b)
  {
    if a == [] {
      assert a + b == b;
    } else {
      assert (a + b)[1..] == a[1..] + b;
      UpperAppend(a[1..], b);
    }
  }

  /** Text whose characters `upper()` leaves alone is left alone as a whole. */
  lemma {:induction false} UpperFixed(s: string)
    requires forall i :: 0 <= i < |s| ==> UpperChar(s[i]) == [s[i]]
    ensures Upper(s) == s
  {
    if s != [] {
      UpperFixed(s[1..]);
    }
  }

  /** A contained needle stays contained when text is added on either side. */
  lemma ContainsExtend(pre: string, s: string, post: string, needle: string)
    requires Contains(s, needle)
    ensures Contains(pre + s + post, needle)
  {
    var i :| 0 <= i <= |s| - |needle| && OccursAt(s, needle, i);
    var t := pre + s + post;
    assert |t| == |pre| + |s| + |post|;
    assert t[|pre| + i..|pre| + i + |needle|] == s[i..i + |needle|];
    assert OccursAt(t, needle, |pre| + i);
  }
}
