/** The two fixed regular expressions of the core, written as predicates with Python `re.match`
    semantics: `^` anchors at the start, `.` matches any character except a newline, and `$`
    matches at the very end or just before one final newline. */
module Patterns {
  import opened Text

  const PoshPattern: string := "^POSH.*\\/\\d{15}$"
  const PrestoPattern: string := "^POSH.*MUSLUOĞLU$"
  const PoshDigits: nat := 15

  predicate NoNewline(s: string) {
    forall i :: 0 <= i < |s| ==> s[i] != '\n'
  }

  predicate AllDigits(s: string) {
    forall i :: 0 <= i < |s| ==> IsDigit(s[i])
  }

  /** The text `$` is compared against: one final newline is not part of the match. */
  function ChopNewline(s: string): (r: string)
    ensures s == r || s == r + "\n"
  {
    if |s| > 0 && s[|s| - 1] == '\n' then s[..|s| - 1] else s
  }

  /** `c` is a whole-string match of `POSH.*\/\d{15}` (no newline allowed anywhere). */
  predicate PoshBody(c: string) {
    && |c| >= 4 + 1 + PoshDigits
    && StartsWith(c, "POSH")
    && c[|c| - PoshDigits - 1] == '/'
    && AllDigits(c[|c| - PoshDigits..])
    && NoNewline(c)
  }

  /** `re.match(r'^POSH.*\/\d{15}$', s) is not None`. */
  predicate PoshMatch(s: string) {
    PoshBody(ChopNewline(s))
  }

  /** `s` is `"POSH"`, a newline-free middle, `"/"`, fifteen digits and an optional newline. */
  predicate PoshSplit(s: string, mid: string, digits: string, nl: bool) {
    && NoNewline(mid) && |digits| == PoshDigits && AllDigits(digits)
    && s == "POSH" + mid + "/" + digits + (if nl then "\n" else "")
  }

  /** The predicate agrees with the grammar of the pattern, in both directions. */
  lemma PoshMatchIff(s: string)
    ensures PoshMatch(s) <==> exists mid, digits, nl :: PoshSplit(s, mid, digits, nl)
  {
    if PoshMatch(s) {
      var c := ChopNewline(s);
      var mid := c[4..|c| - PoshDigits - 1];
      var digits := c[|c| - PoshDigits..];
      assert c == "POSH" + mid + "/" + digits;
      assert PoshSplit(s, mid, digits, s != c);
    }
    if exists mid, digits, nl :: PoshSplit(s, mid, digits, nl) {
      var mid, digits, nl :| PoshSplit(s, mid, digits, nl);
      PoshSplitBody(s, mid, digits, nl);
    }
  }

  lemma PoshSplitBody(s: string, mid: string, digits: string, nl: bool)
    requires PoshSplit(s, mid, digits, nl)
    ensures PoshMatch(s)
  {
    var c := "POSH" + mid + "/" + digits;
    assert s == c + (if nl then "\n" else "");
    assert |c| > 0 && c[|c| - 1] != '\n' by {
      assert c[|c| - 1] == digits[PoshDigits - 1];
    }
    assert ChopNewline(s) == c by {
      if nl {
        assert s[..|s| - 1] == c;
      }
    }
    assert c[..4] == "POSH";
    assert c[|c| - PoshDigits..] == digits;
    assert c[|c| - PoshDigits - 1] == '/';
    forall i | 0 <= i < |c|
      ensures c[i] != '\n'
    {
      if 4 <= i < 4 + |mid| {
        assert c[i] == mid[i - 4];
      } else if i >= 5 + |mid| {
        assert c[i] == digits[i - 5 - |mid|];
      }
    }
  }

  /** The text of a match starts with `POSH`, and stays a proper text of at least 20
      characters after its final newline is dropped. */
  lemma PoshMatchShape(s: string)
    requires PoshMatch(s)
    ensures |s| >= 20 && s[0] == 'P' && s[..4] == "POSH"
  {
    var c := ChopNewline(s);
    assert c[..4] == "POSH";
    assert s[..4] == c[..4];
  }

  /** `^` anchors the match: any text put before a match breaks it unless the text itself
      starts with `POSH` (then the middle absorbs the rest). */
  lemma PoshStartAnchored(pre: string, s: string)
    requires PoshMatch(s) && pre != [] && !StartsWith(pre, "POSH")
    ensures !PoshMatch(pre + s)
  {
    PoshMatchShape(s);
    var t := pre + s;
    var c := ChopNewline(t);
    assert c[..4] == t[..4];
    if |pre| >= 4 {
      assert t[..4] == pre[..4];
    } else {
      assert t[..4][|pre|] == s[0];
    }
  }

  /** `$` anchors the match at the end: a text whose last character is neither a digit nor a
      newline never matches, whatever comes before it. */
  lemma PoshEndAnchored(s: string, post: string)
    requires post != [] && !IsDigit(post[|post| - 1]) && post[|post| - 1] != '\n'
    ensures !PoshMatch(s + post)
  {
    var u := s + post;
    assert u[|u| - 1] == post[|post| - 1];
    assert ChopNewline(u) == u;
    if |u| >= PoshDigits {
      assert u[|u| - PoshDigits..][PoshDigits - 1] == u[|u| - 1];
    }
  }

  /** `\d{15}$` takes exactly fifteen digits: one to fifteen more digits after a match break
      it, since the slash is then no longer sixteen characters from the end. */
  lemma PoshDigitsAnchored(s: string, post: string)
    requires PoshMatch(s) && 1 <= |post| <= PoshDigits && AllDigits(post)
    ensures !PoshMatch(s + post)
  {
    var c := ChopNewline(s);
    var u := s + post;
    assert u[|u| - 1] == post[|post| - 1];
    assert ChopNewline(u) == u;
    if c == s {
      var k := |s| - PoshDigits - 1 + |post|;
      assert u[k] == c[|c| - PoshDigits..][k - (|c| - PoshDigits)];
    } else {
      assert u[|s| - 1] == '\n';
    }
  }

  /** Example descriptions from the sample data that are kept. */
  lemma PoshAcceptedSample()
    ensures PoshMatch("POSH XYZ/123456789012345")
  {
    PoshSplitBody("POSH XYZ/123456789012345", " XYZ", "123456789012345", false);
  }

  /** Fifteen zeros are fifteen digits: this description is kept as well. */
  lemma PoshAcceptedZeros()
    ensures PoshMatch("POSH DENEME/000000000000000")
  {
    PoshSplitBody("POSH DENEME/000000000000000", " DENEME", "000000000000000", false);
  }

  /** `$` lets one final newline through. */
  lemma PoshAcceptedNewline()
    ensures PoshMatch("POSH XYZ/123456789012345\n")
  {
    PoshSplitBody("POSH XYZ/123456789012345\n", " XYZ", "123456789012345", true);
  }

  /** Example descriptions that are dropped: wrong prefix, too few or too many digits after
      the slash, a newline in the middle. */
  lemma PoshRejected()
    ensures !PoshMatch("POS SATIŞ YANLIŞ/12345")
    ensures !PoshMatch("DİĞER İŞLEM")
    ensures !PoshMatch("POSH XYZ/12345678901234")
    ensures !PoshMatch("POSH XYZ/1234567890123456")
    ensures !PoshMatch("POSH X\nY/123456789012345")
  {
    assert "POS SATIŞ YANLIŞ/12345"[3] == ' ';
    assert "POSH XYZ/12345678901234"[7] == 'Z';
    assert "POSH XYZ/1234567890123456"[9] == '1';
    assert "POSH X\nY/123456789012345"[6] == '\n';
  }

  /** `re.match(r'^POSH.*MUSLUOĞLU$', s) is not None`, written as the pattern's grammar. */
  predicate PrestoBody(c: string) {
    && |c| >= 4 + |"MUSLUOĞLU"|
    && StartsWith(c, "POSH")
    && EndsWith(c, "MUSLUOĞLU")
    && NoNewline(c)
  }

  predicate PrestoMatch(s: string) {
    PrestoBody(ChopNewline(s))
  }

  /** The default pattern accepts exactly the newline-free texts (up to one final newline) that
      start with `POSH` and end with `MUSLUOĞLU`: the two affixes can never overlap. */
  lemma PrestoMatchIff(s: string)
    ensures PrestoMatch(s) <==>
      var c := ChopNewline(s); StartsWith(c, "POSH") && EndsWith(c, "MUSLUOĞLU") && NoNewline(c)
  {
    var c := ChopNewline(s);
    if EndsWith(c, "MUSLUOĞLU") {
      assert c[|c| - 9] == 'M';
    }
  }

  /** The pattern's own example shapes are accepted. */
  lemma PrestoAcceptedSample()
    ensures PrestoMatch("POSH 123 MUSLUOĞLU")
  {
    PrestoMatchIff("POSH 123 MUSLUOĞLU");
  }

  lemma PrestoAcceptedBare()
    ensures PrestoMatch("POSHMUSLUOĞLU")
  {
    PrestoMatchIff("POSHMUSLUOĞLU");
  }

  /** A plain `G` in place of `Ğ` does not match, and nothing may stand before `POSH`. */
  lemma PrestoRejected()
    ensures !PrestoMatch("POSH 123 MUSLUOGLU")
    ensures !PrestoMatch("X POSH MUSLUOĞLU")
  {
    var a, b := "POSH 123 MUSLUOGLU", "X POSH MUSLUOĞLU";
    assert ChopNewline(a) == a && ChopNewline(b) == b;
    assert a[|a| - 3] != "MUSLUOĞLU"[6];
    assert b[..4] != "POSH" by { assert b[0] != 'P'; }
  }
}
