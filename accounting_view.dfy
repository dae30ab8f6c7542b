/** The accounting viewer (02-Orta/accounting_gui.py): a loaded spreadsheet, the advanced
    filter (description pattern and amount bounds), the table and the summary line. */
module AccountingView {
  import opened Wrappers
  import opened Text
  import opened Tables
  import opened Patterns
  import Seqs

  /** The pattern the entry starts with and `clear_filters` puts back. */
  const DefaultPattern: string := PoshPattern

  /** The fixed headings of the table; a heading the sheet lacks shows an empty value. */
  const TreeColumns: seq<string> :=
    ["Tarih", "Seri", "No", "Referans", "Kasa/Hesap", "Kasa/Hesap Kodu", "Hesap Adı", "Borç Tutarı",
     "Alacak Tutarı", "Döviz Türü", "Açıklama", "Yevmiye No", "Vade Tarihi", "Özel Kod"]

  /** The dialogs the viewer shows. */
  datatype Notice =
    | NeedData          // "Önce Excel dosyası yükleyin."
    | FilterFailed      // "Filtreleme hatası: ..."
    | Loaded(rows: nat) // "<n> kayıt yüklendi."
    | LoadFailed        // "Excel dosyası yüklenemedi: ..."

  /** The summary labels: record count, debit (positive) total, credit (negative) total and the
      net balance. */
  datatype Summary = Summary(records: nat, positive: real, negative: real, net: real)

  const InitialSummary: Summary := Summary(0, 0.0, 0.0, 0.0)

  /** A cell `>=`, `<=`, `>` and `<` can compare with a number: a number or NaN. Text and time
      stamps raise `TypeError`. */
  predicate Numeric(c: Cell) {
    c.Number? || c.Blank?
  }

  predicate AllNumeric(rows: seq<Row>, col: string) {
    forall i :: 0 <= i < |rows| ==> Numeric(CellAt(rows[i], col))
  }

  /** The mask `frame[col] >= bound` (`atLeast`) or `frame[col] <= bound`: NaN never passes. */
  function Within(col: string, bound: real, atLeast: bool): Row -> bool {
    CellTest(col, (c: Cell) => c.Number? && (if atLeast then c.value >= bound else c.value <= bound))
  }

  /** `[col for col in columns if needle in str(col).lower()][0]` when that list is not empty:
      the first column whose lower-cased name contains `needle`, if any; there is no
      positional fallback here. */
  function NamedColumn(cols: seq<string>, needle: string): (r: Option<string>)
    ensures r.Some? ==> exists i :: 0 <= i < |cols| && cols[i] == r.value && NameHas(cols[i], needle)
                                    && forall j :: 0 <= j < i ==> !NameHas(cols[j], needle)
    ensures r.None? ==> forall c :: c in cols ==> !NameHas(c, needle)
  {
    match FirstColumn(cols, needle)
    case None => None
    case Some(i) => Some(cols[i])
  }

  /** The description column `apply_advanced_filter` uses. */
  function DescriptionColumn(cols: seq<string>): Option<string> {
    NamedColumn(cols, "açıklama")
  }

  /** The amount column `apply_advanced_filter` and `update_summary` use. */
  function AmountColumn(cols: seq<string>): Option<string> {
    NamedColumn(cols, "tutar")
  }

  /** The pattern step, `None` when it raises: with a description column and a non-blank
      pattern, the rows whose description is text the pattern matches. */
  function PatternStep(rows: seq<Row>, desc: Option<string>, pattern: string,
                       compile: string -> Option<string -> bool>): (r: Option<seq<Row>>)
  {
    if desc.None? || Strip(pattern) == "" then Some(rows)
    else if !HasText(rows, desc.value) then None
    else match compile(Strip(pattern))
      case None => None
      case Some(m) => Some(Seqs.Filter(rows, TextMatch(desc.value, m)))
  }

  /** One bound step, `None` when it raises: a blank bound is not applied; otherwise the
      bound must parse (`float(...)`) and every remaining amount must be comparable. */
  function BoundStep(rows: seq<Row>, col: string, text: string, parse: string -> Option<real>, atLeast: bool): (r: Option<seq<Row>>)
  {
    if Strip(text) == "" then Some(rows)
    else match parse(Strip(text))
      case None => None
      case Some(v) => if !AllNumeric(rows, col) then None else Some(Seqs.Filter(rows, Within(col, v, atLeast)))
  }

  /** The three steps over the chosen columns: the pattern, then the minimum and the maximum
      on the amount column, if there is one. */
  function Steps(rows: seq<Row>, desc: Option<string>, amount: Option<string>, pattern: string,
                 minText: string, maxText: string,
                 compile: string -> Option<string -> bool>, parse: string -> Option<real>): (r: Option<seq<Row>>)
  {
    match PatternStep(rows, desc, pattern, compile)
    case None => None
    case Some(rows1) =>
      if amount.None? then Some(rows1)
      else match BoundStep(rows1, amount.value, minText, parse, true)
        case None => None
        case Some(rows2) => BoundStep(rows2, amount.value, maxText, parse, false)
  }

  /** `apply_advanced_filter` without its dialogs, `None` when it raises. */
  function AdvancedFilter(t: Table, pattern: string, minText: string, maxText: string,
                          compile: string -> Option<string -> bool>, parse: string -> Option<real>): (r: Option<Table>)
    ensures r.Some? ==> r.value.columns == t.columns
  {
    match Steps(t.rows, DescriptionColumn(t.columns), AmountColumn(t.columns), pattern, minText, maxText, compile, parse)
    case None => None
    case Some(rows) => Some(Table(t.columns, rows))
  }

  /** The row passes the pattern: there is no description column, the pattern is blank, or
      the description is text the pattern matches. */
  predicate PatternOk(desc: Option<string>, pattern: string, m: string -> bool, row: Row) {
    desc.None? || Strip(pattern) == "" || (CellAt(row, desc.value).Str? && m(CellAt(row, desc.value).s))
  }

  /** The row passes a bound: there is no amount column, the bound is blank, or the amount is
      a number on the right side of the bound, the bound itself included. */
  predicate BoundOk(amount: Option<string>, text: string, bound: real, atLeast: bool, row: Row) {
    || amount.None? || Strip(text) == ""
    || (CellAt(row, amount.value).Number? &&
        if atLeast then CellAt(row, amount.value).value >= bound else CellAt(row, amount.value).value <= bound)
  }

  /** The pattern step keeps a row exactly when it passes the pattern. */
  lemma PatternStepKeep(rows: seq<Row>, desc: Option<string>, pattern: string,
                        compile: string -> Option<string -> bool>, row: Row)
    requires PatternStep(rows, desc, pattern, compile).Some?
    ensures var m := compile(Strip(pattern)).GetOr(_ => true);
      row in PatternStep(rows, desc, pattern, compile).value <==> row in rows && PatternOk(desc, pattern, m, row)
  {
    if desc.Some? && Strip(pattern) != "" {
      Seqs.FilterMembership(rows, TextMatch(desc.value, compile(Strip(pattern)).value), row);
    }
  }

  /** A bound step keeps a row exactly when it passes the bound. */
  lemma BoundStepKeep(rows: seq<Row>, col: string, text: string, parse: string -> Option<real>, atLeast: bool, row: Row)
    requires BoundStep(rows, col, text, parse, atLeast).Some?
    ensures row in BoundStep(rows, col, text, parse, atLeast).value <==>
      row in rows && BoundOk(Some(col), text, parse(Strip(text)).GetOr(0.0), atLeast, row)
  {
    if Strip(text) != "" {
      Seqs.FilterMembership(rows, Within(col, parse(Strip(text)).value, atLeast), row);
    }
  }

  /** When the steps go through, a row is kept exactly when it is one of the input rows that
      passes the pattern and both inclusive bounds. A cell that is not text never matches. */
  lemma StepsKeep(rows: seq<Row>, desc: Option<string>, amount: Option<string>, pattern: string,
                  minText: string, maxText: string,
                  compile: string -> Option<string -> bool>, parse: string -> Option<real>, row: Row)
    requires Steps(rows, desc, amount, pattern, minText, maxText, compile, parse).Some?
    ensures var m := compile(Strip(pattern)).GetOr(_ => true);
      var lo := parse(Strip(minText)).GetOr(0.0);
      var hi := parse(Strip(maxText)).GetOr(0.0);
      row in Steps(rows, desc, amount, pattern, minText, maxText, compile, parse).value <==>
        row in rows && PatternOk(desc, pattern, m, row)
        && BoundOk(amount, minText, lo, true, row) && BoundOk(amount, maxText, hi, false, row)
  {
    PatternStepKeep(rows, desc, pattern, compile, row);
    var rows1 := PatternStep(rows, desc, pattern, compile).value;
    if amount.Some? {
      BoundStepKeep(rows1, amount.value, minText, parse, true, row);
      var rows2 := BoundStep(rows1, amount.value, minText, parse, true).value;
      BoundStepKeep(rows2, amount.value, maxText, parse, false, row);
    }
  }

  /** The filter only removes rows: what it keeps is a subsequence of the sheet's rows, in
      their order. */
  lemma StepsNarrow(rows: seq<Row>, desc: Option<string>, amount: Option<string>, pattern: string,
                    minText: string, maxText: string,
                    compile: string -> Option<string -> bool>, parse: string -> Option<real>)
    requires Steps(rows, desc, amount, pattern, minText, maxText, compile, parse).Some?
    ensures Seqs.IsSubsequence(Steps(rows, desc, amount, pattern, minText, maxText, compile, parse).value, rows)
  {
    var rows1 := PatternStep(rows, desc, pattern, compile).value;
    assert Seqs.IsSubsequence(rows1, rows) by {
      if desc.None? || Strip(pattern) == "" {
        Seqs.SubsequenceRefl(rows);
      } else {
        Seqs.FilterIsSubsequence(rows, TextMatch(desc.value, compile(Strip(pattern)).value));
      }
    }
    if amount.Some? {
      var rows2 := BoundStep(rows1, amount.value, minText, parse, true).value;
      BoundNarrows(rows1, amount.value, minText, parse, true);
      BoundNarrows(rows2, amount.value, maxText, parse, false);
      var rows3 := BoundStep(rows2, amount.value, maxText, parse, false).value;
      Seqs.SubsequenceTrans(rows3, rows2, rows1);
      Seqs.SubsequenceTrans(rows3, rows1, rows);
    }
  }

  lemma BoundNarrows(rows: seq<Row>, col: string, text: string, parse: string -> Option<real>, atLeast: bool)
    requires BoundStep(rows, col, text, parse, atLeast).Some?
    ensures Seqs.IsSubsequence(BoundStep(rows, col, text, parse, atLeast).value, rows)
  {
    if Strip(text) == "" {
      Seqs.SubsequenceRefl(rows);
    } else {
      Seqs.FilterIsSubsequence(rows, Within(col, parse(Strip(text)).value, atLeast));
    }
  }

  /** With a blank pattern and blank bounds nothing is filtered and nothing can raise. */
  lemma BlankFiltersKeepAll(rows: seq<Row>, desc: Option<string>, amount: Option<string>, pattern: string,
                            minText: string, maxText: string,
                            compile: string -> Option<string -> bool>, parse: string -> Option<real>)
    requires Strip(pattern) == "" && Strip(minText) == "" && Strip(maxText) == ""
    ensures Steps(rows, desc, amount, pattern, minText, maxText, compile, parse) == Some(rows)
  {
  }

  /** A bound the parser refuses makes the filter raise whenever there is an amount column
      and the pattern step went through, even when no rows are left to compare. */
  lemma BadBoundRaises(rows: seq<Row>, desc: Option<string>, amount: Option<string>, pattern: string,
                       minText: string, maxText: string,
                       compile: string -> Option<string -> bool>, parse: string -> Option<real>)
    requires PatternStep(rows, desc, pattern, compile).Some? && amount.Some?
    requires (Strip(minText) != "" && parse(Strip(minText)).None?) ||
             (Strip(maxText) != "" && parse(Strip(maxText)).None?)
    ensures Steps(rows, desc, amount, pattern, minText, maxText, compile, parse).None?
  {
  }

  /** Text in the amount column makes a non-blank bound raise. */
  lemma TextAmountRaises(rows: seq<Row>, desc: Option<string>, amount: Option<string>, pattern: string,
                         minText: string, maxText: string,
                         compile: string -> Option<string -> bool>, parse: string -> Option<real>)
    requires PatternStep(rows, desc, pattern, compile) == Some(rows) && amount.Some?
    requires Strip(minText) != "" && parse(Strip(minText)).Some?
    requires exists i :: 0 <= i < |rows| && CellAt(rows[i], amount.value).Str?
    ensures Steps(rows, desc, amount, pattern, minText, maxText, compile, parse).None?
  {
    var i :| 0 <= i < |rows| && CellAt(rows[i], amount.value).Str?;
    assert !Numeric(CellAt(rows[i], amount.value));
    assert BoundStep(rows, amount.value, minText, parse, true).None?;
  }

  /** The amount of a row as `sum()` counts it: NaN and missing cells count as nothing. */
  function Amount(row: Row, col: string): real {
    var c := CellAt(row, col);
    if c.Number? then c.value else 0.0
  }

  /** `data[data[col] > 0][col].sum()`. */
  function Positives(rows: seq<Row>, col: string): (r: real)
    ensures r >= 0.0
  {
    if rows == [] then 0.0
    else (if Amount(rows[0], col) > 0.0 then Amount(rows[0], col) else 0.0) + Positives(rows[1..], col)
  }

  /** `data[data[col] < 0][col].sum()`, before `abs`. */
  function Negatives(rows: seq<Row>, col: string): (r: real)
    ensures r <= 0.0
  {
    if rows == [] then 0.0
    else (if Amount(rows[0], col) < 0.0 then Amount(rows[0], col) else 0.0) + Negatives(rows[1..], col)
  }

  /** `data[col].sum()`. */
  function Net(rows: seq<Row>, col: string): real {
    if rows == [] then 0.0 else Amount(rows[0], col) + Net(rows[1..], col)
  }

  /** Every amount is positive, negative or zero, so the net balance splits into the two
      totals. */
  lemma {:induction false} NetSplits(rows: seq<Row>, col: string)
    ensures Net(rows, col) == Positives(rows, col) + Negatives(rows, col)
  {
    if rows != [] {
      NetSplits(rows[1..], col);
    }
  }

  /** The summary `update_summary` computes for the rows of a frame and its amount column,
      `None` when a comparison raises; without an amount column the totals are zero. */
  function SummaryFor(rows: seq<Row>, amount: Option<string>): (r: Option<Summary>)
    ensures r.None? <==> amount.Some? && !AllNumeric(rows, amount.value)
    ensures r.Some? ==> r.value.records == |rows| && r.value.positive >= 0.0 && r.value.negative >= 0.0
  {
    if amount.None? then Some(Summary(|rows|, 0.0, 0.0, 0.0))
    else if !AllNumeric(rows, amount.value) then None
    else Some(Summary(|rows|, Positives(rows, amount.value), -Negatives(rows, amount.value), Net(rows, amount.value)))
  }

  function SummaryOf(t: Table): Option<Summary> {
    SummaryFor(t.rows, AmountColumn(t.columns))
  }

  /** The net balance shown is the debit total minus the credit total. */
  lemma SummaryBalances(rows: seq<Row>, amount: Option<string>)
    requires SummaryFor(rows, amount).Some?
    ensures var s := SummaryFor(rows, amount).value; s.net == s.positive - s.negative
  {
    if amount.Some? {
      NetSplits(rows, amount.value);
    }
  }

  /** One line of the table: for each heading, the row's value if the sheet has that column,
      otherwise the empty text. */
  function Line(row: Row, heads: seq<string>, columns: seq<string>): (r: seq<string>)
    ensures |r| == |heads|
    ensures forall k :: 0 <= k < |heads| ==>
              r[k] == if heads[k] in columns then Show(CellAt(row, heads[k])) else ""
  {
    if heads == [] then []
    else [if heads[0] in columns then Show(CellAt(row, heads[0])) else ""] + Line(row, heads[1..], columns)
  }

  /** The lines `show_data` shows for the rows of a frame, in row order. */
  function Lines(rows: seq<Row>, columns: seq<string>): (r: seq<seq<string>>)
    ensures |r| == |rows|
    ensures forall i :: 0 <= i < |rows| ==> r[i] == Line(rows[i], TreeColumns, columns)
  {
    if rows == [] then [] else [Line(rows[0], TreeColumns, columns)] + Lines(rows[1..], columns)
  }

  lemma {:induction false} LinesSnoc(rows: seq<Row>, columns: seq<string>, i: nat)
    requires i < |rows|
    ensures Lines(rows[..i + 1], columns) == Lines(rows[..i], columns) + [Line(rows[i], TreeColumns, columns)]
    decreases i
  {
    if i == 0 {
      assert rows[..1][1..] == [];
    } else {
      assert rows[..i + 1][1..] == rows[1..][..i];
      assert rows[..i][1..] == rows[1..][..i - 1];
      LinesSnoc(rows[1..], columns, i - 1);
    }
  }

  class AccountingGUI {
    var data: Table
    var filtered: Table
    /** The texts of the pattern, minimum, maximum and account entries. */
    var pattern: string
    var minText: string
    var maxText: string
    var account: string
    var treeLines: seq<seq<string>>
    var summary: Summary
    var notices: seq<Notice>

    constructor ()
      ensures data == Table([], []) && filtered == Table([], [])
      ensures pattern == DefaultPattern && minText == "" && maxText == "" && account == ""
      ensures treeLines == [] && summary == InitialSummary && notices == []
    {
      data, filtered := Table([], []), Table([], []);
      pattern, minText, maxText, account := DefaultPattern, "", "", "";
      treeLines, summary, notices := [], InitialSummary, [];
    }

    /** The frame `update_summary` describes: the filter result if it is not empty, else the
        sheet. */
    function Source(): Table
      reads this
    {
      if !IsEmpty(filtered) then filtered else data
    }

    /** `show_data`: the table is emptied, and then gets one line per row unless the frame is
        empty. */
    method ShowData(df: Table)
      modifies this`treeLines
      ensures treeLines == if IsEmpty(df) then [] else Lines(df.rows, df.columns)
    {
      treeLines := [];
      if IsEmpty(df) {
        return;
      }
      var i := 0;
      while i < |df.rows|
        invariant 0 <= i <= |df.rows|
        invariant treeLines == Lines(df.rows[..i], df.columns)
      {
        LinesSnoc(df.rows, df.columns, i);
        treeLines := treeLines + [Line(df.rows[i], TreeColumns, df.columns)];
        i := i + 1;
      }
      assert df.rows[..i] == df.rows;
    }

    /** `update_summary`: nothing happens for an empty frame; `ok` is false when a comparison
        raised, and then the labels are left as they were. */
    method UpdateSummary() returns (ok: bool)
      modifies this`summary
      ensures var src := Source();
        if IsEmpty(src) then ok && summary == old(summary)
        else ok == SummaryOf(src).Some? && summary == SummaryOf(src).GetOr(old(summary))
    {
      var src := Source();
      if IsEmpty(src) {
        return true;
      }
      var s := SummaryOf(src);
      if s.None? {
        return false;
      }
      summary := s.value;
      return true;
    }

    /** `apply_advanced_filter`. On an empty sheet only a warning; when the filter raises only
        an error dialog. Otherwise the result is stored and shown, and the summary is updated;
        a summary that raises is reported by the same error dialog, after the result is stored. */
    method ApplyAdvancedFilter(compile: string -> Option<string -> bool>, parse: string -> Option<real>)
      modifies this`filtered, this`treeLines, this`summary, this`notices
      ensures var r := AdvancedFilter(data, pattern, minText, maxText, compile, parse);
        Filtered(r, old(filtered), old(treeLines), old(summary), old(notices))
    {
      var r := AdvancedFilter(data, pattern, minText, maxText, compile, parse);
      Apply(r);
    }

    /** `apply_advanced_filter` once the filter gave `r` (`None` when it raised). */
    method Apply(r: Option<Table>)
      modifies this`filtered, this`treeLines, this`summary, this`notices
      ensures Filtered(r, old(filtered), old(treeLines), old(summary), old(notices))
    {
      if IsEmpty(data) {
        notices := notices + [NeedData];
        return;
      }
      if r.None? {
        notices := notices + [FilterFailed];
        return;
      }
      ShowResult(r.value);
    }

    /** The rest of `apply_advanced_filter` once the filter gave the frame `t` for a sheet that
        is not empty. */
    method ShowResult(t: Table)
      requires !IsEmpty(data)
      modifies this`filtered, this`treeLines, this`summary, this`notices
      ensures var src := if !IsEmpty(t) then t else data;
        && filtered == t
        && treeLines == (if IsEmpty(t) then [] else Lines(t.rows, t.columns))
        && summary == SummaryOf(src).GetOr(old(summary))
        && notices == if SummaryOf(src).None? then old(notices) + [FilterFailed] else old(notices)
    {
      filtered := t;
      ShowData(t);
      var ok := UpdateSummary();
      if !ok {
        notices := notices + [FilterFailed];
      }
    }

    /** The state `apply_advanced_filter` leaves behind when the filter gave `r`, from the
        state before it. */
    ghost predicate Filtered(r: Option<Table>, filtered0: Table, lines0: seq<seq<string>>, summary0: Summary,
                             notices0: seq<Notice>)
      reads this
    {
      if IsEmpty(data) || r.None? then
        && filtered == filtered0 && treeLines == lines0 && summary == summary0
        && notices == notices0 + [if IsEmpty(data) then NeedData else FilterFailed]
      else
        var src := if !IsEmpty(r.value) then r.value else data;
        && filtered == r.value
        && treeLines == (if IsEmpty(r.value) then [] else Lines(r.value.rows, r.value.columns))
        && summary == SummaryOf(src).GetOr(summary0)
        && notices == if SummaryOf(src).None? then notices0 + [FilterFailed] else notices0
    }

    /** `clear_filters`: the entries go back to their defaults. The stored filter result is
        kept, so the summary that follows still describes it when it is not empty. `ok` is
        false when the summary raised. */
    method ClearFilters() returns (ok: bool)
      modifies this`pattern, this`minText, this`maxText, this`account, this`treeLines, this`summary
      ensures pattern == DefaultPattern && minText == "" && maxText == "" && account == ""
      ensures IsEmpty(data) ==> ok && treeLines == old(treeLines) && summary == old(summary)
      ensures !IsEmpty(data) ==>
                && treeLines == Lines(data.rows, data.columns)
                && ok == SummaryOf(Source()).Some?
                && summary == SummaryOf(Source()).GetOr(old(summary))
    {
      pattern, minText, maxText, account := DefaultPattern, "", "", "";
      ok := true;
      if IsEmpty(data) {
        return;
      }
      var df := data;
      ghost var src := Source();
      ShowData(df);
      assert Source() == src;
      ok := UpdateSummary();
    }

    /** `load_excel`: `chosen` is the path the file dialog returns (empty when cancelled) and
        `loaded` what the loader returns (`None` when it raises). A summary that raises is
        reported as a failed load, after the sheet is stored and shown. */
    method LoadExcel(chosen: string, loaded: Option<Table>)
      modifies this`data, this`treeLines, this`summary, this`notices
      ensures chosen == "" || loaded.None? ==>
                && data == old(data) && treeLines == old(treeLines) && summary == old(summary)
                && notices == if chosen == "" then old(notices) else old(notices) + [LoadFailed]
      ensures chosen != "" && loaded.Some? ==>
                && data == loaded.value
                && treeLines == (if IsEmpty(data) then [] else Lines(data.rows, data.columns))
                && (IsEmpty(Source()) ==> summary == old(summary) && notices == old(notices) + [Loaded(|data.rows|)])
                && (!IsEmpty(Source()) ==>
                      && summary == SummaryOf(Source()).GetOr(old(summary))
                      && notices == old(notices) + [if SummaryOf(Source()).Some? then Loaded(|data.rows|) else LoadFailed])
    {
      if chosen == "" {
        return;
      }
      if loaded.None? {
        notices := notices + [LoadFailed];
        return;
      }
      data := loaded.value;
      ShowData(data);
      var ok := UpdateSummary();
      notices := notices + [if ok then Loaded(|data.rows|) else LoadFailed];
    }
  }
}
