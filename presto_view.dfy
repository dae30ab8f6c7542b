/** The Presto viewer (02-Orta/presto_gui.py): a loaded spreadsheet, an editable regular
    expression and a table showing either the whole sheet or the rows whose `Açıklama` matches. */
module PrestoView {
  import opened Wrappers
  import opened Text
  import opened Tables
  import opened Patterns
  import Seqs

  /** The pattern the entry starts with. */
  const DefaultPattern: string := PrestoPattern
  const DescriptionColumn: string := "Açıklama"

  /** The dialogs the viewer shows. */
  datatype Notice =
    | NeedData                 // "Önce Excel yükleyin"
    | Loaded(rows: nat)        // "<n> satır yüklendi"
    | LoadFailed               // "Excel okunamadı: ..."
    | Matched(rows: nat)       // "<n> satır eslesme"
    | RegexFailed              // "Regex hatası: ..."
    | FilterFailed             // "Filtreleme hatası: ..."

  /** Why the filter raised: the column is missing (`KeyError`), it holds no text (the `.str`
      accessor's `AttributeError`), or the pattern does not compile (`re.error`). */
  datatype FilterError = NoColumn | NotText | BadPattern

  /** One line of the table: the row's values in column order, as Tk shows them. */
  function Line(row: Row, columns: seq<string>): (r: seq<string>)
    ensures |r| == |columns|
    ensures forall j :: 0 <= j < |columns| ==> r[j] == Show(CellAt(row, columns[j]))
  {
    if columns == [] then [] else [Show(CellAt(row, columns[0]))] + Line(row, columns[1..])
  }

  /** The lines `show_table` shows for a frame, in row order. */
  function Lines(rows: seq<Row>, columns: seq<string>): (r: seq<seq<string>>)
    ensures |r| == |rows|
    ensures forall i :: 0 <= i < |rows| ==> r[i] == Line(rows[i], columns)
  {
    if rows == [] then [] else [Line(rows[0], columns)] + Lines(rows[1..], columns)
  }

  lemma {:induction false} LinesSnoc(rows: seq<Row>, columns: seq<string>, i: nat)
    requires i < |rows|
    ensures Lines(rows[..i + 1], columns) == Lines(rows[..i], columns) + [Line(rows[i], columns)]
    decreases i
  {
    if i == 0 {
      assert rows[..1][1..] == [];
    } else {
      assert rows[..i + 1][1..] == rows[1..][..i];
      assert rows[..i][1..] == rows[1..][..i - 1];
      LinesSnoc(rows[1..], columns, i - 1);
    }
  }

  /** The filter `apply_filter` runs, `compile` standing for Python's regular expression
      compiler (`None` for a pattern that raises `re.error`). */
  function Filter(data: Table, pattern: string, compile: string -> Option<string -> bool>): (r: Result<Table, FilterError>)
    ensures r.Success? ==> r.value.columns == data.columns
  {
    if DescriptionColumn !in data.columns then Failure(NoColumn)
    else if !HasText(data.rows, DescriptionColumn) then Failure(NotText)
    else match compile(Strip(pattern))
      case None => Failure(BadPattern)
      case Some(m) => Success(Table(data.columns, Seqs.Filter(data.rows, TextMatch(DescriptionColumn, m))))
  }

  /** The filter fails exactly in its three error cases, in that order. */
  lemma FilterFailsIff(data: Table, pattern: string, compile: string -> Option<string -> bool>)
    ensures Filter(data, pattern, compile) == Failure(NoColumn) <==> DescriptionColumn !in data.columns
    ensures Filter(data, pattern, compile) == Failure(NotText) <==>
              DescriptionColumn in data.columns && !HasText(data.rows, DescriptionColumn)
    ensures Filter(data, pattern, compile) == Failure(BadPattern) <==>
              DescriptionColumn in data.columns && HasText(data.rows, DescriptionColumn)
              && compile(Strip(pattern)).None?
  {
  }

  /** A kept row is a row of the sheet whose description is text the pattern matches; the rows
      keep their order and NaN (an empty cell) never matches. */
  lemma FilterKeeps(data: Table, pattern: string, compile: string -> Option<string -> bool>, row: Row)
    requires Filter(data, pattern, compile).Success?
    ensures var kept := Filter(data, pattern, compile).value.rows;
      && Seqs.IsSubsequence(kept, data.rows)
      && (row in kept <==>
            row in data.rows && CellAt(row, DescriptionColumn).Str?
            && compile(Strip(pattern)).value(CellAt(row, DescriptionColumn).s))
  {
    var m := compile(Strip(pattern)).value;
    Seqs.FilterIsSubsequence(data.rows, TextMatch(DescriptionColumn, m));
    Seqs.FilterMembership(data.rows, TextMatch(DescriptionColumn, m), row);
  }

  /** With the default pattern compiled faithfully, the rows kept are exactly those whose
      description starts with `POSH` and ends with `MUSLUOĞLU`. */
  lemma DefaultFilterKeeps(data: Table, compile: string -> Option<string -> bool>, row: Row)
    requires DescriptionColumn in data.columns && HasText(data.rows, DescriptionColumn)
    requires compile(DefaultPattern).Some?
    requires forall s :: compile(DefaultPattern).value(s) == PrestoMatch(s)
    ensures Filter(data, DefaultPattern, compile).Success?
    ensures row in Filter(data, DefaultPattern, compile).value.rows <==>
              row in data.rows && CellAt(row, DescriptionColumn).Str?
              && PrestoMatch(CellAt(row, DescriptionColumn).s)
  {
    assert Strip(DefaultPattern) == DefaultPattern by {
      var p := DefaultPattern;
      assert !IsSpace(p[0]) && !IsSpace(p[|p| - 1]);
    }
    FilterKeeps(data, DefaultPattern, compile, row);
  }

  class PrestoGUI {
    var data: Table
    /** The text of the pattern entry. */
    var pattern: string
    /** The headings and the lines of the table. */
    var treeColumns: seq<string>
    var treeLines: seq<seq<string>>
    var notices: seq<Notice>

    constructor ()
      ensures data == Table([], []) && pattern == DefaultPattern
      ensures treeColumns == [] && treeLines == [] && notices == []
    {
      data := Table([], []);
      pattern := DefaultPattern;
      treeColumns, treeLines := [], [];
      notices := [];
    }

    /** `show_table`: the table is emptied, takes the frame's columns, then gets one line per
        row in row order. */
    method ShowTable(df: Table)
      modifies this`treeColumns, this`treeLines
      ensures treeColumns == df.columns
      ensures treeLines == Lines(df.rows, df.columns)
    {
      treeLines := [];
      treeColumns := df.columns;
      var i := 0;
      while i < |df.rows|
        invariant 0 <= i <= |df.rows|
        invariant treeColumns == df.columns
        invariant treeLines == Lines(df.rows[..i], df.columns)
      {
        LinesSnoc(df.rows, df.columns, i);
        treeLines := treeLines + [Line(df.rows[i], df.columns)];
        i := i + 1;
      }
      assert df.rows[..i] == df.rows;
    }

    /** `load_excel`: `chosen` is the path the file dialog returns (empty when cancelled) and
        `loaded` what the spreadsheet loader returns (`None` when it raises). */
    method LoadExcel(chosen: string, loaded: Option<Table>)
      modifies this`data, this`treeColumns, this`treeLines, this`notices
      ensures chosen == "" ==>
                data == old(data) && treeColumns == old(treeColumns) && treeLines == old(treeLines)
                && notices == old(notices)
      ensures chosen != "" && loaded.None? ==>
                data == old(data) && treeColumns == old(treeColumns) && treeLines == old(treeLines)
                && notices == old(notices) + [LoadFailed]
      ensures chosen != "" && loaded.Some? ==>
                data == loaded.value && treeColumns == data.columns && treeLines == Lines(data.rows, data.columns)
                && notices == old(notices) + [Loaded(|data.rows|)]
    {
      if chosen == "" {
        return;
      }
      if loaded.None? {
        notices := notices + [LoadFailed];
        return;
      }
      data := loaded.value;
      ShowTable(data);
      notices := notices + [Loaded(|data.rows|)];
    }

    /** `apply_filter`: on an empty sheet only a warning; on an error only an error dialog;
        otherwise the count of matches is shown and the table shows the matching rows. The
        sheet itself is never changed. */
    method ApplyFilter(compile: string -> Option<string -> bool>)
      modifies this`treeColumns, this`treeLines, this`notices
      ensures var r := Filter(data, pattern, compile);
        if IsEmpty(data) then
          treeColumns == old(treeColumns) && treeLines == old(treeLines) && notices == old(notices) + [NeedData]
        else if r.Failure? then
          && treeColumns == old(treeColumns) && treeLines == old(treeLines)
          && notices == old(notices) + [if r.error == BadPattern then RegexFailed else FilterFailed]
        else
          && treeColumns == data.columns && treeLines == Lines(r.value.rows, data.columns)
          && notices == old(notices) + [Matched(|r.value.rows|)]
    {
      if IsEmpty(data) {
        notices := notices + [NeedData];
        return;
      }
      var r := Filter(data, pattern, compile);
      if r.Failure? {
        notices := notices + [if r.error == BadPattern then RegexFailed else FilterFailed];
        return;
      }
      notices := notices + [Matched(|r.value.rows|)];
      ShowTable(r.value);
    }
  }
}
