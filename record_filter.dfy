/** The pattern filter of the intermediate bot (02-Orta/data_reader.py): it loads a bank
    statement, finds the description and amount columns by name, and keeps the rows whose
    description matches the POSH pattern. */
module RecordFilter {
  import opened Wrappers
  import opened Tables
  import opened Patterns
  import Seqs

  /** The only failure the filter lets escape: a fallback column position the table lacks. */
  datatype FilterError = IndexError

  /** The first column whose name contains `açıklama`, else the third column. */
  function DescriptionColumn(cols: seq<string>): Option<string> {
    PickColumn(cols, "açıklama", 2)
  }

  /** The first column whose name contains `tutar`, else the fourth column. */
  function AmountColumn(cols: seq<string>): Option<string> {
    PickColumn(cols, "tutar", 3)
  }

  /** `str(row[col])` matches the POSH pattern (`astype(str)` turns an empty cell into "nan"). */
  predicate IsPoshRow(col: string, row: Row) {
    PoshMatch(Show(CellAt(row, col)))
  }

  /** The boolean-mask selection `data[data[col].astype(str).str.match(pattern, na=False)]`. */
  function PoshRows(rows: seq<Row>, col: string): (r: seq<Row>)
    ensures |r| <= |rows|
  {
    Seqs.Filter(rows, (row: Row) => IsPoshRow(col, row))
  }

  /** A row is kept iff it is a row of the table whose description matches. */
  lemma PoshRowsKeep(rows: seq<Row>, col: string, row: Row)
    ensures row in PoshRows(rows, col) <==> row in rows && IsPoshRow(col, row)
  {
    Seqs.FilterMembership(rows, (row: Row) => IsPoshRow(col, row), row);
  }

  /** Kept rows keep their order and content: the result is a subsequence of the rows. */
  lemma PoshRowsOrdered(rows: seq<Row>, col: string)
    ensures Seqs.IsSubsequence(PoshRows(rows, col), rows)
  {
    Seqs.FilterIsSubsequence(rows, (row: Row) => IsPoshRow(col, row));
  }

  /** The records `filter_by_pattern` returns for a loaded table, or the `IndexError` it raises. */
  function Filtered(t: Table): (r: Result<seq<Row>, FilterError>)
    ensures r.Failure? <==> DescriptionColumn(t.columns).None? || AmountColumn(t.columns).None?
    ensures r.Success? ==>
      r.value == Records(Table(t.columns, PoshRows(t.rows, DescriptionColumn(t.columns).value)))
  {
    match DescriptionColumn(t.columns)
    case None => Failure(IndexError)
    case Some(d) =>
      if AmountColumn(t.columns).None? then Failure(IndexError)
      else Success(Records(Table(t.columns, PoshRows(t.rows, d))))
  }

  /** A table with at least four columns always has both columns, so the filter cannot fail. */
  lemma FilterTotalOnWideTables(t: Table)
    requires |t.columns| >= 4
    ensures Filtered(t).Success?
  {
    var d := DescriptionColumn(t.columns);
    var a := AmountColumn(t.columns);
    assert d.Some? by {
      if forall j :: 0 <= j < |t.columns| ==> !NameHas(t.columns[j], "açıklama") {
      } else {
      }
    }
    assert a.Some? by {
      if forall j :: 0 <= j < |t.columns| ==> !NameHas(t.columns[j], "tutar") {
      } else {
      }
    }
  }

  /** Every returned record is a kept row, complete with all columns, and the kept rows are
      exactly the POSH rows of the table, in their original order. */
  lemma FilteredRecords(t: Table, i: nat)
    requires Filtered(t).Success? && i < |Filtered(t).value|
    ensures var kept := PoshRows(t.rows, DescriptionColumn(t.columns).value);
      && |Filtered(t).value| == |kept|
      && kept[i] in t.rows && IsPoshRow(DescriptionColumn(t.columns).value, kept[i])
      && Filtered(t).value[i].Keys == set c | c in t.columns
  {
    var kept := PoshRows(t.rows, DescriptionColumn(t.columns).value);
    PoshRowsKeep(t.rows, DescriptionColumn(t.columns).value, kept[i]);
  }

  class DataReader {
    var data: Option<Table>
    var aciklamaCol: Option<string>
    var tutarCol: Option<string>
    /** The spreadsheet row that holds the real headers (`header=23`); used by the loader. */
    const headerRow: nat
    const pattern: string

    constructor ()
      ensures data == None && aciklamaCol == None && tutarCol == None
      ensures headerRow == 23 && pattern == PoshPattern
    {
      data := None;
      aciklamaCol := None;
      tutarCol := None;
      headerRow := 23;
      pattern := PoshPattern;
    }

    /** `read_excel`: `fileExists` is the path check and `loaded` what the spreadsheet loader
        returns (`None` when it raises). A failed read leaves `data` as it was. */
    method ReadExcel(fileExists: bool, loaded: Option<Table>) returns (ok: bool)
      modifies this`data
      ensures ok == (fileExists && loaded.Some?)
      ensures data == if ok then loaded else old(data)
    {
      if !fileExists {
        return false;
      }
      match loaded {
        case None =>
          return false;
        case Some(t) =>
          data := Some(t);
          return true;
      }
    }

    /** `filter_by_pattern`: nothing loaded gives no records; otherwise the chosen columns are
        stored (the description column before the amount column is looked up, so it stays
        stored when the amount lookup fails) and the POSH rows are returned. */
    method FilterByPattern() returns (r: Result<seq<Row>, FilterError>)
      modifies this`aciklamaCol, this`tutarCol
      ensures data.None? ==> r == Success([]) && aciklamaCol == old(aciklamaCol) && tutarCol == old(tutarCol)
      ensures data.Some? ==> r == Filtered(data.value)
      ensures data.Some? ==> aciklamaCol == DescriptionColumn(data.value.columns).OrElse(old(aciklamaCol))
      ensures data.Some? ==> tutarCol == if DescriptionColumn(data.value.columns).Some?
                                         then AmountColumn(data.value.columns).OrElse(old(tutarCol))
                                         else old(tutarCol)
    {
      if data.None? {
        return Success([]);
      }
      var t := data.value;
      var d := DescriptionColumn(t.columns);
      if d.None? {
        return Failure(IndexError);
      }
      aciklamaCol := d;
      var a := AmountColumn(t.columns);
      if a.None? {
        return Failure(IndexError);
      }
      tutarCol := a;
      return Success(Records(Table(t.columns, PoshRows(t.rows, d.value))));
    }
  }
}
