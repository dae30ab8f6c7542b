/** The reader of the simple bot (data_reader.py): it loads the input spreadsheet, checks the
    required columns and hands the rows over as records. */
module InputReader {
  import opened Wrappers
  import opened Tables
  import Seqs

  /** The columns the simple bot needs, in the order they are reported when missing. */
  const RequiredColumns: seq<string> := ["Tarih", "Açıklama", "Tutar", "Tip"]

  /** `[col for col in required_columns if col not in data.columns]`. */
  function MissingColumns(cols: seq<string>): (r: seq<string>)
    ensures |r| <= |RequiredColumns|
  {
    Seqs.Filter(RequiredColumns, (c: string) => c !in cols)
  }

  /** A required column is reported exactly when the table lacks it, and the report keeps the
      fixed order of the required list. */
  lemma MissingColumnsExact(cols: seq<string>, c: string)
    ensures c in MissingColumns(cols) <==> c in RequiredColumns && c !in cols
    ensures Seqs.IsSubsequence(MissingColumns(cols), RequiredColumns)
  {
    Seqs.FilterMembership(RequiredColumns, (c: string) => c !in cols, c);
    Seqs.FilterIsSubsequence(RequiredColumns, (c: string) => c !in cols);
  }

  /** Nothing is missing iff all four required columns are present; other columns do not matter. */
  lemma NothingMissingIff(cols: seq<string>)
    ensures MissingColumns(cols) == [] <==> forall c :: c in RequiredColumns ==> c in cols
  {
    forall c | c in RequiredColumns
      ensures c in MissingColumns(cols) <==> c !in cols
    {
      MissingColumnsExact(cols, c);
    }
    if MissingColumns(cols) != [] {
      var m := MissingColumns(cols)[0];
      assert m in MissingColumns(cols);
      MissingColumnsExact(cols, m);
    }
  }

  class DataReader {
    var data: Option<Table>

    constructor ()
      ensures data.None?
    {
      data := None;
    }

    /** `read_excel`: a missing path or a failing loader leaves `data` as it was. */
    method ReadExcel(fileExists: bool, loaded: Option<Table>) returns (ok: bool)
      modifies this`data
      ensures ok == (fileExists && loaded.Some?)
      ensures data == if ok then loaded else old(data)
    {
      if !fileExists || loaded.None? {
        return false;
      }
      data := loaded;
      return true;
    }

    /** `get_data`: no records before a load, otherwise one complete record per row in row order. */
    function GetData(): (r: seq<Row>)
      reads this
      ensures data.None? ==> r == []
      ensures data.Some? ==> |r| == |data.value.rows|
      ensures data.Some? ==> forall i, c :: 0 <= i < |r| && c in data.value.columns ==>
                               c in r[i] && r[i][c] == CellAt(data.value.rows[i], c)
    {
      if data.Some? then Records(data.value) else []
    }

    /** `validate_data`: false before a load, otherwise true iff no required column is missing. */
    function ValidateData(): (ok: bool)
      reads this
      ensures data.None? ==> !ok
      ensures data.Some? ==> (ok <==> forall c :: c in RequiredColumns ==> c in data.value.columns)
    {
      NothingMissingIff(if data.Some? then data.value.columns else []);
      data.Some? && MissingColumns(data.value.columns) == []
    }
  }
}
