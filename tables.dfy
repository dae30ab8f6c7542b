/** Spreadsheet data as the loader hands it over: an ordered list of column names and a
    sequence of rows, each row a map from column name to cell value. */
module Tables {
  import opened Wrappers
  import opened Text

  /** One cell: a string, a number (with the text Python's `str()` gives for it), an empty
      cell (pandas NaN), or any other object such as a timestamp (with its `str()` text). */
  datatype Cell = Str(s: string) | Number(value: real, shown: string) | Blank | Stamp(shown: string)

  type Row = map<string, Cell>

  datatype Table = Table(columns: seq<string>, rows: seq<Row>)

  /** `row[col]`; a column the row lacks reads as an empty cell, as pandas fills it with NaN. */
  function CellAt(row: Row, col: string): Cell {
    if col in row then row[col] else Blank
  }

  /** Python's `str(value)`, which is also what `astype(str)` gives (NaN becomes `"nan"`). */
  function Show(c: Cell): string {
    match c
    case Str(s) => s
    case Number(_, shown) => shown
    case Blank => "nan"
    case Stamp(shown) => shown
  }

  /** pandas `DataFrame.empty`: no rows or no columns. */
  predicate IsEmpty(t: Table) {
    |t.rows| == 0 || |t.columns| == 0
  }

  /** The needle occurs in the lower-cased column name (`needle in str(col).lower()`). */
  predicate NameHas(col: string, needle: string) {
    Contains(Lower(col), needle)
  }

  /** Index of the first column, from `from` on, whose lower-cased name contains `needle`:
      `[c for c in columns if needle in str(c).lower()][0]`. */
  function FirstColumnFrom(cols: seq<string>, needle: string, from: nat): (r: Option<nat>)
    requires from <= |cols|
    ensures r.Some? ==> from <= r.value < |cols| && NameHas(cols[r.value], needle)
    ensures r.Some? ==> forall j :: from <= j < r.value ==> !NameHas(cols[j], needle)
    ensures r.None? ==> forall j :: from <= j < |cols| ==> !NameHas(cols[j], needle)
    decreases |cols| - from
  {
    if from == |cols| then None
    else if NameHas(cols[from], needle) then Some(from)
    else FirstColumnFrom(cols, needle, from + 1)
  }

  function FirstColumn(cols: seq<string>, needle: string): (r: Option<nat>)
    ensures r.Some? ==> r.value < |cols| && NameHas(cols[r.value], needle)
    ensures r.Some? ==> forall j :: 0 <= j < r.value ==> !NameHas(cols[j], needle)
    ensures r.None? ==> forall j :: 0 <= j < |cols| ==> !NameHas(cols[j], needle)
  {
    FirstColumnFrom(cols, needle, 0)
  }

  /** `columns[i]` with a column name picked by `needle`: the first column whose lower-cased name
      contains it, otherwise the column at position `fallback`, which may not exist (`IndexError`). */
  function PickColumn(cols: seq<string>, needle: string, fallback: nat): (r: Option<string>)
    ensures (exists j :: 0 <= j < |cols| && NameHas(cols[j], needle)) ==>
      r.Some? && exists i :: 0 <= i < |cols| && r.value == cols[i] && NameHas(cols[i], needle) &&
                              forall j :: 0 <= j < i ==> !NameHas(cols[j], needle)
    ensures (forall j :: 0 <= j < |cols| ==> !NameHas(cols[j], needle)) ==>
      r == if fallback < |cols| then Some(cols[fallback]) else None
  {
    match FirstColumn(cols, needle)
    case Some(i) => Some(cols[i])
    case None => if fallback < |cols| then Some(cols[fallback]) else None
  }

  /** `DataFrame.to_dict("records")`: one map per row, keyed by every column, in row order. */
  function Records(t: Table): (r: seq<Row>)
    ensures |r| == |t.rows|
    ensures forall i :: 0 <= i < |r| ==> r[i].Keys == set c | c in t.columns
    ensures forall i, c :: 0 <= i < |r| && c in t.columns ==> r[i][c] == CellAt(t.rows[i], c)
  {
    seq(|t.rows|, i requires 0 <= i < |t.rows| => map c | c in t.columns :: CellAt(t.rows[i], c))
  }

  /** The row test "the cell in `col` satisfies `p`", the shape of a pandas boolean mask. */
  function CellTest(col: string, p: Cell -> bool): Row -> bool {
    row => p(CellAt(row, col))
  }

  /** pandas' `.str` accessor refuses a column that holds no text at all (a column of numbers,
      of time stamps or of empty cells). */
  predicate HasText(rows: seq<Row>, col: string) {
    exists i :: 0 <= i < |rows| && CellAt(rows[i], col).Str?
  }

  /** The mask `frame[col].str.match(pattern, na=False)`, `m` being the compiled pattern: a cell
      that is not text is never a match. */
  function TextMatch(col: string, m: string -> bool): Row -> bool {
    CellTest(col, (c: Cell) => c.Str? && m(c.s))
  }
}
