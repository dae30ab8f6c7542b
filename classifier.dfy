/** The conditional bot of the intermediate level (02-Orta/rpa_bot.py): every record the
    POSH filter keeps gets a category by amount and a bank by a marker in its description. */
module Classifier {
  import opened Wrappers
  import opened Text
  import opened Tables
  import opened RecordFilter

  const BigAmountThreshold: real := 1000.0
  const BankMarker: string := "GARANTİ"
  const BigCategory: string := "Büyük İşlem"
  const NormalCategory: string := "Normal"
  const GarantiBank: string := "Garanti"
  const OtherBank: string := "Diğer"

  /** A Python float as far as the classifier looks at it: a real number or NaN. */
  datatype Amount = Finite(value: real) | NaN

  /** One printed line: description, amount, category and bank. */
  datatype Classified = Classified(desc: string, amount: Amount, category: string, bank: string)

  /** The lines printed so far, and whether a record raised and ended the run. */
  datatype Outcome = Outcome(lines: seq<Classified>, crashed: bool)

  /** `col or default`: a column name that is unset or empty falls back to the fixed name. */
  function ColumnOr(col: Option<string>, default: string): (r: string)
    ensures col.Some? && col.value != "" ==> r == col.value
    ensures col.None? || col == Some("") ==> r == default
  {
    if col.Some? && col.value != "" then col.value else default
  }

  /** `float(rec.get(col, 0))`: a missing key gives 0, an empty cell NaN, a string whatever the
      float parser makes of it (`parse` returns `None` when `float` raises `ValueError`), and
      any other object raises `TypeError`. */
  function AmountOf(v: Option<Cell>, parse: string -> Option<real>): (r: Option<Amount>)
    ensures v.None? ==> r == Some(Finite(0.0))
    ensures v.Some? && v.value.Blank? ==> r == Some(NaN)
    ensures v.Some? && v.value.Stamp? ==> r.None?
  {
    match v
    case None => Some(Finite(0.0))
    case Some(Number(x, _)) => Some(Finite(x))
    case Some(Blank) => Some(NaN)
    case Some(Str(s)) => if parse(s).Some? then Some(Finite(parse(s).value)) else None
    case Some(Stamp(_)) => None
  }

  function CategoryOf(a: Amount): string {
    if a.Finite? && a.value > BigAmountThreshold then BigCategory else NormalCategory
  }

  function BankOf(desc: string): string {
    if Contains(Upper(desc), BankMarker) then GarantiBank else OtherBank
  }

  /** The threshold is strict and NaN never counts as large. */
  lemma CategoryThreshold(a: Amount)
    ensures CategoryOf(a) == BigCategory <==> a.Finite? && a.value > 1000.0
    ensures CategoryOf(Finite(1000.0)) == NormalCategory
    ensures CategoryOf(NaN) == NormalCategory
    ensures CategoryOf(a) == BigCategory || CategoryOf(a) == NormalCategory
  {
  }

  /** `upper()` produces a dotted capital İ only from a dotted capital İ. */
  lemma {:induction false} DottedCapitalOnlyFromItself(s: string)
    ensures 'İ' in Upper(s) ==> 'İ' in s
  {
    if s != [] {
      DottedCapitalOnlyFromItself(s[1..]);
      var u := UpperChar(s[0]);
      assert Upper(s) == u + Upper(s[1..]);
      if 'İ' in Upper(s) && 'İ' !in u {
        assert 'İ' in Upper(s[1..]);
        assert s[1..] <= s || 'İ' in s[1..];
        assert 'İ' in s;
      }
    }
  }

  /** The bank marker is found only in descriptions that are written with a dotted capital İ:
      Python's `upper()` turns `i` into `I`, so `"Garanti"` or `"garanti"` is filed under
      `Diğer`. */
  lemma GarantiNeedsDottedCapital(desc: string)
    ensures BankOf(desc) == GarantiBank ==> 'İ' in desc
  {
    if BankOf(desc) == GarantiBank {
      var u := Upper(desc);
      var i :| 0 <= i <= |u| - |BankMarker| && OccursAt(u, BankMarker, i);
      assert u[i + 6] == BankMarker[6];
      DottedCapitalOnlyFromItself(desc);
    }
  }

  /** Descriptions spelled with a dotless I do not carry the marker. */
  lemma GarantiSpellings(desc: string)
    requires desc == "garanti" || desc == "Garanti Bankası"
    ensures BankOf(desc) == OtherBank
  {
    GarantiNeedsDottedCapital(desc);
    assert forall i :: 0 <= i < |desc| ==> desc[i] != 'İ';
  }

  /** The marker is already upper case. */
  lemma MarkerIsUpper()
    ensures Upper(BankMarker) == BankMarker
  {
    UpperFixed(BankMarker);
  }

  /** The marker is found wherever it stands in the description. */
  lemma GarantiAnywhere(pre: string, post: string)
    ensures BankOf(pre + BankMarker + post) == GarantiBank
  {
    var m := BankMarker;
    UpperAppend(pre, m);
    UpperAppend(pre + m, post);
    MarkerIsUpper();
    assert OccursAt(m, m, 0);
    ContainsExtend(Upper(pre), m, Upper(post), m);
  }

  /** The first sample description carries the marker. */
  lemma GarantiSample(desc: string)
    requires desc == "POSH GARANTİ MAGAZA/123456789012345"
    ensures BankOf(desc) == GarantiBank
  {
    var pre, post := "POSH ", " MAGAZA/123456789012345";
    assert desc == pre + BankMarker + post;
    GarantiAnywhere(pre, post);
  }

  /** One record: its printed line, or `None` when converting the amount raises. */
  function Classify(rec: Row, descCol: string, amountCol: string, parse: string -> Option<real>): (r: Option<Classified>)
    ensures r.Some? ==> r.value.category == (if r.value.amount.Finite? && r.value.amount.value > 1000.0 then BigCategory else NormalCategory)
    ensures r.Some? ==> r.value.bank == (if Contains(Upper(r.value.desc), BankMarker) then GarantiBank else OtherBank)
    ensures r.None? <==> AmountOf(if amountCol in rec then Some(rec[amountCol]) else None, parse).None?
    ensures r.Some? ==> r.value.desc == (if descCol in rec then Show(rec[descCol]) else "")
    ensures r.Some? ==> Some(r.value.amount) == AmountOf(if amountCol in rec then Some(rec[amountCol]) else None, parse)
  {
    var desc := if descCol in rec then Show(rec[descCol]) else "";
    match AmountOf(if amountCol in rec then Some(rec[amountCol]) else None, parse)
    case None => None
    case Some(a) => Some(Classified(desc, a, CategoryOf(a), BankOf(desc)))
  }

  /** The loop over the filtered records: one line per record in filter order, until a record
      raises, which ends the whole run. */
  function ClassifyAll(recs: seq<Row>, descCol: string, amountCol: string, parse: string -> Option<real>): (r: Outcome)
    ensures |r.lines| <= |recs|
    ensures r.crashed <==> |r.lines| < |recs|
    ensures forall i :: 0 <= i < |r.lines| ==> Classify(recs[i], descCol, amountCol, parse) == Some(r.lines[i])
    ensures r.crashed ==> Classify(recs[|r.lines|], descCol, amountCol, parse).None?
  {
    if recs == [] then Outcome([], false)
    else match Classify(recs[0], descCol, amountCol, parse)
      case None => Outcome([], true)
      case Some(line) =>
        var rest := ClassifyAll(recs[1..], descCol, amountCol, parse);
        assert forall i :: 0 < i < |recs| ==> recs[i] == recs[1..][i - 1];
        Outcome([line] + rest.lines, rest.crashed)
  }

  /** A record without an amount is classified, as a normal transaction of amount 0. */
  lemma MissingAmountIsNormal(rec: Row, descCol: string, amountCol: string, parse: string -> Option<real>)
    requires amountCol !in rec
    ensures Classify(rec, descCol, amountCol, parse).Some?
    ensures Classify(rec, descCol, amountCol, parse).value.amount == Finite(0.0)
    ensures Classify(rec, descCol, amountCol, parse).value.category == NormalCategory
  {
  }

  class RPABot {
    var reader: DataReader

    constructor ()
      ensures fresh(reader) && reader.data.None? && reader.aciklamaCol.None? && reader.tutarCol.None?
    {
      reader := new DataReader();
    }

    /** `run`: read the spreadsheet (a failed read prints nothing), filter it, and classify
        every kept record with the column names the filter chose. An escaping `IndexError`
        from the filter ends the run before any line. */
    method Run(fileExists: bool, loaded: Option<Table>, parse: string -> Option<real>) returns (out: Outcome)
      modifies reader
      ensures reader.data == if fileExists && loaded.Some? then loaded else old(reader.data)
      ensures !(fileExists && loaded.Some?) ==> out == Outcome([], false)
      ensures fileExists && loaded.Some? && Filtered(loaded.value).Failure? ==> out == Outcome([], true)
      ensures fileExists && loaded.Some? && Filtered(loaded.value).Success? ==>
        out == ClassifyAll(Filtered(loaded.value).value,
                           ColumnOr(DescriptionColumn(loaded.value.columns), "Açıklama"),
                           ColumnOr(AmountColumn(loaded.value.columns), "Tutar"), parse)
    {
      var ok := reader.ReadExcel(fileExists, loaded);
      if !ok {
        return Outcome([], false);
      }
      var recs := reader.FilterByPattern();
      if recs.Failure? {
        return Outcome([], true);
      }
      var descCol := ColumnOr(reader.aciklamaCol, "Açıklama");
      var amountCol := ColumnOr(reader.tutarCol, "Tutar");
      out := ClassifyAll(recs.value, descCol, amountCol, parse);
    }
  }
}
