/** The data-entry modal of both enterprise GUIs (03-Karmasik/gui/base_gui.py and
    03-Karmasik/advanced_gui.py): the texts of its four entries, what `save_advanced_record`
    accepts, the row it appends to `main_data`, and the progress bar it moves. */
module EntryForm {
  import opened Wrappers
  import opened Text
  import opened Automation
  import Seqs

  /** The status every saved row gets. */
  const SavedStatus: string := "Kaydedildi"
  /** The total the progress bar assumes when no records were handed over. */
  const DefaultTotal: nat := 100

  /** A row of `main_data`; the save time is left out. */
  datatype Saved = Saved(id: nat, date: string, file: string, description: string, amount: real, status: string)

  /** The texts of the modal's four entries (`modal_entries`). */
  datatype Form = Form(date: string, desc: string, amount: string, file: string)

  /** What a save does with the entries: a warning for a blank field, an error for an amount
      that does not parse, or the stripped values and the amount to store. */
  datatype Outcome =
    | Incomplete
    | BadAmount
    | Accepted(date: string, file: string, description: string, amount: real)

  /** The entries of a freshly built modal, and after `clear_advanced_form`: all empty. */
  const EmptyForm: Form := Form("", "", "", "")

  /** `str.replace(from, to)` for single characters. */
  function ReplaceChar(s: string, from: char, to: char): (r: string)
    ensures |r| == |s|
    ensures forall i :: 0 <= i < |s| ==> r[i] == if s[i] == from then to else s[i]
  {
    seq(|s|, i requires 0 <= i < |s| => if s[i] == from then to else s[i])
  }

  /** The amount text `float` is given: stripped, its decimal commas turned into points. */
  function AmountText(f: Form): string {
    ReplaceChar(Strip(f.amount), ',', '.')
  }

  /** `save_advanced_record` up to the append, `parse` standing for Python's `float` (`None`
      when it raises `ValueError`). */
  function Check(f: Form, parse: string -> Option<real>): Outcome {
    if Strip(f.date) == "" || Strip(f.desc) == "" || Strip(f.amount) == "" || Strip(f.file) == "" then Incomplete
    else match parse(AmountText(f))
      case None => BadAmount
      case Some(v) => Accepted(Strip(f.date), Strip(f.file), Strip(f.desc), v)
  }

  /** A field is blank when it holds nothing but white space. */
  predicate Blank(s: string) {
    forall i :: 0 <= i < |s| ==> IsSpace(s[i])
  }

  /** A save is accepted exactly when none of the four entries is blank and the amount
      parses; a blank entry is reported before the amount is looked at; an accepted save
      stores the stripped texts and the parsed amount. */
  lemma CheckIff(f: Form, parse: string -> Option<real>)
    ensures var r := Check(f, parse);
      var blank := Blank(f.date) || Blank(f.desc) || Blank(f.amount) || Blank(f.file);
      && (r == Incomplete <==> blank)
      && (r == BadAmount <==> !blank && parse(AmountText(f)).None?)
      && (r.Accepted? <==> !blank && parse(AmountText(f)).Some?)
      && (r.Accepted? ==>
            r == Accepted(Strip(f.date), Strip(f.file), Strip(f.desc), parse(AmountText(f)).value))
  {
    StripEmptyIff(f.date);
    StripEmptyIff(f.desc);
    StripEmptyIff(f.amount);
    StripEmptyIff(f.file);
  }

  /** The empty form is never accepted. */
  lemma EmptyFormIncomplete(parse: string -> Option<real>)
    ensures Check(EmptyForm, parse) == Incomplete
  {
  }

  /** The row an accepted save appends: the next id and the saved status. */
  function NextRow(rows: seq<Saved>, a: Outcome): (r: Saved)
    requires a.Accepted?
    ensures r.id == |rows| + 1 && r.status == SavedStatus
    ensures r.date == a.date && r.file == a.file && r.description == a.description && r.amount == a.amount
  {
    Saved(|rows| + 1, a.date, a.file, a.description, a.amount, SavedStatus)
  }

  /** The ids of `main_data` run 1, 2, … in order. */
  predicate Sequential(rows: seq<Saved>) {
    forall i :: 0 <= i < |rows| ==> rows[i].id == i + 1
  }

  /** Appending the next row keeps the ids sequential, and they stay distinct. */
  lemma NextRowSequential(rows: seq<Saved>, a: Outcome)
    requires a.Accepted? && Sequential(rows)
    ensures Sequential(rows + [NextRow(rows, a)])
    ensures forall i, j :: 0 <= i < j < |rows| + 1 ==> (rows + [NextRow(rows, a)])[i].id != (rows + [NextRow(rows, a)])[j].id
  {
  }

  /** The value the progress bar is set to after a save: the saved count over the records
      handed over (100 when none were), as a percentage capped at 100. */
  function Progress(saved: nat, current: nat): real {
    var total := if current > 0 then current else DefaultTotal;
    var p := saved as real / total as real * 100.0;
    if p < 100.0 then p else 100.0
  }

  /** The progress is a percentage; it is full exactly when at least as many rows were saved
      as records were expected, and below that it is the exact ratio. */
  lemma ProgressBounds(saved: nat, current: nat)
    ensures var total := if current > 0 then current else DefaultTotal;
      && 0.0 <= Progress(saved, current) <= 100.0
      && (Progress(saved, current) == 100.0 <==> saved >= total)
      && (saved < total ==> Progress(saved, current) == saved as real / total as real * 100.0)
  {
    var total := if current > 0 then current else DefaultTotal;
    var s, t := saved as real, total as real;
    var q := s / t;
    assert q * t == s;
    if s < t {
      assert q < 1.0;
    } else {
      assert q >= 1.0;
    }
  }

  /** The number of rows saved with the given date: the dashboard's count for today. */
  function TodayCount(rows: seq<Saved>, today: string): (r: nat)
    ensures r <= |rows|
  {
    |Seqs.Filter(rows, (s: Saved) => s.date == today)|
  }

  /** A save moves today's count up by one exactly when the new row carries today's date. */
  lemma TodayCountAppend(rows: seq<Saved>, row: Saved, today: string)
    ensures TodayCount(rows + [row], today) == TodayCount(rows, today) + (if row.date == today then 1 else 0)
  {
    var p := (s: Saved) => s.date == today;
    Seqs.FilterAppend(rows, [row], p);
    assert [row][1..] == [];
  }

  /** The text of the entry with the given key (`""` for a key that names none). */
  function EntryText(f: Form, key: string): string {
    if key == DateKey then f.date
    else if key == DescKey then f.desc
    else if key == AmountKey then f.amount
    else if key == FileKey then f.file
    else ""
  }

  /** `fill_entry_field` on `modal_entries[key]`: the entry's text is deleted and `text`
      inserted in its place; a key that is not one of the four raises `KeyError`. */
  function SetEntry(f: Form, key: string, text: string): (r: Option<Form>)
    ensures r.Some? <==> key in FormKeys
    ensures r.Some? ==> EntryText(r.value, key) == text
    ensures r.Some? ==> forall k :: k in FormKeys && k != key ==> EntryText(r.value, k) == EntryText(f, k)
  {
    if key == DateKey then Some(f.(date := text))
    else if key == DescKey then Some(f.(desc := text))
    else if key == AmountKey then Some(f.(amount := text))
    else if key == FileKey then Some(f.(file := text))
    else None
  }

  /** The entries after filling the planned fields one after the other; `None` once a key
      names no entry. */
  function FillPlan(f: Form, plan: seq<(string, string)>): Option<Form>
    decreases |plan|
  {
    if plan == [] then Some(f)
    else match SetEntry(f, plan[0].0, plan[0].1)
      case None => None
      case Some(g) => FillPlan(g, plan[1..])
  }

  /** A form is determined by the texts of its four entries. */
  lemma FormByEntries(f: Form, g: Form)
    requires forall k :: k in FormKeys ==> EntryText(f, k) == EntryText(g, k)
    ensures f == g
  {
    assert EntryText(f, DateKey) == EntryText(g, DateKey);
    assert EntryText(f, DescKey) == EntryText(g, DescKey);
    assert EntryText(f, AmountKey) == EntryText(g, AmountKey);
    assert EntryText(f, FileKey) == EntryText(g, FileKey);
  }

  /** Whatever the entries held before, filling a record's four planned fields leaves each
      entry holding exactly the text the bot typed into it. */
  lemma FillPlanEntered(f: Form, rec: EntryRecord)
    ensures FillPlan(f, FieldPlan(rec)) == Some(Entered(rec))
  {
    var plan := FieldPlan(rec);
    var f1 := SetEntry(f, DateKey, rec.tarih).value;
    var f2 := SetEntry(f1, DescKey, ShortDescription(rec.aciklama)).value;
    var f3 := SetEntry(f2, AmountKey, rec.tutar).value;
    var f4 := SetEntry(f3, FileKey, rec.dosya).value;
    var p1 := plan[1..];
    var p2 := p1[1..];
    var p3 := p2[1..];
    assert p3[1..] == [];
    assert FillPlan(f3, p3) == Some(f4);
    assert FillPlan(f2, p2) == FillPlan(f3, p3);
    assert FillPlan(f1, p1) == FillPlan(f2, p2);
    assert FillPlan(f, plan) == FillPlan(f1, p1);
    FormByEntries(f4, Entered(rec));
  }

  /** The entries after the bot filled all four fields of a record. */
  function Entered(rec: EntryRecord): Form {
    Form(rec.tarih, ShortDescription(rec.aciklama), rec.tutar, rec.dosya)
  }

  /** A record the bot typed in is stored, stripped, exactly when none of its four texts is
      blank and its amount parses. */
  lemma EnteredRecordSaves(rec: EntryRecord, parse: string -> Option<real>)
    ensures var r := Check(Entered(rec), parse);
      var d := ShortDescription(rec.aciklama);
      var amount := ReplaceChar(Strip(rec.tutar), ',', '.');
      && (r.Accepted? <==>
            !Blank(rec.tarih) && !Blank(d) && !Blank(rec.tutar) && !Blank(rec.dosya) && parse(amount).Some?)
      && (r.Accepted? ==> r == Accepted(Strip(rec.tarih), Strip(rec.dosya), Strip(d), parse(amount).value))
  {
    CheckIff(Entered(rec), parse);
  }
}
