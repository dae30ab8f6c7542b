/** The record and file processing both `EnterpriseRPABot` variants share: a bot's observable
    state, one record's entry into the modal form, one spreadsheet's processing, and phase 3
    over every file. The GUI is an oracle answering each call from the calls made so far; the
    clock and the screen are the stream of observations the bot will make. */
module Runs {
  import opened Wrappers
  import opened Tables
  import opened Automation
  import Seqs

  /** What a call on the GUI returns, given every call made so far (the last one being the
      call answered): `None` for Python `None`, else the truth value returned. */
  type Oracle = seq<GuiCall> -> Option<bool>

  /** What is outside the bot: the GUI's answers, the spreadsheet loader (`None` when
      reading a file raises) and the current date. */
  datatype World = World(answer: Oracle, sheets: string -> Option<Table>, today: string)

  /** The two variants: 03-Karmasik/rpa/core_engine.py and the older 03-Karmasik/rpa_bot.py. */
  datatype Variant = Core | Legacy

  /** The bot's state as far as the processing changes it: the observations still to come,
      the GUI calls made, `all_excel_data`, `total_records_processed`, `failed_records`
      and `results`. */
  datatype Bot = Bot(
    env: seq<Obs>,
    calls: seq<GuiCall>,
    store: map<string, seq<EntryRecord>>,
    processed: nat,
    failed: nat,
    results: seq<FileResult>)

  /** Reading the screen once: the next observation's screen, or nothing open once the
      observations have run out. */
  function Look(env: seq<Obs>): (r: (Screen, seq<Obs>))
    ensures |r.1| <= |env|
  {
    if env == [] then (NoScreen, []) else (env[0].screen, env[1..])
  }

  /** `process_single_record` of core_engine.py: wait up to 5 seconds for the modal, look
      for the form, fill the fields present, then save; the record succeeds iff the save call
      returns something other than `None`. */
  function CoreRecord(w: World, b: Bot, rec: EntryRecord): (r: (Bot, bool))
  {
    var wt := Wait(5.0, b.env);
    var env1 := b.env[wt.used..];
    if !wt.ready then (b.(env := env1), false)
    else
      var look := Look(env1);
      match FindModalForm(look.0)
      case None => (b.(env := look.1), false)
      case Some(keys) =>
        var calls := b.calls + Fills(FieldPlan(rec), keys) + [Save];
        (b.(env := look.1, calls := calls), w.answer(calls).Some?)
  }

  /** `process_single_record` of rpa_bot.py: read `modal_entries` once, fill the fields in
      order until a key is missing, and save only if all four were filled; the record
      succeeds iff every field was filled, whatever the save returns. */
  function LegacyRecord(b: Bot, rec: EntryRecord): (r: (Bot, bool))
  {
    var look := Look(b.env);
    var f := LegacyFills(FieldPlan(rec), look.0.entries.Keys);
    (b.(env := look.1, calls := b.calls + f.0 + (if f.1 then [Save] else [])), f.1)
  }

  function RecordStep(v: Variant, w: World, b: Bot, rec: EntryRecord): (Bot, bool) {
    match v
    case Core => CoreRecord(w, b, rec)
    case Legacy => LegacyRecord(b, rec)
  }

  /** The counter update after one record. */
  function Tally(r: (Bot, bool)): Bot {
    if r.1 then r.0.(processed := r.0.processed + 1) else r.0.(failed := r.0.failed + 1)
  }

  /** How one record is entered, as a function value. */
  function Recorder(v: Variant, w: World): (Bot, EntryRecord) -> (Bot, bool) {
    (b: Bot, rec: EntryRecord) => RecordStep(v, w, b, rec)
  }

  /** The loop of `process_records_from_file` after its first `n` records, `step` entering
      one record. */
  function RecordsUpTo(step: (Bot, EntryRecord) -> (Bot, bool), b: Bot, recs: seq<EntryRecord>, n: nat): Bot
    requires n <= |recs|
    decreases n
  {
    if n == 0 then b else Tally(step(RecordsUpTo(step, b, recs, n - 1), recs[n - 1]))
  }

  /** The records of a file, or `None` when reading it raises or it has no description
      column. */
  function Extract(w: World, file: string): Option<seq<EntryRecord>> {
    match w.sheets(file)
    case None => None
    case Some(t) => FileRecords(t, file, w.today)
  }

  /** `process_single_excel_file`: a file that raises gets the `{0, 0, 1}` entry; otherwise
      its records are stored under its name, handed to the GUI, entered one by one, and the
      file's entry uses the run-wide failure count. */
  function FileStep(v: Variant, w: World, b: Bot, file: string): Bot {
    match Extract(w, file)
    case None => b.(results := b.results + [Broken(file)])
    case Some(recs) =>
      var b1 := b.(store := b.store[file := recs], calls := b.calls + [SetRecords(recs)]);
      var b2 := RecordsUpTo(Recorder(v, w), b1, recs, |recs|);
      b2.(results := b2.results + [Done(file, |recs|, b2.failed)])
  }

  /** How one file is processed, as a function value. */
  function Stepper(v: Variant, w: World): (Bot, string) -> Bot {
    (b: Bot, file: string) => FileStep(v, w, b, file)
  }

  /** The loop of phase 3 after its first `n` files, `step` processing one file. */
  function FilesUpTo(step: (Bot, string) -> Bot, b: Bot, files: seq<string>, n: nat): Bot
    requires n <= |files|
    decreases n
  {
    if n == 0 then b else step(FilesUpTo(step, b, files, n - 1), files[n - 1])
  }

  /** Phase 3: every file in order; nothing when there are none. */
  function Phase3(v: Variant, w: World, b: Bot, files: seq<string>): Bot {
    FilesUpTo(Stepper(v, w), b, files, |files|)
  }

  // ---------------------------------------------------------------- properties

  /** One record changes neither the stored records, the counters nor the results, and only
      adds GUI calls. */
  lemma RecordStepFrame(v: Variant, w: World, b: Bot, rec: EntryRecord)
    ensures var r := RecordStep(v, w, b, rec).0;
      && r.store == b.store && r.processed == b.processed && r.failed == b.failed
      && r.results == b.results && b.calls <= r.calls
  {
    var r := RecordStep(v, w, b, rec).0;
    if v.Core? {
      var wt := Wait(5.0, b.env);
      if wt.ready {
        var look := Look(b.env[wt.used..]);
        if FindModalForm(look.0).Some? {
          Seqs.AppendAssoc(b.calls, Fills(FieldPlan(rec), FindModalForm(look.0).value), [Save]);
        }
      }
    } else {
      var look := Look(b.env);
      var f := LegacyFills(FieldPlan(rec), look.0.entries.Keys);
      Seqs.AppendAssoc(b.calls, f.0, if f.1 then [Save] else []);
    }
  }

  /** What entering one record leaves alone. */
  ghost predicate Framed(step: (Bot, EntryRecord) -> (Bot, bool)) {
    forall b: Bot, rec: EntryRecord {:trigger step(b, rec)} ::
      var r := step(b, rec).0;
      && r.store == b.store && r.processed == b.processed && r.failed == b.failed
      && r.results == b.results && b.calls <= r.calls
  }

  lemma RecorderFramed(v: Variant, w: World)
    ensures Framed(Recorder(v, w))
  {
    forall b: Bot, rec: EntryRecord
      ensures var r := Recorder(v, w)(b, rec).0;
        && r.store == b.store && r.processed == b.processed && r.failed == b.failed
        && r.results == b.results && b.calls <= r.calls
    {
      RecordStepFrame(v, w, b, rec);
    }
  }

  lemma {:induction false} RecordsUpToPartition(step: (Bot, EntryRecord) -> (Bot, bool), b: Bot, recs: seq<EntryRecord>, n: nat)
    requires Framed(step)
    requires n <= |recs|
    ensures var r := RecordsUpTo(step, b, recs, n);
      && r.processed + r.failed == b.processed + b.failed + n
      && r.processed >= b.processed && r.failed >= b.failed
      && r.store == b.store && r.results == b.results && b.calls <= r.calls
    decreases n
  {
    if n > 0 {
      RecordsUpToPartition(step, b, recs, n - 1);
    }
  }

  /** Each record increments exactly one of the two counters, so over a file's records their
      sum grows by the number of records; the stored records and the results do not change
      and calls are only added. */
  lemma RecordsPartition(v: Variant, w: World, b: Bot, recs: seq<EntryRecord>)
    ensures var r := RecordsUpTo(Recorder(v, w), b, recs, |recs|);
      && r.processed + r.failed == b.processed + b.failed + |recs|
      && r.processed >= b.processed && r.failed >= b.failed
      && r.store == b.store && r.results == b.results && b.calls <= r.calls
  {
    RecorderFramed(v, w);
    RecordsUpToPartition(Recorder(v, w), b, recs, |recs|);
  }

  /** An oracle like both GUIs of the repository, whose `save_advanced_record` returns
      `None` on every path. */
  ghost predicate SaveAnswersNone(w: World) {
    forall h: seq<GuiCall> :: |h| > 0 && h[|h| - 1] == Save ==> w.answer(h).None?
  }

  /** Entering a record never succeeds. */
  ghost predicate AlwaysFails(step: (Bot, EntryRecord) -> (Bot, bool)) {
    forall b: Bot, rec: EntryRecord {:trigger step(b, rec)} :: !step(b, rec).1
  }

  lemma {:induction false} RecordsUpToFail(step: (Bot, EntryRecord) -> (Bot, bool), b: Bot, recs: seq<EntryRecord>, n: nat)
    requires Framed(step) && AlwaysFails(step)
    requires n <= |recs|
    ensures RecordsUpTo(step, b, recs, n).processed == b.processed
    ensures RecordsUpTo(step, b, recs, n).failed == b.failed + n
    decreases n
  {
    if n > 0 {
      RecordsUpToFail(step, b, recs, n - 1);
    }
  }

  /** With such a GUI the newer bot counts every record as failed: the save result it
      checks is always `None`. */
  lemma SaveNoneFails(w: World, b: Bot, recs: seq<EntryRecord>)
    requires SaveAnswersNone(w)
    ensures RecordsUpTo(Recorder(Core, w), b, recs, |recs|).processed == b.processed
    ensures RecordsUpTo(Recorder(Core, w), b, recs, |recs|).failed == b.failed + |recs|
  {
    RecorderFramed(Core, w);
    forall b: Bot, rec: EntryRecord
      ensures !Recorder(Core, w)(b, rec).1
    {
      CoreSaveNone(w, b, rec);
    }
    RecordsUpToFail(Recorder(Core, w), b, recs, |recs|);
  }

  /** The older bot's record succeeds exactly when the entries it reads include all four
      form keys; then it fills them in order and saves. */
  lemma LegacyRecordIff(b: Bot, rec: EntryRecord)
    ensures var keys := Look(b.env).0.entries.Keys;
      && (LegacyRecord(b, rec).1 <==> FormKeys <= keys)
      && (LegacyRecord(b, rec).1 ==>
            LegacyRecord(b, rec).0.calls == b.calls +
              [Fill(DateKey, rec.tarih), Fill(DescKey, ShortDescription(rec.aciklama)),
               Fill(AmountKey, rec.tutar), Fill(FileKey, rec.dosya), Save])
  {
    var keys := Look(b.env).0.entries.Keys;
    var plan := FieldPlan(rec);
    LegacyFillsStop(plan, keys);
    assert (forall i :: 0 <= i < |plan| ==> plan[i].0 in keys) <==> FormKeys <= keys by {
      assert plan[0].0 == DateKey && plan[1].0 == DescKey && plan[2].0 == AmountKey && plan[3].0 == FileKey;
    }
    if FormKeys <= keys {
      FillsAll(plan, keys);
    }
  }

  /** The newer bot's record succeeds only after the modal became ready within 5 seconds and
      the form was found; the calls it adds are the fills of the keys present and the save.
      On the form the GUIs build, those are the four fields in order. */
  lemma CoreRecordCalls(w: World, b: Bot, rec: EntryRecord)
    ensures var wt := Wait(5.0, b.env);
      var look := Look(b.env[wt.used..]);
      var r := CoreRecord(w, b, rec);
      && (r.1 ==> wt.ready && ModalReady(look.0))
      && (r.0.calls != b.calls ==>
            && ModalReady(look.0)
            && r.0.calls == b.calls + Fills(FieldPlan(rec), look.0.entries.Keys) + [Save])
      && (look.0.entries.Keys == FormKeys && r.0.calls != b.calls ==>
            r.0.calls == b.calls +
              [Fill(DateKey, rec.tarih), Fill(DescKey, ShortDescription(rec.aciklama)),
               Fill(AmountKey, rec.tutar), Fill(FileKey, rec.dosya), Save])
  {
    FormFilledInOrder(rec);
  }

  /** Sum of the `records` fields. */
  function SumRecords(rs: seq<FileResult>): nat {
    if rs == [] then 0 else SumRecords(rs[..|rs| - 1]) + rs[|rs| - 1].records
  }

  /** One file adds exactly one results entry, under the file's name; it is the `{0, 0, 1}`
      entry when the file cannot be read or has no description column, and otherwise counts
      the file's records with `success + errors == records`; the counters grow by the entry's
      record count. */
  lemma FileStepEntry(v: Variant, w: World, b: Bot, file: string)
    ensures var r := FileStep(v, w, b, file);
      && |r.results| == |b.results| + 1 && r.results[..|b.results|] == b.results
      && r.results[|b.results|].file == file
      && (Extract(w, file).None? <==> r.results[|b.results|] == Broken(file))
      && (Extract(w, file).Some? ==>
            && r.results[|b.results|].records == |Extract(w, file).value|
            && r.results[|b.results|].success + r.results[|b.results|].errors == r.results[|b.results|].records
            && r.store == b.store[file := Extract(w, file).value])
      && r.processed + r.failed == b.processed + b.failed + r.results[|b.results|].records
      && b.calls <= r.calls
  {
    var r := FileStep(v, w, b, file);
    if Extract(w, file).Some? {
      var recs := Extract(w, file).value;
      var b1 := b.(store := b.store[file := recs], calls := b.calls + [SetRecords(recs)]);
      RecordsPartition(v, w, b1, recs);
    }
  }

  /** Appending one file's entry to the results of the files before it. */
  lemma ResultsSnoc(base: seq<FileResult>, p: seq<FileResult>, e: FileResult, files: seq<string>, n: nat)
    requires 1 <= n <= |files|
    requires |p| == |base| + n - 1 && p[..|base|] == base
    requires forall i :: 0 <= i < n - 1 ==> p[|base| + i].file == files[i]
    requires e.file == files[n - 1]
    ensures var r := p + [e];
      && |r| == |base| + n && r[..|base|] == base
      && (forall i :: 0 <= i < n ==> r[|base| + i].file == files[i])
      && SumRecords(r[|base|..]) == SumRecords(p[|base|..]) + e.records
  {
    var r := p + [e];
    assert r[|base|..] == p[|base|..] + [e];
    assert r[..|base|] == p[..|base|];
  }

  /** What processing one file does to the results and the counters. */
  ghost predicate AddsOneEntry(step: (Bot, string) -> Bot) {
    forall b: Bot, file: string {:trigger step(b, file)} ::
      var r := step(b, file);
      && |r.results| == |b.results| + 1 && r.results[..|b.results|] == b.results
      && r.results[|b.results|].file == file
      && r.processed + r.failed == b.processed + b.failed + r.results[|b.results|].records
      && b.calls <= r.calls
  }

  lemma StepperAddsOneEntry(v: Variant, w: World)
    ensures AddsOneEntry(Stepper(v, w))
  {
    forall b: Bot, file: string
      ensures var r := Stepper(v, w)(b, file);
        && |r.results| == |b.results| + 1 && r.results[..|b.results|] == b.results
        && r.results[|b.results|].file == file
        && r.processed + r.failed == b.processed + b.failed + r.results[|b.results|].records
        && b.calls <= r.calls
    {
      FileStepEntry(v, w, b, file);
    }
  }

  lemma {:induction false} FilesUpToResults(step: (Bot, string) -> Bot, b: Bot, files: seq<string>, n: nat)
    requires AddsOneEntry(step)
    requires n <= |files|
    ensures var r := FilesUpTo(step, b, files, n);
      && |r.results| == |b.results| + n && r.results[..|b.results|] == b.results
      && (forall i :: 0 <= i < n ==> r.results[|b.results| + i].file == files[i])
      && r.processed + r.failed == b.processed + b.failed + SumRecords(r.results[|b.results|..])
      && b.calls <= r.calls
    decreases n
  {
    if n == 0 {
      assert b.results[|b.results|..] == [];
    } else {
      var p := FilesUpTo(step, b, files, n - 1);
      var r := step(p, files[n - 1]);
      FilesUpToResults(step, b, files, n - 1);
      var e := r.results[|p.results|];
      assert r.results == p.results + [e];
      ResultsSnoc(b.results, p.results, e, files, n);
    }
  }

  /** Phase 3 adds one results entry per file, in file order under each file's name, and
      the two counters together grow by the records those entries count. */
  lemma FilesResults(v: Variant, w: World, b: Bot, files: seq<string>)
    ensures var r := Phase3(v, w, b, files);
      && |r.results| == |b.results| + |files| && r.results[..|b.results|] == b.results
      && (forall i :: 0 <= i < |files| ==> r.results[|b.results| + i].file == files[i])
      && r.processed + r.failed == b.processed + b.failed + SumRecords(r.results[|b.results|..])
      && b.calls <= r.calls
  {
    StepperAddsOneEntry(v, w);
    FilesUpToResults(Stepper(v, w), b, files, |files|);
  }

  /** Under a GUI whose saves answer `None`, the newer bot counts one file's records as
      failures, so the file's entry reports no success. */
  lemma FileStepSaveNone(w: World, b: Bot, file: string)
    requires SaveAnswersNone(w)
    ensures var r := FileStep(Core, w, b, file);
      && r.processed == b.processed && |r.results| == |b.results| + 1 && r.results[..|b.results|] == b.results
      && r.results[|b.results|].success <= 0
  {
    var r := FileStep(Core, w, b, file);
    if Extract(w, file).Some? {
      var recs := Extract(w, file).value;
      var b1 := b.(store := b.store[file := recs], calls := b.calls + [SetRecords(recs)]);
      SaveNoneFails(w, b1, recs);
      RecordsPartition(Core, w, b1, recs);
    }
  }

  /** What processing one file does when no record can succeed. */
  ghost predicate NeverSucceeds(step: (Bot, string) -> Bot) {
    forall b: Bot, file: string {:trigger step(b, file)} ::
      var r := step(b, file);
      && r.processed == b.processed && |r.results| == |b.results| + 1 && r.results[..|b.results|] == b.results
      && r.results[|b.results|].success <= 0
  }

  lemma {:induction false} FilesUpToNoSuccess(step: (Bot, string) -> Bot, b: Bot, files: seq<string>, n: nat)
    requires NeverSucceeds(step)
    requires n <= |files|
    ensures var r := FilesUpTo(step, b, files, n);
      && |r.results| == |b.results| + n && r.processed == b.processed
      && r.results[..|b.results|] == b.results
      && forall i :: |b.results| <= i < |r.results| ==> r.results[i].success <= 0
    decreases n
  {
    if n > 0 {
      var p := FilesUpTo(step, b, files, n - 1);
      var r := step(p, files[n - 1]);
      FilesUpToNoSuccess(step, b, files, n - 1);
      var e := r.results[|p.results|];
      assert r.results == p.results + [e];
      NoSuccessSnoc(b.results, p.results, e);
    }
  }

  /** With a GUI whose saves answer `None`, the newer bot's phase 3 never counts a record as
      processed, and no entry it adds reports a positive success count: every failure so far
      is counted against each file. */
  lemma NoSuccessWhenSavesFail(w: World, b: Bot, files: seq<string>)
    requires SaveAnswersNone(w)
    ensures var r := Phase3(Core, w, b, files);
      && |r.results| == |b.results| + |files| && r.processed == b.processed
      && r.results[..|b.results|] == b.results
      && forall i :: |b.results| <= i < |r.results| ==> r.results[i].success <= 0
  {
    forall b: Bot, file: string
      ensures var r := Stepper(Core, w)(b, file);
        && r.processed == b.processed && |r.results| == |b.results| + 1 && r.results[..|b.results|] == b.results
        && r.results[|b.results|].success <= 0
    {
      FileStepSaveNone(w, b, file);
    }
    FilesUpToNoSuccess(Stepper(Core, w), b, files, |files|);
  }

  lemma NoSuccessSnoc(base: seq<FileResult>, p: seq<FileResult>, e: FileResult)
    requires |base| <= |p| && p[..|base|] == base
    requires forall i :: |base| <= i < |p| ==> p[i].success <= 0
    requires e.success <= 0
    ensures (p + [e])[..|base|] == base
    ensures forall i :: |base| <= i < |p| + 1 ==> (p + [e])[i].success <= 0
  {
    assert (p + [e])[..|base|] == p[..|base|];
  }

  /** With a GUI whose saves answer `None`, one record of the newer bot always fails. */
  lemma CoreSaveNone(w: World, b: Bot, rec: EntryRecord)
    requires SaveAnswersNone(w)
    ensures !CoreRecord(w, b, rec).1
  {
    var wt := Wait(5.0, b.env);
    if wt.ready {
      var look := Look(b.env[wt.used..]);
      if FindModalForm(look.0).Some? {
        var calls := b.calls + Fills(FieldPlan(rec), FindModalForm(look.0).value) + [Save];
        assert calls[|calls| - 1] == Save;
      }
    }
  }
}
