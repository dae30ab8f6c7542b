/** The older `EnterpriseRPABot` (03-Karmasik/rpa_bot.py): a fixed tab route that ends by
    opening the data-entry modal, the six steps run without looking at their answers, the
    entry of every file's records, and a report made whatever the results. */
module LegacySequencer {
  import opened Wrappers
  import opened Automation
  import opened Runs
  import Sequencer

  // ---------------------------------------------------------------- phase 1

  /** The tabs visited between the two dashboard clicks: accounting, inventory, reports,
      system. */
  const Route: seq<int> := [1, 3, 4, 5]
  const FinanceTab: int := 2

  /** The calls of phase 1: the dashboard, the fixed route, the finance tab, the modal, and
      back to the dashboard with the modal left open. */
  function NavigationCalls(): seq<GuiCall> {
    [SelectTab(0)] + Sequencer.Selects(Route) + [SelectTab(FinanceTab), OpenModal, SelectTab(0)]
  }

  /** The tabs phase 1 selects before it opens the modal, in order. */
  const Visits: seq<int> := [0] + Route + [FinanceTab]

  /** Phase 1 selects the tabs of `Visits`, opens the modal, and returns to the dashboard. */
  lemma NavigationOrder()
    ensures NavigationCalls() ==
      seq(6, i requires 0 <= i < 6 => SelectTab(Visits[i])) + [OpenModal, SelectTab(0)]
  {
    assert Sequencer.Selects(Route) == [SelectTab(1), SelectTab(3), SelectTab(4), SelectTab(5)];
  }

  /** Before the modal opens every one of the six tabs is selected exactly once, the last
      of them being the finance tab. */
  lemma VisitsAllTabs()
    ensures |Visits| == 6 && Visits[5] == FinanceTab
    ensures forall t :: 0 <= t <= 5 <==> t in Visits
    ensures forall i, j :: 0 <= i < j < 6 ==> Visits[i] != Visits[j]
  {
    assert Visits == [0, 1, 3, 4, 5, 2];
  }

  // ---------------------------------------------------------------- phase 2

  /** `execute_step1` to `execute_step5` each make their GUI call; step 6 does nothing. */
  function StepCalls(k: nat): (r: seq<GuiCall>)
    requires 1 <= k <= 6
    ensures |r| <= 1 && (r == [] <==> k == 6)
  {
    if k <= 5 then [Step(k)] else []
  }

  /** The calls of steps 1 to `k - 1`. */
  function StepsBefore(k: nat): (r: seq<GuiCall>)
    requires 1 <= k <= 7
    decreases k
  {
    if k == 1 then [] else StepsBefore(k - 1) + StepCalls(k - 1)
  }

  /** Phase 2 calls the GUI's steps 1 to 5 in order, whatever they answer. */
  lemma {:induction false} StepsBeforeAll(k: nat)
    requires 1 <= k <= 7
    ensures StepsBefore(k) == seq(if k <= 6 then k - 1 else 5, i requires 0 <= i => Step(i + 1))
    decreases k
  {
    if k > 1 {
      StepsBeforeAll(k - 1);
    }
  }

  // ---------------------------------------------------------------- phase 4

  /** Phase 4: step 6 of the GUI, then the report, with no guard. */
  function Finalize(b: Bot, files: seq<string>): (Bot, Sequencer.Report) {
    (b.(calls := b.calls + [Step(6)]),
     Sequencer.Report(|files|, b.processed, b.failed, SuccessRate(b.processed, b.failed)))
  }

  // ---------------------------------------------------------------- the sequence

  /** `run_complete_automation_sequence`: the four phases in order. */
  function Sequence(w: World, b: Bot, files: seq<string>): (Bot, Sequencer.Report) {
    var b1 := b.(calls := b.calls + NavigationCalls() + StepsBefore(7));
    Finalize(Runs.Phase3(Legacy, w, b1, files), files)
  }

  /** The older bot always reports. The report counts the files and the records the run
      counted, one result per file in order; the new results together cover exactly the
      records counted in this run, and the rate is a percentage. A record counts as a
      success iff the form had all four fields, whatever the save answers. */
  lemma SequenceReports(w: World, b: Bot, files: seq<string>)
    ensures var r := Sequence(w, b, files);
      var n := |b.results|;
      && r.1.files == |files| && r.1.records == r.0.processed && r.1.failed == r.0.failed
      && 0.0 <= r.1.rate <= 100.0
      && |r.0.results| == n + |files|
      && r.0.results[..n] == b.results
      && (forall i :: 0 <= i < |files| ==> r.0.results[n + i].file == files[i])
      && r.0.processed + r.0.failed == b.processed + b.failed + SumRecords(r.0.results[n..])
      && b.calls + NavigationCalls() + StepsBefore(7) <= r.0.calls
      && r.0.calls[|r.0.calls| - 1] == Step(6)
  {
    var b1 := b.(calls := b.calls + NavigationCalls() + StepsBefore(7));
    FilesResults(Legacy, w, b1, files);
    var b3 := Runs.Phase3(Legacy, w, b1, files);
    SuccessRateBounds(b3.processed, b3.failed);
    assert b1.calls <= b3.calls + [Step(6)];
  }

  // ---------------------------------------------------------------- the bot

  class LegacyBot {
    /** The GUI, the spreadsheets and the date the bot works with. */
    const world: World
    /** Whether `set_gui_reference` was called. */
    var attached: bool
    var speed: string
    var files: seq<string>
    /** The observations of the screen still to come. */
    var env: seq<Obs>
    /** The GUI calls made so far. */
    var calls: seq<GuiCall>
    var store: map<string, seq<EntryRecord>>
    var processed: nat
    var failed: nat
    var results: seq<FileResult>
    /** The last report phase 4 logged. */
    var report: Option<Sequencer.Report>
    var running: bool

    function Snapshot(): Bot
      reads this
    {
      Bot(env, calls, store, processed, failed, results)
    }

    constructor (world: World, env: seq<Obs>)
      ensures this.world == world && this.env == env
      ensures !attached && speed == "fast" && files == [] && calls == [] && store == map[]
      ensures processed == 0 && failed == 0 && results == [] && report == None && !running
    {
      this.world := world;
      this.env := env;
      attached, speed, files, calls, store := false, "fast", [], [], map[];
      processed, failed, results, report, running := 0, 0, [], None, false;
    }

    method SetGuiReference()
      modifies this`attached
      ensures attached
    {
      attached := true;
    }

    method SetProcessingFiles(paths: seq<string>)
      modifies this`files
      ensures files == paths
    {
      files := paths;
    }

    method SetProcessingSpeed(s: string)
      modifies this`speed
      ensures speed == s
    {
      speed := s;
    }

    /** `process_single_record`: without a GUI nothing happens and the record fails;
        otherwise `modal_entries` is read once, the fields are filled in order until one is
        missing (the `KeyError` the handler turns into false), and the save follows only
        when all four were filled. The save's answer is not looked at. */
    method ProcessSingleRecord(rec: EntryRecord) returns (ok: bool)
      modifies this`env, this`calls
      ensures !attached ==> !ok && env == old(env) && calls == old(calls)
      ensures attached ==> (Snapshot(), ok) == LegacyRecord(old(Snapshot()), rec)
    {
      if !attached {
        return false;
      }
      var look := Look(env);
      env := look.1;
      ok := FillForm(FieldPlan(rec), look.0.entries.Keys);
    }

    /** The fills of `process_single_record` from the first field on: a missing key ends
        them with false, and the save follows only when every field was filled. */
    method FillForm(plan: seq<(string, string)>, keys: set<string>) returns (complete: bool)
      modifies this`calls
      ensures var f := LegacyFills(plan, keys);
        complete == f.1 && calls == old(calls) + f.0 + (if f.1 then [Save] else [])
    {
      var i := 0;
      while i < |plan|
        invariant 0 <= i <= |plan|
        invariant forall j :: 0 <= j < i ==> plan[j].0 in keys
        invariant calls == old(calls) + Fills(plan[..i], keys)
      {
        if plan[i].0 !in keys {
          LegacyFillsStop(plan, keys);
          ghost var n :| 0 <= n < |plan| && plan[n].0 !in keys
            && (forall j :: 0 <= j < n ==> plan[j].0 in keys) && LegacyFills(plan, keys).0 == Fills(plan[..n], keys);
          assert n == i;
          assert calls == calls + [];
          return false;
        }
        ghost var next := plan[..i + 1];
        assert next[..|next| - 1] == plan[..i] && next[|next| - 1] == plan[i];
        calls := calls + [Fill(plan[i].0, plan[i].1)];
        i := i + 1;
      }
      assert plan[..i] == plan;
      LegacyFillsStop(plan, keys);
      calls := calls + [Save];
      complete := true;
    }

    /** `process_records_from_file`: each record, counted as processed or failed. */
    method ProcessRecordsFromFile(recs: seq<EntryRecord>)
      requires attached
      modifies this`env, this`calls, this`processed, this`failed
      ensures Snapshot() == RecordsUpTo(Recorder(Legacy, world), old(Snapshot()), recs, |recs|)
    {
      for i := 0 to |recs|
        invariant Snapshot() == RecordsUpTo(Recorder(Legacy, world), old(Snapshot()), recs, i)
      {
        EnterRecord(recs, i, old(Snapshot()));
      }
    }

    /** One iteration of the loop of `process_records_from_file`: record `i` is entered and
        counted, extending the run over the first `i` records by one. */
    method EnterRecord(recs: seq<EntryRecord>, i: nat, ghost start: Bot)
      requires attached && i < |recs|
      requires Snapshot() == RecordsUpTo(Recorder(Legacy, world), start, recs, i)
      modifies this`env, this`calls, this`processed, this`failed
      ensures Snapshot() == RecordsUpTo(Recorder(Legacy, world), start, recs, i + 1)
    {
      ghost var before := Snapshot();
      ghost var r := LegacyRecord(before, recs[i]);
      assert Recorder(Legacy, world)(before, recs[i]) == r;
      var ok := ProcessSingleRecord(recs[i]);
      assert Snapshot() == r.0 && ok == r.1;
      if ok {
        processed := processed + 1;
      } else {
        failed := failed + 1;
      }
    }

    /** `process_single_excel_file`: true iff the file could be read and had a description
        column. */
    method ProcessSingleExcelFile(file: string) returns (ok: bool)
      requires attached
      modifies this`env, this`calls, this`store, this`processed, this`failed, this`results
      ensures Snapshot() == FileStep(Legacy, world, old(Snapshot()), file)
      ensures ok == Extract(world, file).Some?
    {
      var recs := Extract(world, file);
      if recs.None? {
        results := results + [Broken(file)];
        return false;
      }
      store := store[file := recs.value];
      calls := calls + [SetRecords(recs.value)];
      ProcessRecordsFromFile(recs.value);
      results := results + [Done(file, |recs.value|, failed)];
      ok := true;
    }

    /** `phase1_navigate_to_finance_module`. */
    method Phase1()
      requires attached
      modifies this`calls
      ensures calls == old(calls) + NavigationCalls()
    {
      calls := calls + [SelectTab(0)];
      var i := 0;
      while i < |Route|
        invariant 0 <= i <= |Route|
        invariant calls == old(calls) + [SelectTab(0)] + Sequencer.Selects(Route[..i])
      {
        assert Sequencer.Selects(Route[..i + 1]) == Sequencer.Selects(Route[..i]) + [SelectTab(Route[i])];
        calls := calls + [SelectTab(Route[i])];
        i := i + 1;
      }
      assert Route[..i] == Route;
      calls := calls + [SelectTab(FinanceTab), OpenModal, SelectTab(0)];
    }

    /** The step functions `execute_step1` to `execute_step6`. */
    method RunStep(k: nat)
      requires attached && 1 <= k <= 6
      modifies this`calls
      ensures calls == old(calls) + StepCalls(k)
    {
      if k <= 5 {
        calls := calls + [Step(k)];
      }
    }

    /** `phase2_execute_6_step_process`: the six steps in order, none of them able to stop
        the phase. */
    method Phase2()
      requires attached
      modifies this`calls
      ensures calls == old(calls) + StepsBefore(7)
    {
      var k := 1;
      while k <= 6
        invariant 1 <= k <= 7
        invariant calls == old(calls) + StepsBefore(k)
      {
        RunStep(k);
        k := k + 1;
      }
    }

    /** `phase3_process_multiple_excel_files`. */
    method Phase3()
      requires attached
      modifies this`env, this`calls, this`store, this`processed, this`failed, this`results
      ensures Snapshot() == Runs.Phase3(Legacy, world, old(Snapshot()), files)
    {
      var i := 0;
      while i < |files|
        invariant 0 <= i <= |files|
        invariant Snapshot() == FilesUpTo(Stepper(Legacy, world), old(Snapshot()), files, i)
      {
        var _ := ProcessSingleExcelFile(files[i]);
        i := i + 1;
      }
    }

    /** `phase4_finalization_and_reports`. */
    method Phase4()
      requires attached
      modifies this`calls, this`report
      ensures var r := Finalize(old(Snapshot()), files);
        calls == r.0.calls && report == Some(r.1)
    {
      calls := calls + [Step(6)];
      report := Some(Sequencer.Report(|files|, processed, failed, SuccessRate(processed, failed)));
    }

    /** `run_complete_automation_sequence`: the four phases, after which the bot is no
        longer running. */
    method RunCompleteAutomationSequence()
      requires attached
      modifies this`env, this`calls, this`store, this`processed, this`failed, this`results, this`report,
               this`running
      ensures var r := Sequence(world, old(Snapshot()), files);
        && Snapshot() == r.0 && report == Some(r.1) && !running
    {
      Phase1();
      Phase2();
      Phase3();
      Phase4();
      running := false;
    }

    /** `run`: false (no thread) without a GUI; otherwise the given files, if any, replace
        the list and the sequence runs to its end, returning true for the started worker. */
    method Run(given: seq<string>) returns (started: bool)
      modifies this
      ensures started == old(attached)
      ensures !old(attached) ==>
        Snapshot() == old(Snapshot()) && files == old(files) && report == old(report) && running == old(running)
      ensures old(attached) ==>
        var s := Sequence(world, old(Snapshot()), files);
        && files == (if given != [] then given else old(files))
        && Snapshot() == s.0 && report == Some(s.1) && !running
      ensures attached == old(attached) && speed == old(speed)
    {
      if !attached {
        return false;
      }
      if given != [] {
        SetProcessingFiles(given);
      }
      running := true;
      RunCompleteAutomationSequence();
      started := true;
    }

    /** `stop`. */
    method Stop()
      modifies this`running
      ensures !running
    {
      running := false;
    }
  }
}
