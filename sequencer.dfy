/** The newer `EnterpriseRPABot` (03-Karmasik/rpa/core_engine.py): four phases run in order —
    tab navigation along a random route, the six-step confirmation that stops at the first
    step answering false, the entry of every file's records, and a final report guarded by
    the results. */
module Sequencer {
  import opened Wrappers
  import opened Automation
  import opened Runs

  // ---------------------------------------------------------------- phase 1

  /** A route `random.sample` can return: four distinct tabs out of 1..5. */
  predicate RandomRoute(route: seq<int>) {
    && |route| == 4
    && (forall i :: 0 <= i < |route| ==> 1 <= route[i] <= 5)
    && (forall i, j :: 0 <= i < j < |route| ==> route[i] != route[j])
  }

  function Selects(route: seq<int>): (r: seq<GuiCall>)
    ensures |r| == |route| && forall i :: 0 <= i < |route| ==> r[i] == SelectTab(route[i])
  {
    seq(|route|, i requires 0 <= i < |route| => SelectTab(route[i]))
  }

  /** The tab selections of phase 1: the dashboard, the route, the dashboard again. */
  function NavigationCalls(route: seq<int>): seq<GuiCall> {
    [SelectTab(0)] + Selects(route) + [SelectTab(0)]
  }

  /** Phase 1 starts and ends on the dashboard and in between visits four different tabs,
      none of them the dashboard. */
  lemma NavigationTabs(route: seq<int>)
    requires RandomRoute(route)
    ensures var c := NavigationCalls(route);
      && |c| == 6 && c[0] == SelectTab(0) && c[5] == SelectTab(0)
      && (forall i :: 1 <= i <= 4 ==> c[i].SelectTab? && 1 <= c[i].index <= 5)
      && (forall i, j :: 1 <= i < j <= 4 ==> c[i] != c[j])
  {
    var c := NavigationCalls(route);
    assert forall i :: 1 <= i <= 4 ==> c[i] == SelectTab(route[i - 1]);
  }

  // ---------------------------------------------------------------- phase 2

  /** The records `prepare_preview_records` hands to the GUI: those of the first file, or
      none when there is no file or reading it fails. */
  function Preview(w: World, files: seq<string>): seq<EntryRecord> {
    if files == [] then [] else Extract(w, files[0]).GetOr([])
  }

  /** `execute_step<k>`: steps 1 and 2 go on iff the GUI answers true; step 3 first hands
      the preview to the GUI; steps 3 to 6 always go on. */
  function StepRun(w: World, b: Bot, files: seq<string>, k: nat): (r: (Bot, bool))
    requires 1 <= k <= 6
    ensures k > 2 ==> r.1
  {
    if k <= 2 then
      var c := b.calls + [Step(k)];
      (b.(calls := c), w.answer(c) == Some(true))
    else if k == 3 then (b.(calls := b.calls + [SetRecords(Preview(w, files)), Step(3)]), true)
    else (b.(calls := b.calls + [Step(k)]), true)
  }

  /** The steps of phase 2 from step `k` on, stopping after a step that answers false. */
  function StepsFrom(w: World, b: Bot, files: seq<string>, k: nat): Bot
    requires 1 <= k <= 7
    decreases 7 - k
  {
    if k == 7 then b
    else
      var r := StepRun(w, b, files, k);
      if !r.1 then r.0 else StepsFrom(w, r.0, files, k + 1)
  }

  /** Phase 2 makes no other change than its GUI calls: only step 1 when the GUI does not
      answer it with true, steps 1 and 2 when step 2 is not answered with true, and all six
      steps, with the preview handed over before step 3, otherwise. */
  lemma ConfirmStops(w: World, b: Bot, files: seq<string>)
    ensures var a1 := w.answer(b.calls + [Step(1)]);
      var a2 := w.answer(b.calls + [Step(1), Step(2)]);
      var r := StepsFrom(w, b, files, 1);
      && r == b.(calls := r.calls)
      && (a1 != Some(true) ==> r.calls == b.calls + [Step(1)])
      && (a1 == Some(true) && a2 != Some(true) ==> r.calls == b.calls + [Step(1), Step(2)])
      && (a1 == Some(true) && a2 == Some(true) ==>
            r.calls == b.calls + [Step(1), Step(2), SetRecords(Preview(w, files)), Step(3), Step(4), Step(5), Step(6)])
  {
    var c1 := b.calls + [Step(1)];
    var c2 := c1 + [Step(2)];
    assert c2 == b.calls + [Step(1), Step(2)];
    var c3 := c2 + [SetRecords(Preview(w, files)), Step(3)];
    assert c3 + [Step(4)] + [Step(5)] + [Step(6)] ==
           b.calls + [Step(1), Step(2), SetRecords(Preview(w, files)), Step(3), Step(4), Step(5), Step(6)];
  }

  // ---------------------------------------------------------------- phase 4

  /** What phase 4 logs as its result report. */
  datatype Report = Report(files: nat, records: nat, failed: nat, rate: real)

  /** Phase 4 runs only with files, results, and a result that counts a success. */
  predicate Reportable(files: seq<string>, results: seq<FileResult>) {
    files != [] && |results| > 0 && exists i :: 0 <= i < |results| && results[i].success > 0
  }

  /** Phase 4: step 6, the report and the completion dialog, then the modal is closed if
      the GUI still has a data-entry window. */
  function Finalize(w: World, b: Bot, files: seq<string>): (Bot, Option<Report>) {
    if !Reportable(files, b.results) then (b, None)
    else
      var rate := SuccessRate(b.processed, b.failed);
      var calls := b.calls + [Step(6), Completion(b.processed, |files|, rate)];
      var look := Look(b.env);
      (b.(env := look.1, calls := calls + (if look.0.window then [CloseModal] else [])),
       Some(Report(|files|, b.processed, b.failed, rate)))
  }

  /** A report is made exactly when the guard passes; it counts the files, both counters
      and a success rate between 0 and 100. */
  lemma FinalizeGuard(w: World, b: Bot, files: seq<string>)
    ensures var r := Finalize(w, b, files);
      && (r.1.Some? <==> Reportable(files, b.results))
      && (r.1.None? ==> r.0 == b)
      && (r.1.Some? ==>
            && r.1.value.files == |files| && r.1.value.records == b.processed && r.1.value.failed == b.failed
            && 0.0 <= r.1.value.rate <= 100.0
            && r.0.calls[..|b.calls| + 2] == b.calls + [Step(6), Completion(b.processed, |files|, r.1.value.rate)])
  {
    SuccessRateBounds(b.processed, b.failed);
    if Reportable(files, b.results) {
      var r := Finalize(w, b, files);
      var calls := b.calls + [Step(6), Completion(b.processed, |files|, r.1.value.rate)];
      assert r.0.calls[..|calls|] == calls;
    }
  }

  // ---------------------------------------------------------------- the sequence

  /** `run_complete_automation_sequence`: the four phases in order. */
  function Sequence(w: World, b: Bot, files: seq<string>, route: seq<int>): (Bot, Option<Report>) {
    var b1 := b.(calls := b.calls + NavigationCalls(route));
    var b2 := StepsFrom(w, b1, files, 1);
    Finalize(w, Runs.Phase3(Core, w, b2, files), files)
  }

  /** With the repository's GUIs, whose saves answer `None`, a run that starts without a
      successful result never reaches the report: every file's entry counts all failures so
      far. */
  lemma NoReportWhenSavesFail(w: World, b: Bot, files: seq<string>, route: seq<int>)
    requires SaveAnswersNone(w)
    requires forall i :: 0 <= i < |b.results| ==> b.results[i].success <= 0
    ensures Sequence(w, b, files, route).1.None?
  {
    var b1 := b.(calls := b.calls + NavigationCalls(route));
    ConfirmStops(w, b1, files);
    var b2 := StepsFrom(w, b1, files, 1);
    NoSuccessWhenSavesFail(w, b2, files);
    var b3 := Runs.Phase3(Core, w, b2, files);
    assert forall i :: 0 <= i < |b3.results| ==> b3.results[i].success <= 0 by {
      forall i | 0 <= i < |b3.results|
        ensures b3.results[i].success <= 0
      {
        if i < |b2.results| {
          assert b3.results[i] == b3.results[..|b2.results|][i];
        }
      }
    }
    FinalizeGuard(w, b3, files);
  }

  // ---------------------------------------------------------------- the bot

  class EnterpriseBot {
    /** The GUI, the spreadsheets and the date the bot works with. */
    const world: World
    /** Whether `set_gui_reference` was called. */
    var attached: bool
    var speed: string
    var files: seq<string>
    /** The observations of the clock and screen still to come. */
    var env: seq<Obs>
    /** The GUI calls made so far. */
    var calls: seq<GuiCall>
    var store: map<string, seq<EntryRecord>>
    var processed: nat
    var failed: nat
    var results: seq<FileResult>
    /** The last report phase 4 logged. */
    var report: Option<Report>
    var running: bool

    function Snapshot(): Bot
      reads this
    {
      Bot(env, calls, store, processed, failed, results)
    }

    constructor (world: World, env: seq<Obs>)
      ensures this.world == world && this.env == env
      ensures !attached && speed == "fast" && files == [] && calls == [] && store == map[]
      ensures processed == 0 && failed == 0 && results == [] && report == None && !running
    {
      this.world := world;
      this.env := env;
      attached, speed, files, calls, store := false, "fast", [], [], map[];
      processed, failed, results, report, running := 0, 0, [], None, false;
    }

    method SetGuiReference()
      modifies this`attached
      ensures attached
    {
      attached := true;
    }

    method SetProcessingFiles(paths: seq<string>)
      modifies this`files
      ensures files == paths
    {
      files := paths;
    }

    method SetProcessingSpeed(s: string)
      modifies this`speed
      ensures speed == s
    {
      speed := s;
    }

    /** `wait_for_modal_ready`: checks the screen until every check passes or the time is up. */
    method WaitForModalReady(timeout: real) returns (ready: bool)
      modifies this`env
      ensures var r := Wait(timeout, old(env)); ready == r.ready && env == old(env)[r.used..]
    {
      ghost var used: nat := 0;
      while env != [] && env[0].elapsed < timeout && !ModalReady(env[0].screen)
        invariant used <= |old(env)| && env == old(env)[used..]
        invariant Wait(timeout, old(env)) == Waited(Wait(timeout, env).ready, Wait(timeout, env).used + used)
        decreases |env|
      {
        env := env[1..];
        used := used + 1;
      }
      if env == [] {
        return false;
      }
      ready := env[0].elapsed < timeout;
      env := env[1..];
    }

    /** `find_modal_form`, one more look at the screen. */
    method FindModalForm() returns (keys: Option<set<string>>)
      modifies this`env
      ensures var l := Look(old(env)); keys == Automation.FindModalForm(l.0) && env == l.1
    {
      var l := Look(env);
      keys := Automation.FindModalForm(l.0);
      env := l.1;
    }

    /** `process_single_record`. */
    method ProcessSingleRecord(rec: EntryRecord) returns (ok: bool)
      requires attached
      modifies this`env, this`calls
      ensures (Snapshot(), ok) == CoreRecord(world, old(Snapshot()), rec)
    {
      var ready := WaitForModalReady(5.0);
      if !ready {
        return false;
      }
      var keys := FindModalForm();
      if keys.None? {
        return false;
      }
      var plan := FieldPlan(rec);
      ghost var calls0 := calls;
      var i := 0;
      while i < |plan|
        invariant 0 <= i <= |plan|
        invariant calls == calls0 + Fills(plan[..i], keys.value)
        invariant env == old(Look(env[Wait(5.0, env).used..]).1)
      {
        assert plan[..i + 1][..i] == plan[..i];
        if plan[i].0 in keys.value {
          calls := calls + [Fill(plan[i].0, plan[i].1)];
        }
        i := i + 1;
      }
      assert plan[..i] == plan;
      calls := calls + [Save];
      ok := world.answer(calls).Some?;
    }

    /** `process_records_from_file`: each record, counted as processed or failed. */
    method ProcessRecordsFromFile(recs: seq<EntryRecord>)
      requires attached
      modifies this`env, this`calls, this`processed, this`failed
      ensures Snapshot() == RecordsUpTo(Recorder(Core, world), old(Snapshot()), recs, |recs|)
    {
      for i := 0 to |recs|
        invariant Snapshot() == RecordsUpTo(Recorder(Core, world), old(Snapshot()), recs, i)
      {
        EnterRecord(recs, i, old(Snapshot()));
      }
    }

    /** One iteration of the loop of `process_records_from_file`: record `i` is entered and
        counted, extending the run over the first `i` records by one. */
    method EnterRecord(recs: seq<EntryRecord>, i: nat, ghost start: Bot)
      requires attached && i < |recs|
      requires Snapshot() == RecordsUpTo(Recorder(Core, world), start, recs, i)
      modifies this`env, this`calls, this`processed, this`failed
      ensures Snapshot() == RecordsUpTo(Recorder(Core, world), start, recs, i + 1)
    {
      ghost var before := Snapshot();
      ghost var r := CoreRecord(world, before, recs[i]);
      assert Recorder(Core, world)(before, recs[i]) == r;
      var ok := ProcessSingleRecord(recs[i]);
      assert Snapshot() == r.0 && ok == r.1;
      if ok {
        processed := processed + 1;
      } else {
        failed := failed + 1;
      }
    }

    /** `process_single_excel_file`: true iff the file could be read and had a description
        column. */
    method ProcessSingleExcelFile(file: string) returns (ok: bool)
      requires attached
      modifies this`env, this`calls, this`store, this`processed, this`failed, this`results
      ensures Snapshot() == FileStep(Core, world, old(Snapshot()), file)
      ensures ok == Extract(world, file).Some?
    {
      var recs := Extract(world, file);
      if recs.None? {
        results := results + [Broken(file)];
        return false;
      }
      store := store[file := recs.value];
      calls := calls + [SetRecords(recs.value)];
      ProcessRecordsFromFile(recs.value);
      results := results + [Done(file, |recs.value|, failed)];
      ok := true;
    }

    /** `phase1_navigate_to_finance_module`, `route` being what `random.sample` drew. */
    method Phase1(route: seq<int>)
      requires attached && RandomRoute(route)
      modifies this`calls
      ensures calls == old(calls) + NavigationCalls(route)
    {
      calls := calls + [SelectTab(0)];
      var i := 0;
      while i < |route|
        invariant 0 <= i <= |route|
        invariant calls == old(calls) + [SelectTab(0)] + Selects(route[..i])
      {
        assert Selects(route[..i + 1]) == Selects(route[..i]) + [SelectTab(route[i])];
        calls := calls + [SelectTab(route[i])];
        i := i + 1;
      }
      assert route[..i] == route;
      calls := calls + [SelectTab(0)];
    }

    /** The step functions `execute_step1` to `execute_step6`. */
    method RunStep(k: nat) returns (cont: bool)
      requires attached && 1 <= k <= 6
      modifies this`calls
      ensures (Snapshot(), cont) == StepRun(world, old(Snapshot()), files, k)
    {
      if k <= 2 {
        calls := calls + [Step(k)];
        cont := world.answer(calls) == Some(true);
      } else if k == 3 {
        calls := calls + [SetRecords(Preview(world, files)), Step(3)];
        cont := true;
      } else {
        calls := calls + [Step(k)];
        cont := true;
      }
    }

    /** `phase2_execute_6_step_process`: the six steps in order, stopping at the first that
        returns false. */
    method Phase2()
      requires attached
      modifies this`calls
      ensures Snapshot() == StepsFrom(world, old(Snapshot()), files, 1)
    {
      var k := 1;
      while k <= 6
        invariant 1 <= k <= 7
        invariant StepsFrom(world, old(Snapshot()), files, 1) == StepsFrom(world, Snapshot(), files, k)
      {
        var cont := RunStep(k);
        if !cont {
          return;
        }
        k := k + 1;
      }
    }

    /** `phase3_process_multiple_excel_files`. */
    method Phase3()
      requires attached
      modifies this`env, this`calls, this`store, this`processed, this`failed, this`results
      ensures Snapshot() == Runs.Phase3(Core, world, old(Snapshot()), files)
    {
      var i := 0;
      while i < |files|
        invariant 0 <= i <= |files|
        invariant Snapshot() == FilesUpTo(Stepper(Core, world), old(Snapshot()), files, i)
      {
        var _ := ProcessSingleExcelFile(files[i]);
        i := i + 1;
      }
    }

    /** `phase4_finalization_and_reports`. */
    method Phase4()
      requires attached
      modifies this`env, this`calls, this`report
      ensures var r := Finalize(world, old(Snapshot()), files);
        Snapshot() == r.0 && report == (if r.1.Some? then r.1 else old(report))
    {
      if !Reportable(files, results) {
        return;
      }
      var rate := SuccessRate(processed, failed);
      calls := calls + [Step(6), Completion(processed, |files|, rate)];
      report := Some(Report(|files|, processed, failed, rate));
      var l := Look(env);
      env := l.1;
      if l.0.window {
        calls := calls + [CloseModal];
      }
    }

    /** `run_complete_automation_sequence`: the four phases, after which the bot is no
        longer running. */
    method RunCompleteAutomationSequence(route: seq<int>)
      requires attached && RandomRoute(route)
      modifies this`env, this`calls, this`store, this`processed, this`failed, this`results, this`report,
               this`running
      ensures var r := Sequence(world, old(Snapshot()), files, route);
        && Snapshot() == r.0 && report == (if r.1.Some? then r.1 else old(report)) && !running
    {
      Phase1(route);
      Phase2();
      Phase3();
      Phase4();
      running := false;
    }

    /** `run`: nothing without a GUI; otherwise the given files, if any, replace the list,
        the sequence runs and its results are returned. */
    method Run(given: seq<string>, route: seq<int>) returns (r: Option<seq<FileResult>>)
      requires RandomRoute(route)
      modifies this
      ensures !old(attached) ==>
        r.None? && Snapshot() == old(Snapshot()) && files == old(files) && report == old(report) && running == old(running)
      ensures old(attached) ==>
        var s := Sequence(world, old(Snapshot()), files, route);
        && files == (if given != [] then given else old(files))
        && Snapshot() == s.0 && report == (if s.1.Some? then s.1 else old(report))
        && !running && r == Some(results)
      ensures attached == old(attached) && speed == old(speed)
    {
      if !attached {
        return None;
      }
      if given != [] {
        SetProcessingFiles(given);
      }
      running := true;
      RunCompleteAutomationSequence(route);
      r := Some(results);
    }

    /** `stop`. */
    method Stop()
      modifies this`running
      ensures !running
    {
      running := false;
    }
  }
}
