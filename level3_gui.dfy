/** The data slice of `Level3EnterpriseGUI` (03-Karmasik/gui/base_gui.py): `main_data` and the
    table that mirrors it, the modal and its entries, the progress bar, the dashboard's
    counts, the notebook's selected tab, and the values its step functions give the bot. */
module Level3Gui {
  import opened Wrappers
  import opened Text
  import opened Automation
  import opened EntryForm
  import Runs
  import Sequencer

  /** The finance tab `menu_selected` switches to. */
  const FinanceTab: int := 2

  /** What `step<k>` returns: the yes/no answer for steps 1, 2 and 4, true for step 3,
      whether the modal opened for step 5, and `None` for step 6. */
  function StepAnswer(k: nat, yes: bool, ready: bool): Option<bool>
    requires 1 <= k <= 6
  {
    if k == 1 || k == 2 || k == 4 then Some(yes)
    else if k == 3 then Some(true)
    else if k == 5 then Some(ready)
    else None
  }

  /** With this GUI the newer bot's phase 2 runs all six steps exactly when the user answers
      yes to steps 1 and 2; a no to step 1 ends it after step 1, a no to step 2 after
      step 2. */
  lemma CoreConfirmsWithLevel3(w: Runs.World, b: Runs.Bot, files: seq<string>, yes1: bool, yes2: bool)
    requires w.answer(b.calls + [Step(1)]) == StepAnswer(1, yes1, false)
    requires w.answer(b.calls + [Step(1), Step(2)]) == StepAnswer(2, yes2, false)
    ensures var r := Sequencer.StepsFrom(w, b, files, 1);
      && (!yes1 ==> r.calls == b.calls + [Step(1)])
      && (yes1 && !yes2 ==> r.calls == b.calls + [Step(1), Step(2)])
      && (|r.calls| == |b.calls| + 7 <==> yes1 && yes2)
  {
    Sequencer.ConfirmStops(w, b, files);
  }

  class Level3EnterpriseGUI {
    var mainData: seq<Saved>
    /** The rows of `main_tree`. */
    var tree: seq<Saved>
    var currentRecords: seq<EntryRecord>
    /** Whether `data_entry_window` is set. */
    var modalOpen: bool
    /** The texts of `modal_entries`; `None` while there are no live entries: before the
        first modal was built, and once `close_modal` destroyed the modal with them, after
        which reading or clearing them raises. */
    var entries: Option<Form>
    var progress: real
    /** The selected notebook tab. */
    var tab: int
    /** The values of the dashboard's "Toplam İşlem" and "Bugünkü İşlem" cards. */
    var dashboardTotal: nat
    var dashboardToday: nat

    /** The table shows `main_data`, its ids run 1, 2, …, the dashboard's total is its
        length and the progress is a percentage. */
    predicate Valid()
      reads this
    {
      && Sequential(mainData) && tree == mainData && dashboardTotal == |mainData|
      && dashboardToday <= dashboardTotal && 0.0 <= progress <= 100.0
    }

    constructor ()
      ensures Valid()
      ensures mainData == [] && currentRecords == [] && !modalOpen && entries == None
      ensures progress == 0.0 && tab == 0 && dashboardToday == 0
    {
      mainData, tree, currentRecords := [], [], [];
      modalOpen, entries := false, None;
      progress, tab, dashboardTotal, dashboardToday := 0.0, 0, 0, 0;
    }

    method SetCurrentRecords(records: seq<EntryRecord>)
      modifies this`currentRecords
      ensures currentRecords == records
    {
      currentRecords := records;
    }

    /** `update_3d_dashboard_stats`, `today` being the current date. */
    method UpdateDashboardStats(today: string)
      modifies this`dashboardTotal, this`dashboardToday
      ensures dashboardTotal == |mainData| && dashboardToday == TodayCount(mainData, today)
    {
      dashboardTotal := |mainData|;
      dashboardToday := TodayCount(mainData, today);
    }

    /** `clear_advanced_form`: every entry emptied (before any modal was built there are no
        entries and the call raises, changing nothing). */
    method ClearAdvancedForm()
      modifies this`entries
      ensures entries == if old(entries).Some? then Some(EmptyForm) else None
    {
      if entries.Some? {
        entries := Some(EmptyForm);
      }
    }

    /** `save_advanced_record`, `parse` standing for `float` and `today` for the current
        date. A refused save changes nothing; an accepted one appends the next row to
        `main_data` and the table, refreshes the dashboard, sets the progress and clears the
        form. It returns nothing in either case. */
    method SaveAdvancedRecord(parse: string -> Option<real>, today: string)
      requires Valid()
      modifies this`mainData, this`tree, this`dashboardTotal, this`dashboardToday, this`progress, this`entries
      ensures Valid()
      ensures var accepted := old(entries).Some? && Check(old(entries).value, parse).Accepted?;
        && (!accepted ==>
              mainData == old(mainData) && tree == old(tree) && progress == old(progress)
              && entries == old(entries) && dashboardToday == old(dashboardToday))
        && (accepted ==>
              && mainData == old(mainData) + [NextRow(old(mainData), Check(old(entries).value, parse))]
              && dashboardToday == TodayCount(mainData, today)
              && progress == Progress(|mainData|, |currentRecords|)
              && entries == Some(EmptyForm))
    {
      if entries.None? {
        return;
      }
      var outcome := Check(entries.value, parse);
      Store(outcome, today);
    }

    /** The part of `save_advanced_record` after the checks: nothing for a refused save; for
        an accepted one the append, the dashboard, the progress and the cleared form. */
    method Store(outcome: Outcome, today: string)
      requires Valid() && entries.Some?
      modifies this`mainData, this`tree, this`dashboardTotal, this`dashboardToday, this`progress, this`entries
      ensures Valid()
      ensures !outcome.Accepted? ==>
        mainData == old(mainData) && tree == old(tree) && progress == old(progress)
        && entries == old(entries) && dashboardToday == old(dashboardToday)
      ensures outcome.Accepted? ==>
        && mainData == old(mainData) + [NextRow(old(mainData), outcome)]
        && dashboardToday == TodayCount(mainData, today)
        && progress == Progress(|mainData|, |currentRecords|)
        && entries == Some(EmptyForm)
    {
      if !outcome.Accepted? {
        return;
      }
      var row := NextRow(mainData, outcome);
      NextRowSequential(mainData, outcome);
      mainData := mainData + [row];
      tree := tree + [row];
      UpdateDashboardStats(today);
      ProgressBounds(|mainData|, |currentRecords|);
      progress := Progress(|mainData|, |currentRecords|);
      ClearAdvancedForm();
    }

    /** `close_modal`: an open modal fades out and is destroyed, and its entries with it;
        with no modal open nothing changes. */
    method CloseModal()
      modifies this`modalOpen, this`entries
      ensures !modalOpen
      ensures entries == if old(modalOpen) then None else old(entries)
    {
      if modalOpen {
        modalOpen, entries := false, None;
      }
    }

    /** `fill_entry_field` on `modal_entries[key]`, the bot's way of typing into the modal:
        with live entries and one of the four keys, that entry's text is replaced by `text`;
        otherwise the call raises, and the raise is caught, so nothing changes. */
    method FillEntry(key: string, text: string)
      modifies this`entries
      ensures entries == if old(entries).Some? && key in FormKeys then SetEntry(old(entries).value, key, text) else old(entries)
    {
      if entries.Some? && key in FormKeys {
        entries := SetEntry(entries.value, key, text);
      }
    }

    /** `open_advanced_data_entry`: any previous modal is replaced by a new one with four
        empty entries; the result is true iff probing every entry with `winfo_exists`
        raised no `TclError` (`probesOk`). */
    method OpenAdvancedDataEntry(probesOk: bool) returns (ok: bool)
      modifies this`modalOpen, this`entries
      ensures modalOpen && entries == Some(EmptyForm) && ok == probesOk
    {
      modalOpen := true;
      entries := Some(EmptyForm);
      ok := probesOk;
    }

    /** `step1_select_source`: the answer to its yes/no question. */
    method Step1SelectSource(yes: bool) returns (r: Option<bool>)
      ensures r == StepAnswer(1, yes, false)
    {
      r := Some(yes);
    }

    /** `step2_filter_records`: the answer to its yes/no question. */
    method Step2FilterRecords(yes: bool) returns (r: Option<bool>)
      ensures r == StepAnswer(2, yes, false)
    {
      r := Some(yes);
    }

    /** `step3_preview_data`: an information box, then true. */
    method Step3PreviewData() returns (r: Option<bool>)
      ensures r == StepAnswer(3, false, false)
    {
      r := Some(true);
    }

    /** `step4_set_parameters`: the answer to its yes/no question. */
    method Step4SetParameters(yes: bool) returns (r: Option<bool>)
      ensures r == StepAnswer(4, yes, false)
    {
      r := Some(yes);
    }

    /** `step5_start_data_entry`: the modal is opened and the result of opening it is
        returned; when it opened, the user is asked to go on, and a no closes it again. */
    method Step5StartDataEntry(probesOk: bool, proceed: bool) returns (r: Option<bool>)
      modifies this`modalOpen, this`entries
      ensures r == StepAnswer(5, false, probesOk)
      ensures modalOpen == (!probesOk || proceed)
      ensures entries == if modalOpen then Some(EmptyForm) else None
    {
      var ok := OpenAdvancedDataEntry(probesOk);
      if ok && !proceed && modalOpen {
        CloseModal();
      }
      r := Some(ok);
    }

    /** `step6_batch_confirm`: prints, and returns `None`. */
    method Step6BatchConfirm() returns (r: Option<bool>)
      ensures r == StepAnswer(6, false, false)
    {
      r := None;
    }

    /** `menu_selected`: the finance tab is selected iff the module's name contains
        "Finans" and the submenu's contains "Tahsilat". */
    method MenuSelected(moduleName: string, subMenu: string)
      modifies this`tab
      ensures tab == if Contains(moduleName, "Finans") && Contains(subMenu, "Tahsilat") then FinanceTab else old(tab)
    {
      if Contains(moduleName, "Finans") && Contains(subMenu, "Tahsilat") {
        tab := FinanceTab;
      }
    }
  }
}
