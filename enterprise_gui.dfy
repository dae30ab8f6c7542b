/** The data slice of `EnterpriseGUI` (03-Karmasik/advanced_gui.py): `main_data` and the table
    that mirrors it, the modal and its entries, the modal's progress bar, the dashboard's
    counts, the notebook's selected tab, and the values its step functions give the bot. */
module EnterpriseGui {
  import opened Wrappers
  import opened Text
  import opened Automation
  import opened EntryForm
  import Runs
  import Sequencer

  /** The finance tab `menu_selected` switches to. */
  const FinanceTab: int := 2

  /** How the user ends `_ask_yes_no_left`'s popup: the "Evet" button, the "Hayır" button,
      or closing the window from its frame. */
  datatype PopupClose = PressedEvet | PressedHayir | ClosedWindow

  /** What `step<k>` returns: every one of the six steps shows its dialogs and returns
      `None`; the answer step 2 asks for is dropped. A step that raises gives the bot `None`
      too, since `call_in_gui_thread` catches the exception. */
  function StepAnswer(k: nat): Option<bool>
    requires 1 <= k <= 6
  {
    None
  }

  /** With this GUI the newer bot's phase 2 ends after step 1: step 1 answers `None`, which
      the bot takes for a refusal, so steps 2 to 6 and the preview hand-over never happen. */
  lemma CoreStopsWithEnterprise(w: Runs.World, b: Runs.Bot, files: seq<string>)
    requires w.answer(b.calls + [Step(1)]) == StepAnswer(1)
    ensures Sequencer.StepsFrom(w, b, files, 1) == b.(calls := b.calls + [Step(1)])
  {
    Sequencer.ConfirmStops(w, b, files);
  }

  class EnterpriseGUI {
    var mainData: seq<Saved>
    /** The rows of `main_tree`. */
    var tree: seq<Saved>
    var currentRecords: seq<EntryRecord>
    /** Whether `data_entry_window` is set. */
    var modalOpen: bool
    /** The texts of `modal_entries`; `None` while there are no live entries: before the
        first modal was built, and once `close_modal` destroyed the modal with them, after
        which reading or clearing them raises. */
    var entries: Option<Form>
    /** The value of `modal_progress`. */
    var progress: real
    /** The selected notebook tab. */
    var tab: int
    /** The values of the dashboard's "Toplam İşlem" and "Bugünkü İşlem" cards. */
    var dashboardTotal: nat
    var dashboardToday: nat

    /** The table shows `main_data`, its ids run 1, 2, …, the dashboard's total is its
        length and the progress is a percentage. */
    predicate Valid()
      reads this
    {
      && Sequential(mainData) && tree == mainData && dashboardTotal == |mainData|
      && dashboardToday <= dashboardTotal && 0.0 <= progress <= 100.0
    }

    constructor ()
      ensures Valid()
      ensures mainData == [] && currentRecords == [] && !modalOpen && entries == None
      ensures progress == 0.0 && tab == 0 && dashboardToday == 0
    {
      mainData, tree, currentRecords := [], [], [];
      modalOpen, entries := false, None;
      progress, tab, dashboardTotal, dashboardToday := 0.0, 0, 0, 0;
    }

    method SetCurrentRecords(records: seq<EntryRecord>)
      modifies this`currentRecords
      ensures currentRecords == records
    {
      currentRecords := records;
    }

    /** `update_dashboard_stats`, `today` being the current date. */
    method UpdateDashboardStats(today: string)
      modifies this`dashboardTotal, this`dashboardToday
      ensures dashboardTotal == |mainData| && dashboardToday == TodayCount(mainData, today)
    {
      dashboardTotal := |mainData|;
      dashboardToday := TodayCount(mainData, today);
    }

    /** `clear_advanced_form`: every entry emptied (before any modal was built there are no
        entries and the call raises, changing nothing). */
    method ClearAdvancedForm()
      modifies this`entries
      ensures entries == if old(entries).Some? then Some(EmptyForm) else None
    {
      if entries.Some? {
        entries := Some(EmptyForm);
      }
    }

    /** `save_advanced_record`, `parse` standing for `float` and `today` for the current
        date. A refused save changes nothing; an accepted one appends the next row to
        `main_data` and the table, refreshes the dashboard, sets the progress and clears the
        form. It returns nothing in either case. */
    method SaveAdvancedRecord(parse: string -> Option<real>, today: string)
      requires Valid()
      modifies this`mainData, this`tree, this`dashboardTotal, this`dashboardToday, this`progress, this`entries
      ensures Valid()
      ensures var accepted := old(entries).Some? && Check(old(entries).value, parse).Accepted?;
        && (!accepted ==>
              mainData == old(mainData) && tree == old(tree) && progress == old(progress)
              && entries == old(entries) && dashboardToday == old(dashboardToday))
        && (accepted ==>
              && mainData == old(mainData) + [NextRow(old(mainData), Check(old(entries).value, parse))]
              && dashboardToday == TodayCount(mainData, today)
              && progress == Progress(|mainData|, |currentRecords|)
              && entries == Some(EmptyForm))
    {
      if entries.None? {
        return;
      }
      var outcome := Check(entries.value, parse);
      Store(outcome, today);
    }

    /** The part of `save_advanced_record` after the checks: nothing for a refused save; for
        an accepted one the append, the dashboard, the progress and the cleared form. */
    method Store(outcome: Outcome, today: string)
      requires Valid() && entries.Some?
      modifies this`mainData, this`tree, this`dashboardTotal, this`dashboardToday, this`progress, this`entries
      ensures Valid()
      ensures !outcome.Accepted? ==>
        mainData == old(mainData) && tree == old(tree) && progress == old(progress)
        && entries == old(entries) && dashboardToday == old(dashboardToday)
      ensures outcome.Accepted? ==>
        && mainData == old(mainData) + [NextRow(old(mainData), outcome)]
        && dashboardToday == TodayCount(mainData, today)
        && progress == Progress(|mainData|, |currentRecords|)
        && entries == Some(EmptyForm)
    {
      if !outcome.Accepted? {
        return;
      }
      var row := NextRow(mainData, outcome);
      NextRowSequential(mainData, outcome);
      mainData := mainData + [row];
      tree := tree + [row];
      UpdateDashboardStats(today);
      ProgressBounds(|mainData|, |currentRecords|);
      progress := Progress(|mainData|, |currentRecords|);
      ClearAdvancedForm();
    }

    /** `close_modal`: an open modal is destroyed, and its entries with it; with no modal
        open nothing changes. */
    method CloseModal()
      modifies this`modalOpen, this`entries
      ensures !modalOpen
      ensures entries == if old(modalOpen) then None else old(entries)
    {
      if modalOpen {
        modalOpen, entries := false, None;
      }
    }

    /** `fill_entry_field` on `modal_entries[key]`, the bot's way of typing into the modal:
        with live entries and one of the four keys, that entry's text is replaced by `text`;
        otherwise the call raises, and the raise is caught, so nothing changes. */
    method FillEntry(key: string, text: string)
      modifies this`entries
      ensures entries == if old(entries).Some? && key in FormKeys then SetEntry(old(entries).value, key, text) else old(entries)
    {
      if entries.Some? && key in FormKeys {
        entries := SetEntry(entries.value, key, text);
      }
    }

    /** `open_advanced_data_entry`: any previous modal is replaced by a new one with four
        empty entries; it answers whether `modal_entries` is non-empty, which it always is
        once the content was built. */
    method OpenAdvancedDataEntry() returns (ok: bool)
      modifies this`modalOpen, this`entries
      ensures modalOpen && entries == Some(EmptyForm) && ok
    {
      modalOpen := true;
      entries := Some(EmptyForm);
      ok := true;
    }

    /** `_show_info_left`: the popup is placed left of the modal, whose position it asks
        `data_entry_window` for; with no modal open that raises `AttributeError` before the
        popup waits. The result says whether it went through. */
    method ShowInfoLeft() returns (ok: bool)
      ensures ok <==> modalOpen
    {
      ok := modalOpen;
    }

    /** `_ask_yes_no_left`: `None` for the `AttributeError` raised, as in `_show_info_left`,
        when no modal is open; otherwise the answer, which starts out false and is set only
        by the "Evet" button before the popup is destroyed; `wait_window` returns once the
        popup is gone, however it was closed. */
    method AskYesNoLeft(closing: PopupClose) returns (r: Option<bool>)
      ensures r.None? <==> !modalOpen
      ensures r.Some? ==> (r.value <==> closing == PressedEvet)
      ensures r.Some? ==> (!r.value <==> closing == PressedHayir || closing == ClosedWindow)
    {
      if !modalOpen {
        return None;
      }
      var yes := false;
      match closing {
        case PressedEvet => yes := true;
        case PressedHayir =>
        case ClosedWindow =>
      }
      r := Some(yes);
    }

    /** `step1_select_source`: an information box, then nothing; `raised` says the box
        raised for want of a modal (the bot receives `None` either way). */
    method Step1SelectSource() returns (r: Option<bool>, raised: bool)
      ensures r == StepAnswer(1)
      ensures raised <==> !modalOpen
    {
      var ok := ShowInfoLeft();
      r, raised := None, !ok;
    }

    /** `step2_filter_records`: the user's answer to its yes/no question only decides the
        status text; nothing is returned, and the question raises with no modal open. */
    method Step2FilterRecords(closing: PopupClose) returns (r: Option<bool>, raised: bool)
      ensures r == StepAnswer(2)
      ensures raised <==> !modalOpen
    {
      var answer := AskYesNoLeft(closing);
      r, raised := None, answer.None?;
    }

    /** `step3_preview_data`: an information box, then nothing; it raises with no modal
        open. */
    method Step3PreviewData() returns (r: Option<bool>, raised: bool)
      ensures r == StepAnswer(3)
      ensures raised <==> !modalOpen
    {
      var ok := ShowInfoLeft();
      r, raised := None, !ok;
    }

    /** `step4_set_parameters`: the parameters typed in only decide the status text. */
    method Step4SetParameters(params: string) returns (r: Option<bool>)
      ensures r == StepAnswer(4)
    {
      r := None;
    }

    /** `step5_start_data_entry`: the modal is opened at once, without asking, and the
        result of opening it is dropped. */
    method Step5StartDataEntry() returns (r: Option<bool>)
      modifies this`modalOpen, this`entries
      ensures r == StepAnswer(5)
      ensures modalOpen && entries == Some(EmptyForm)
    {
      var _ := OpenAdvancedDataEntry();
      r := None;
    }

    /** `step6_batch_confirm`: an information box, then nothing; it raises with no modal
        open. */
    method Step6BatchConfirm() returns (r: Option<bool>, raised: bool)
      ensures r == StepAnswer(6)
      ensures raised <==> !modalOpen
    {
      var ok := ShowInfoLeft();
      r, raised := None, !ok;
    }

    /** `menu_selected`: the finance tab is selected iff the module's name contains
        "Finans" and the submenu's contains "Tahsilat". */
    method MenuSelected(moduleName: string, subMenu: string)
      modifies this`tab
      ensures tab == if Contains(moduleName, "Finans") && Contains(subMenu, "Tahsilat") then FinanceTab else old(tab)
    {
      if Contains(moduleName, "Finans") && Contains(subMenu, "Tahsilat") {
        tab := FinanceTab;
      }
    }
  }
}
