/** What the two `EnterpriseRPABot` variants (03-Karmasik/rpa/core_engine.py and the older
    03-Karmasik/rpa_bot.py) have in common: the pause each log line takes, the records a
    statement yields, what the bot can see of the GUI, the form it fills, the per-file result
    entries, the success rate, and the geometry of its simulated mouse cursor. */
module Automation {
  import opened Wrappers
  import opened Text
  import opened Tables
  import opened Patterns
  import RecordFilter

  // ---------------------------------------------------------------- log_step

  /** The factor every pause is multiplied by. */
  const DelayFactor: real := 0.5

  /** The speed table of `log_step`; an unknown speed counts as normal. */
  function SpeedMultiplier(speed: string): real {
    if speed == "slow" then 2.0 else if speed == "normal" then 1.0 else if speed == "fast" then 0.3 else 1.0
  }

  /** The pause `log_step` takes for a requested delay. */
  function EffectiveDelay(delay: real, speed: string): real {
    delay * SpeedMultiplier(speed) * DelayFactor
  }

  /** Faster settings never pause longer; every pause is at most the requested delay; normal
      speed halves it, fast speed takes 15% of it, and an unknown speed behaves like normal. */
  lemma DelayScaling(delay: real, speed: string)
    requires delay >= 0.0
    ensures EffectiveDelay(delay, "fast") <= EffectiveDelay(delay, "normal") <= EffectiveDelay(delay, "slow")
    ensures 0.0 <= EffectiveDelay(delay, speed) <= delay
    ensures EffectiveDelay(delay, "normal") == delay / 2.0
    ensures EffectiveDelay(delay, "fast") == delay * 0.15
    ensures speed != "slow" && speed != "normal" && speed != "fast" ==>
              EffectiveDelay(delay, speed) == EffectiveDelay(delay, "normal")
  {
  }

  // ---------------------------------------------------------------- records

  /** One record to enter: the four values `process_single_excel_file` builds per kept row. */
  datatype EntryRecord = EntryRecord(tarih: string, aciklama: string, tutar: string, dosya: string)

  /** The record for one kept row: the first column as the date (the current date `today`
      if the sheet has no column), the description unless it is NaN, the fourth column as the
      amount (`"0"` if there is none), and the file name. */
  function ToRecord(row: Row, cols: seq<string>, desc: string, today: string, file: string): EntryRecord {
    EntryRecord(
      if |cols| > 0 then Show(CellAt(row, cols[0])) else today,
      if CellAt(row, desc).Blank? then "" else Show(CellAt(row, desc)),
      if |cols| > 3 then Show(CellAt(row, cols[3])) else "0",
      file)
  }

  /** The records of a loaded sheet: the POSH rows of the description column (the first
      column named `açıklama`, else the third), in row order; `None` for the `IndexError` of a
      sheet that has neither. */
  function FileRecords(t: Table, file: string, today: string): Option<seq<EntryRecord>> {
    match RecordFilter.DescriptionColumn(t.columns)
    case None => None
    case Some(d) =>
      var kept := RecordFilter.PoshRows(t.rows, d);
      Some(seq(|kept|, i requires 0 <= i < |kept| => ToRecord(kept[i], t.columns, d, today, file)))
  }

  /** The text `"nan"` an empty cell shows as is not a POSH description. */
  lemma NanIsNotPosh()
    ensures !PoshMatch("nan")
  {
    assert ChopNewline("nan") == "nan";
  }

  /** A sheet yields records unless it has no description column even by position; then there
      is one record per POSH row, each with a POSH description and the file's name. */
  lemma FileRecordsKeep(t: Table, file: string, today: string)
    ensures FileRecords(t, file, today).None? <==> RecordFilter.DescriptionColumn(t.columns).None?
    ensures FileRecords(t, file, today).Some? ==>
      var d := RecordFilter.DescriptionColumn(t.columns).value;
      var recs := FileRecords(t, file, today).value;
      && |recs| == |RecordFilter.PoshRows(t.rows, d)|
      && forall i :: 0 <= i < |recs| ==> PoshMatch(recs[i].aciklama) && recs[i].dosya == file
  {
    if RecordFilter.DescriptionColumn(t.columns).Some? {
      var d := RecordFilter.DescriptionColumn(t.columns).value;
      var kept := RecordFilter.PoshRows(t.rows, d);
      var recs := FileRecords(t, file, today).value;
      forall i | 0 <= i < |recs|
        ensures PoshMatch(recs[i].aciklama)
      {
        assert recs[i] == ToRecord(kept[i], t.columns, d, today, file);
        RecordFilter.PoshRowsKeep(t.rows, d, kept[i]);
        PoshRowRecord(kept[i], t.columns, d, today, file);
      }
    }
  }

  /** The record of a POSH row carries the row's description text. */
  lemma PoshRowRecord(row: Row, cols: seq<string>, d: string, today: string, file: string)
    requires RecordFilter.IsPoshRow(d, row)
    ensures PoshMatch(ToRecord(row, cols, d, today, file).aciklama)
  {
    if CellAt(row, d).Blank? {
      NanIsNotPosh();
      assert false;
    }
  }

  // ---------------------------------------------------------------- screen

  /** What the bot sees of the GUI at one moment: whether `data_entry_window` is set, whether
      asking it `winfo_exists()` goes through without `TclError`, and the `modal_entries` by
      key, each with whether its own `winfo_exists()` goes through. A missing attribute is
      seen as an unset window or no entries. */
  datatype Screen = Screen(window: bool, windowAlive: bool, entries: map<string, bool>)

  /** The screen once nothing is open. */
  const NoScreen: Screen := Screen(false, false, map[])

  /** The checks one attempt of `wait_for_modal_ready` makes. */
  predicate ModalReady(s: Screen) {
    s.window && s.windowAlive && s.entries.Keys != {} && forall k :: k in s.entries ==> s.entries[k]
  }

  /** `find_modal_form`: the keys of `modal_entries` after the same checks, made one after
      the other. */
  function FindModalForm(s: Screen): (r: Option<set<string>>)
    ensures r.Some? <==> ModalReady(s)
    ensures r.Some? ==> r.value == s.entries.Keys
  {
    if !s.window then None
    else if !s.windowAlive then None
    else if s.entries.Keys == {} then None
    else if exists k :: k in s.entries && !s.entries[k] then None
    else Some(s.entries.Keys)
  }

  /** One attempt of a polling loop: the time elapsed since the wait began when the loop
      condition is checked, and the screen the checks then see. Running out of observations
      means every deadline has passed. */
  datatype Obs = Obs(elapsed: real, screen: Screen)

  /** The outcome of `wait_for_modal_ready`: what it returned and how many observations it
      used up. */
  datatype Waited = Waited(ready: bool, used: nat)

  function Wait(timeout: real, obs: seq<Obs>): (r: Waited)
    ensures r.used <= |obs|
  {
    if obs == [] then Waited(false, 0)
    else if obs[0].elapsed >= timeout then Waited(false, 1)
    else if ModalReady(obs[0].screen) then Waited(true, 1)
    else var w := Wait(timeout, obs[1..]); Waited(w.ready, w.used + 1)
  }

  /** The wait returns true exactly at the first attempt, before the timeout, at which every
      check passes; it returns false when the timeout passes first. */
  lemma {:induction false} WaitFirstReady(timeout: real, obs: seq<Obs>)
    ensures var w := Wait(timeout, obs);
      && (forall j :: 0 <= j < w.used && (w.ready || j < w.used - 1) ==> obs[j].elapsed < timeout)
      && (w.ready ==> w.used >= 1 && ModalReady(obs[w.used - 1].screen))
      && (forall j :: 0 <= j < w.used - 1 ==> !ModalReady(obs[j].screen))
      && (!w.ready ==> w.used == |obs| || obs[w.used - 1].elapsed >= timeout)
    decreases |obs|
  {
    if obs != [] && obs[0].elapsed < timeout && !ModalReady(obs[0].screen) {
      WaitFirstReady(timeout, obs[1..]);
    }
  }

  // ---------------------------------------------------------------- the form

  const DateKey: string := "date_entry"
  const DescKey: string := "desc_entry"
  const AmountKey: string := "amount_entry"
  const FileKey: string := "file_entry"

  /** The keys of the four entries both GUIs build in their data-entry modal. */
  const FormKeys: set<string> := {DateKey, DescKey, AmountKey, FileKey}

  const DescriptionLimit: nat := 80
  const Ellipsis: string := "..."

  /** The description as it is typed: cut to its first 80 characters followed by `...` when
      it is longer than that. */
  function ShortDescription(s: string): (r: string)
    ensures |r| <= DescriptionLimit + |Ellipsis|
    ensures |s| <= DescriptionLimit ==> r == s
    ensures |s| > DescriptionLimit ==>
              |r| == DescriptionLimit + |Ellipsis| && StartsWith(r, s[..DescriptionLimit]) && EndsWith(r, Ellipsis)
  {
    if |s| > DescriptionLimit then s[..DescriptionLimit] + Ellipsis else s
  }

  /** The GUI calls the bots make whose order or answer matters. Status-bar updates, window
      focus, highlighting and cursor moves are not recorded. */
  datatype GuiCall =
    | SelectTab(index: int)                 // notebook.select
    | OpenModal                             // open_advanced_data_entry
    | Step(n: nat)                          // stepN_... of the GUI
    | SetRecords(records: seq<EntryRecord>) // set_current_records
    | Fill(key: string, value: string)      // fill_entry_field on an entry
    | Save                                  // save_advanced_record
    | CloseModal                            // close_modal
    | Completion(total: nat, fileCount: nat, rate: real) // the final dialog

  /** The fields to fill for a record, in order: date, shortened description, amount, file. */
  function FieldPlan(rec: EntryRecord): seq<(string, string)> {
    [(DateKey, rec.tarih), (DescKey, ShortDescription(rec.aciklama)), (AmountKey, rec.tutar), (FileKey, rec.dosya)]
  }

  /** The fills of `process_single_record` in core_engine.py: the planned fields in order, a
      field whose key is not among the entries being skipped. */
  function Fills(plan: seq<(string, string)>, keys: set<string>): (r: seq<GuiCall>)
    ensures |r| <= |plan|
  {
    if plan == [] then []
    else
      var last := plan[|plan| - 1];
      Fills(plan[..|plan| - 1], keys) + (if last.0 in keys then [Fill(last.0, last.1)] else [])
  }

  /** A fill happens exactly for a planned field whose key is present. */
  lemma {:induction false} FillsKeep(plan: seq<(string, string)>, keys: set<string>, c: GuiCall)
    ensures c in Fills(plan, keys) <==> c.Fill? && c.key in keys && (c.key, c.value) in plan
  {
    if plan != [] {
      var init := plan[..|plan| - 1];
      FillsKeep(init, keys, c);
      assert plan == init + [plan[|plan| - 1]];
    }
  }

  /** With every key present every field is filled, in plan order. */
  lemma {:induction false} FillsAll(plan: seq<(string, string)>, keys: set<string>)
    requires forall i :: 0 <= i < |plan| ==> plan[i].0 in keys
    ensures Fills(plan, keys) == seq(|plan|, i requires 0 <= i < |plan| => Fill(plan[i].0, plan[i].1))
  {
    if plan != [] {
      FillsAll(plan[..|plan| - 1], keys);
    }
  }

  /** On the form both GUIs build, a record's four fields are filled in order: date,
      description cut to 80 characters, amount, file. */
  lemma FormFilledInOrder(rec: EntryRecord)
    ensures Fills(FieldPlan(rec), FormKeys) ==
      [Fill(DateKey, rec.tarih), Fill(DescKey, ShortDescription(rec.aciklama)),
       Fill(AmountKey, rec.tutar), Fill(FileKey, rec.dosya)]
  {
    FillsAll(FieldPlan(rec), FormKeys);
  }

  /** The fills of `process_single_record` in the older rpa_bot.py: fields in order until
      one whose key is missing, whose `KeyError` ends the record; the flag says whether every
      field was filled. */
  function LegacyFills(plan: seq<(string, string)>, keys: set<string>): (r: (seq<GuiCall>, bool))
    ensures |r.0| <= |plan|
  {
    if plan == [] then ([], true)
    else if plan[0].0 !in keys then ([], false)
    else var p := LegacyFills(plan[1..], keys); ([Fill(plan[0].0, plan[0].1)] + p.0, p.1)
  }

  /** Every planned field filled, in order. */
  function Typed(plan: seq<(string, string)>): (r: seq<GuiCall>)
    ensures |r| == |plan| && forall i :: 0 <= i < |plan| ==> r[i] == Fill(plan[i].0, plan[i].1)
  {
    seq(|plan|, i requires 0 <= i < |plan| => Fill(plan[i].0, plan[i].1))
  }

  lemma TypedCons(plan: seq<(string, string)>)
    requires plan != []
    ensures Typed(plan) == [Fill(plan[0].0, plan[0].1)] + Typed(plan[1..])
  {
    assert Typed(plan)[1..] == Typed(plan[1..]);
  }

  lemma {:induction false} LegacyFillsTyped(plan: seq<(string, string)>, keys: set<string>)
    ensures var r := LegacyFills(plan, keys);
      && (r.1 <==> forall i :: 0 <= i < |plan| ==> plan[i].0 in keys)
      && (r.1 ==> r.0 == Typed(plan))
      && (!r.1 ==> exists n :: 0 <= n < |plan| && plan[n].0 !in keys
                     && (forall j :: 0 <= j < n ==> plan[j].0 in keys) && r.0 == Typed(plan[..n]))
  {
    if plan == [] {
    } else if plan[0].0 !in keys {
      assert Typed(plan[..0]) == [];
    } else {
      var tail := plan[1..];
      LegacyFillsTyped(tail, keys);
      var p := LegacyFills(tail, keys);
      assert LegacyFills(plan, keys) == ([Fill(plan[0].0, plan[0].1)] + p.0, p.1);
      if p.1 {
        TypedCons(plan);
        assert forall i :: 1 <= i < |plan| ==> plan[i] == tail[i - 1];
      } else {
        var n :| 0 <= n < |tail| && tail[n].0 !in keys
                 && (forall j :: 0 <= j < n ==> tail[j].0 in keys) && p.0 == Typed(tail[..n]);
        TypedCons(plan[..n + 1]);
        assert plan[..n + 1][1..] == tail[..n];
        assert plan[n + 1] == tail[n];
        assert forall j :: 1 <= j < n + 1 ==> plan[j] == tail[j - 1];
      }
    }
  }

  /** The older fill completes exactly when every key is present, and then fills what the
      newer one fills; otherwise it fills, in order, the fields before the first missing key. */
  lemma LegacyFillsStop(plan: seq<(string, string)>, keys: set<string>)
    ensures var r := LegacyFills(plan, keys);
      && (r.1 <==> forall i :: 0 <= i < |plan| ==> plan[i].0 in keys)
      && (r.1 ==> r.0 == Fills(plan, keys))
      && (!r.1 ==> exists n :: 0 <= n < |plan| && plan[n].0 !in keys
                     && (forall j :: 0 <= j < n ==> plan[j].0 in keys) && r.0 == Fills(plan[..n], keys))
  {
    LegacyFillsTyped(plan, keys);
    var r := LegacyFills(plan, keys);
    if r.1 {
      FillsAll(plan, keys);
    } else {
      var n :| 0 <= n < |plan| && plan[n].0 !in keys
               && (forall j :: 0 <= j < n ==> plan[j].0 in keys) && r.0 == Typed(plan[..n]);
      FillsAll(plan[..n], keys);
    }
  }

  // ---------------------------------------------------------------- results

  /** One entry of `results`: the file, its record count, its success count and its errors. */
  datatype FileResult = FileResult(file: string, records: nat, success: int, errors: nat)

  /** The entry of a processed file; `failedSoFar` is the run-wide failure count, so the
      success count can fall below zero from the second file on. */
  function Done(file: string, records: nat, failedSoFar: nat): (r: FileResult)
    ensures r.success + r.errors == r.records && r.errors == failedSoFar
  {
    FileResult(file, records, records - failedSoFar, failedSoFar)
  }

  /** The entry of a file whose processing raised. */
  function Broken(file: string): FileResult {
    FileResult(file, 0, 0, 1)
  }

  /** `processed / (processed + failed) * 100`, or 0 when nothing was attempted. */
  function SuccessRate(processed: nat, failed: nat): real {
    if processed + failed > 0 then processed as real / (processed + failed) as real * 100.0 else 0.0
  }

  /** The rate is a percentage; it is 100 exactly when something succeeded and nothing
      failed, and 0 exactly when nothing succeeded. */
  lemma SuccessRateBounds(processed: nat, failed: nat)
    ensures 0.0 <= SuccessRate(processed, failed) <= 100.0
    ensures SuccessRate(processed, failed) == 100.0 <==> processed > 0 && failed == 0
    ensures SuccessRate(processed, failed) == 0.0 <==> processed == 0
  {
    if processed + failed > 0 {
      var p, t := processed as real, (processed + failed) as real;
      assert p / t <= 1.0;
      assert p / t == 1.0 <==> p == t;
      assert p / t == 0.0 <==> p == 0.0;
    }
  }

  // ---------------------------------------------------------------- cursor

  /** A widget's rectangle on the screen: root position, width and height. */
  datatype Box = Box(x: int, y: int, w: int, h: int)

  /** `max(0, min(v, hi))`. */
  function Clamp(v: int, hi: int): int {
    if v > hi then (if hi > 0 then hi else 0) else if v > 0 then v else 0
  }

  /** Where `move_mouse_to_widget` moves the cursor: the widget's centre (integer halving),
      refused when it lies outside the `width` by `height` screen, moved by the jitter
      `(dx, dy)` and pulled back onto the screen. */
  function CursorTarget(b: Box, width: int, height: int, dx: int, dy: int): Option<(int, int)> {
    var cx, cy := b.x + b.w / 2, b.y + b.h / 2;
    if !(0 <= cx <= width && 0 <= cy <= height) then None
    else Some((Clamp(cx + dx, width - 1), Clamp(cy + dy, height - 1)))
  }

  /** With jitter in the `randint` ranges, the cursor always lands on a screen pixel, at
      most 5 pixels across and 2 pixels down or up from the centre; it is refused exactly
      when the centre is off the screen. */
  lemma CursorOnScreen(b: Box, width: int, height: int, dx: int, dy: int)
    requires width >= 1 && height >= 1
    requires -5 <= dx <= 5 && -2 <= dy <= 2
    ensures var cx, cy := b.x + b.w / 2, b.y + b.h / 2;
      var r := CursorTarget(b, width, height, dx, dy);
      && (r.None? <==> !(0 <= cx <= width && 0 <= cy <= height))
      && (r.Some? ==>
            && 0 <= r.value.0 < width && 0 <= r.value.1 < height
            && -5 <= r.value.0 - cx <= 5 && -2 <= r.value.1 - cy <= 2)
  {
  }

  /** The notebook as the bot reads it: its root position and the bounding box of each tab
      (`None` for a tab `bbox` gives nothing for). */
  datatype Notebook = Notebook(rootX: int, rootY: int, tabs: seq<Option<Box>>)

  /** `get_tab_widget`: the tab's box moved to screen coordinates; `None` without a notebook,
      for an index past the last tab, for one Python's negative indexing cannot reach, or for
      a tab without a box. */
  function TabWidget(nb: Option<Notebook>, index: int): (r: Option<Box>) {
    if nb.None? then None
    else
      var n := nb.value;
      if index >= |n.tabs| || index < -|n.tabs| then None
      else
        var b := n.tabs[if index < 0 then index + |n.tabs| else index];
        if b.None? then None else Some(Box(n.rootX + b.value.x, n.rootY + b.value.y, b.value.w, b.value.h))
  }

  /** A tab widget exists exactly for a tab that has a box, and it keeps the tab's size. */
  lemma TabWidgetIff(nb: Option<Notebook>, index: int)
    requires index >= 0
    ensures TabWidget(nb, index).Some? <==> nb.Some? && index < |nb.value.tabs| && nb.value.tabs[index].Some?
    ensures TabWidget(nb, index).Some? ==>
      var b := nb.value.tabs[index].value;
      var r := TabWidget(nb, index).value;
      r.w == b.w && r.h == b.h && r.x - nb.value.rootX == b.x && r.y - nb.value.rootY == b.y
  {
  }

  // ---------------------------------------------------------------- save button

  const SaveLabel: string := "Kaydet"

  /** A grandchild of the modal whose `text` option contains `Kaydet`; `None` is a widget
      whose `cget('text')` raises. */
  predicate IsSaveText(t: Option<string>) {
    t.Some? && Contains(t.value, SaveLabel)
  }

  function SearchRow(row: seq<Option<string>>, j: nat): (r: Option<nat>)
    requires j <= |row|
    ensures r.Some? ==> j <= r.value < |row| && IsSaveText(row[r.value])
    ensures r.Some? ==> forall k :: j <= k < r.value ==> !IsSaveText(row[k])
    ensures r.None? ==> forall k :: j <= k < |row| ==> !IsSaveText(row[k])
    decreases |row| - j
  {
    if j == |row| then None else if IsSaveText(row[j]) then Some(j) else SearchRow(row, j + 1)
  }

  function SearchKids(kids: seq<seq<Option<string>>>, i: nat): (r: Option<(nat, nat)>)
    requires i <= |kids|
    ensures r.Some? ==> i <= r.value.0 < |kids| && r.value.1 < |kids[r.value.0]|
                        && IsSaveText(kids[r.value.0][r.value.1])
    ensures r.Some? ==> forall k :: 0 <= k < r.value.1 ==> !IsSaveText(kids[r.value.0][k])
    ensures r.Some? ==> forall a, k :: i <= a < r.value.0 && 0 <= k < |kids[a]| ==> !IsSaveText(kids[a][k])
    ensures r.None? ==> forall a, k :: i <= a < |kids| && 0 <= k < |kids[a]| ==> !IsSaveText(kids[a][k])
    decreases |kids| - i
  {
    if i == |kids| then None
    else match SearchRow(kids[i], 0)
      case Some(j) => Some((i, j))
      case None => SearchKids(kids, i + 1)
  }

  /** `_find_save_button`: the first grandchild of the data-entry window, children in order
      and each child's children in order, whose text contains `Kaydet`; `None` without a
      window. `kids` lists, per child of the window, the texts of its children. */
  function FindSaveButton(window: Option<seq<seq<Option<string>>>>): (r: Option<(nat, nat)>)
    ensures r.Some? ==> window.Some? && r.value.0 < |window.value| && r.value.1 < |window.value[r.value.0]|
                        && IsSaveText(window.value[r.value.0][r.value.1])
    ensures r.Some? ==>
              forall a, k :: 0 <= a < r.value.0 && 0 <= k < |window.value[a]| ==> !IsSaveText(window.value[a][k])
    ensures r.None? ==>
              (window.None? ||
               forall a, k :: 0 <= a < |window.value| && 0 <= k < |window.value[a]| ==> !IsSaveText(window.value[a][k]))
  {
    if window.None? then None else SearchKids(window.value, 0)
  }
}
