/** The simple bot (rpa_bot.py): it reads the input spreadsheet and types every row into the
    bank entry form with simulated key strokes, logging each row it completes. */
module KeystrokeBot {
  import opened Wrappers
  import opened Tables
  import opened ResultLog
  import InputReader
  import Seqs

  const AccountCode: string := "6232011"
  const DefaultTitle: string := "Banka İşlemleri Giriş Sistemi"
  /** The texts of the three ways `run` gives up. */
  const ReadFailed: string := "Veri okunamadı veya doğrulanamadı"
  const NoGui: string := "GUI uygulaması bulunamadı"
  const NoPyautogui: string := "pyautogui bulunamadı"

  /** One simulated input: `pyautogui.write(text)` or `pyautogui.press(key)`. */
  datatype Key = Write(text: string) | Press(key: string)

  /** The keys typed for one row, and whether the row got through to the Enter key. */
  datatype RowRun = RowRun(keys: seq<Key>, completed: bool)

  /** `pyautogui.write(value)` types a string; any other value (a number, NaN, a time stamp)
      is not text and raises. */
  function Typed(c: Cell): Option<string> {
    if c.Str? then Some(c.s) else None
  }

  /** A row gets through to the Enter key: its date and description are text. */
  predicate Completes(row: Row) {
    Field(row, "Tarih").Str? && Field(row, "Açıklama").Str?
  }

  /** The fixed per-row protocol: date, Tab, description, Tab, `str(amount)`, Tab, the account
      code, Tab, Enter. A value that cannot be typed raises and ends the row where it stands. */
  function RowKeys(row: Row): (r: RowRun)
    ensures r.completed <==> Completes(row)
  {
    match Typed(Field(row, "Tarih"))
    case None => RowRun([], false)
    case Some(date) =>
      match Typed(Field(row, "Açıklama"))
      case None => RowRun([Write(date), Press("tab")], false)
      case Some(desc) =>
        RowRun([Write(date), Press("tab"), Write(desc), Press("tab"),
                Write(Show(Field(row, "Tutar"))), Press("tab"),
                Write(AccountCode), Press("tab"), Press("enter")], true)
  }

  /** A completed row is typed in full, ending with Enter; a row that raises stops after at most
      the date and its Tab, so the form is never submitted for it. */
  lemma RowKeysShape(row: Row)
    ensures var r := RowKeys(row);
      && (r.completed ==> r.keys == [Write(Field(row, "Tarih").s), Press("tab"),
                                     Write(Field(row, "Açıklama").s), Press("tab"),
                                     Write(Show(Field(row, "Tutar"))), Press("tab"),
                                     Write(AccountCode), Press("tab"), Press("enter")])
      && (!r.completed ==> |r.keys| <= 2 && Press("enter") !in r.keys)
  {
  }

  /** Missing keys are typed as empty text, so a row with none of the three columns still
      completes with the account code. This is a property of the row loop on its own: the rows
      `run` hands it come from `get_data` after `validate_data`, so they always carry the date,
      description and amount columns. */
  lemma EmptyRowCompletes()
    ensures RowKeys(map[]).completed
    ensures RowKeys(map[]).keys == [Write(""), Press("tab"), Write(""), Press("tab"), Write(""),
                                    Press("tab"), Write(AccountCode), Press("tab"), Press("enter")]
  {
  }

  /** All keys typed for `rows`, in row order. */
  function KeysOf(rows: seq<Row>): seq<Key> {
    if rows == [] then [] else RowKeys(rows[0]).keys + KeysOf(rows[1..])
  }

  /** The rows that reach the Enter key, in row order: exactly these get a results entry. */
  function CompletedRows(rows: seq<Row>): (r: seq<Row>)
    ensures |r| <= |rows|
    ensures forall row :: row in r ==> row in rows && Completes(row)
  {
    if rows == [] then []
    else (if Completes(rows[0]) then [rows[0]] else []) + CompletedRows(rows[1..])
  }

  /** The messages logged for row number `n`: its announcement, then a success line or the
      exception. */
  function MessagesOf(row: Row, n: nat): (r: seq<Message>)
    ensures |r| == 2 && r[0] == RowStarted(n)
    ensures r[1] == (if Completes(row) then SavedMessage(row) else Raised)
  {
    [RowStarted(n)] + (if Completes(row) then [SavedMessage(row)] else [Raised])
  }

  /** The results entry of row number `n`, if it completes; `clock(n)` is its time stamp. */
  function EntriesOf(row: Row, n: nat, clock: nat -> string): (r: seq<Entry>)
    ensures |r| <= 1
    ensures r != [] <==> Completes(row)
  {
    if Completes(row) then [EntryFor(row, DefaultStatus, clock(n))] else []
  }

  /** The log messages of the loop, the first row numbered `first`. */
  function RowMessages(rows: seq<Row>, first: nat): seq<Message> {
    if rows == [] then [] else MessagesOf(rows[0], first) + RowMessages(rows[1..], first + 1)
  }

  /** The results entries of the loop; `clock(i)` is the time stamp taken for row `i`. */
  function RowEntries(rows: seq<Row>, first: nat, clock: nat -> string): seq<Entry> {
    if rows == [] then [] else EntriesOf(rows[0], first, clock) + RowEntries(rows[1..], first + 1, clock)
  }

  lemma {:induction false} KeysOfAppend(a: seq<Row>, b: seq<Row>)
    ensures KeysOf(a + b) == KeysOf(a) + KeysOf(b)
  {
    if a == [] {
      assert a + b == b;
    } else {
      assert (a + b)[1..] == a[1..] + b;
      KeysOfAppend(a[1..], b);
    }
  }

  lemma {:induction false} RowMessagesAppend(a: seq<Row>, b: seq<Row>, first: nat)
    ensures RowMessages(a + b, first) == RowMessages(a, first) + RowMessages(b, first + |a|)
  {
    if a == [] {
      assert a + b == b;
    } else {
      assert (a + b)[1..] == a[1..] + b;
      RowMessagesAppend(a[1..], b, first + 1);
    }
  }

  lemma {:induction false} RowEntriesAppend(a: seq<Row>, b: seq<Row>, first: nat, clock: nat -> string)
    ensures RowEntries(a + b, first, clock) == RowEntries(a, first, clock) + RowEntries(b, first + |a|, clock)
  {
    if a == [] {
      assert a + b == b;
    } else {
      var h := EntriesOf(a[0], first, clock);
      assert (a + b)[0] == a[0];
      assert (a + b)[1..] == a[1..] + b;
      assert RowEntries(a + b, first, clock) == h + RowEntries(a[1..] + b, first + 1, clock);
      RowEntriesAppend(a[1..], b, first + 1, clock);
    }
  }

  /** What one more row adds to the keys, the results and the messages of the loop. */
  lemma RowSnoc(rows: seq<Row>, i: nat, clock: nat -> string)
    requires i < |rows|
    ensures KeysOf(rows[..i + 1]) == KeysOf(rows[..i]) + RowKeys(rows[i]).keys
    ensures RowEntries(rows[..i + 1], 1, clock) == RowEntries(rows[..i], 1, clock) + EntriesOf(rows[i], i + 1, clock)
    ensures RowMessages(rows[..i + 1], 1) == RowMessages(rows[..i], 1) + MessagesOf(rows[i], i + 1)
  {
    var row := rows[i];
    assert rows[..i + 1] == rows[..i] + [row];
    assert [row][1..] == [];
    KeysOfAppend(rows[..i], [row]);
    RowEntriesAppend(rows[..i], [row], 1, clock);
    RowMessagesAppend(rows[..i], [row], 1);
  }

  /** One results entry per completed row, none for a row that raised. */
  lemma {:induction false} EntriesCountCompleted(rows: seq<Row>, first: nat, clock: nat -> string)
    ensures |RowEntries(rows, first, clock)| == |CompletedRows(rows)|
  {
    if rows != [] {
      EntriesCountCompleted(rows[1..], first + 1, clock);
    }
  }

  /** Rows whose date and description are text are typed completely, nine keys each. */
  lemma {:induction false} TextRowsComplete(rows: seq<Row>)
    requires forall i :: 0 <= i < |rows| ==> Completes(rows[i])
    ensures CompletedRows(rows) == rows
    ensures |KeysOf(rows)| == 9 * |rows|
  {
    if rows != [] {
      RowKeysShape(rows[0]);
      TextRowsComplete(rows[1..]);
    }
  }

  /** The children of the application's root window, in order, as `_find_gui` sees them:
      `Some(t)` for a window whose `title()` is `t`, `None` for a plain widget that has no
      `title()` method (the `ttk.Frame` that the entry form packs into the root when the form
      and the bot share one process, say), on which the call raises. */
  type Children = seq<Option<string>>

  /** How `_find_gui`'s scan ends: at a child titled as expected, at a child whose `title()`
      call raises, or after the last child with neither. */
  datatype Scan = Found | Raises | Missing

  /** Every one of the first `n` children is a window whose title is not `title`. */
  predicate PassedBy(children: Children, n: nat, title: string)
    requires n <= |children|
  {
    forall j :: 0 <= j < n ==> children[j].Some? && children[j].value != title
  }

  /** The scan of `_find_gui`, child by child. */
  function ScanChildren(children: Children, title: string): (r: Scan)
    ensures r == Missing <==> PassedBy(children, |children|, title)
    decreases |children|
  {
    if children == [] then Missing
    else match children[0]
      case None => Raises
      case Some(t) => if t == title then Found else ScanChildren(children[1..], title)
  }

  /** The scan finds the window exactly when a child carries the title and every child before
      it is a window with another title; it raises exactly when a plain widget comes before
      any window with the title. */
  lemma {:induction false} ScanMeaning(children: Children, title: string)
    ensures ScanChildren(children, title) == Found <==>
      exists i :: 0 <= i < |children| && children[i] == Some(title) && PassedBy(children, i, title)
    ensures ScanChildren(children, title) == Raises <==>
      exists i :: 0 <= i < |children| && children[i].None? && PassedBy(children, i, title)
    decreases |children|
  {
    if children != [] {
      var rest := children[1..];
      ScanMeaning(rest, title);
      forall i | 0 < i <= |children|
        ensures PassedBy(children, i, title) <==>
          children[0].Some? && children[0].value != title && PassedBy(rest, i - 1, title)
      {
        assert forall j :: 0 < j < i ==> children[j] == rest[j - 1];
      }
      if children[0].Some? && children[0].value != title {
        if ScanChildren(children, title) == Found {
          var k :| 0 <= k < |rest| && rest[k] == Some(title) && PassedBy(rest, k, title);
          assert children[k + 1] == Some(title) && PassedBy(children, k + 1, title);
        }
        if ScanChildren(children, title) == Raises {
          var k :| 0 <= k < |rest| && rest[k].None? && PassedBy(rest, k, title);
          assert children[k + 1].None? && PassedBy(children, k + 1, title);
        }
        forall i | 0 <= i < |children| && PassedBy(children, i, title) && (children[i] == Some(title) || children[i].None?)
          ensures 0 < i && PassedBy(rest, i - 1, title) && rest[i - 1] == children[i]
        {
        }
      } else {
        assert PassedBy(children, 0, title);
      }
    }
  }

  /** When the entry form and the bot share one process, the form is the root window and its
      first child is a plain frame: the scan raises, whatever the later children are. */
  lemma FrameFirstRaises(rest: Children, title: string)
    ensures ScanChildren([None] + rest, title) == Raises
    ensures exists i :: 0 <= i < |[None] + rest| && ([None] + rest)[i].None? && PassedBy([None] + rest, i, title)
  {
    assert PassedBy([None] + rest, 0, title);
  }

  class RPABot {
    const guiTitle: string
    const reader: InputReader.DataReader
    const logger: RPALogger
    /** The simulated key strokes sent so far. */
    var keys: seq<Key>
    /** Error dialogs shown so far. */
    var dialogs: seq<string>

    constructor (title: string)
      ensures guiTitle == title && keys == [] && dialogs == []
      ensures fresh(reader) && fresh(logger) && reader.data.None?
      ensures logger.results == [] && logger.messages == [] && logger.saved.None?
    {
      guiTitle := title;
      reader := new InputReader.DataReader();
      logger := new RPALogger();
      keys := [];
      dialogs := [];
    }

    /** `_find_gui` over the root window's `children` (none when there is no root window):
        `found` when the scan meets the titled window, `raised` when it meets a plain widget
        first (the `AttributeError` leaves the method), and one error dialog when it ends
        with neither. */
    method FindGui(children: Children) returns (found: bool, raised: bool)
      modifies this`dialogs
      ensures found <==> ScanChildren(children, guiTitle) == Found
      ensures raised <==> ScanChildren(children, guiTitle) == Raises
      ensures dialogs == if ScanChildren(children, guiTitle) == Missing then old(dialogs) + [NoGui] else old(dialogs)
    {
      var i := 0;
      while i < |children|
        invariant 0 <= i <= |children|
        invariant ScanChildren(children, guiTitle) == ScanChildren(children[i..], guiTitle)
      {
        assert children[i..][1..] == children[i + 1..];
        match children[i]
        case None =>
          return false, true;
        case Some(t) =>
          if t == guiTitle {
            return true, false;
          }
        i := i + 1;
      }
      dialogs := dialogs + [NoGui];
      return false, false;
    }

    /** One pass of the row loop for row number `n`; `clock(n)` is its time stamp. */
    method TypeRow(row: Row, n: nat, clock: nat -> string)
      modifies this`keys, logger`results, logger`messages
      ensures keys == old(keys) + RowKeys(row).keys
      ensures logger.results == old(logger.results) + EntriesOf(row, n, clock)
      ensures logger.messages == old(logger.messages) + MessagesOf(row, n)
    {
      logger.Log(RowStarted(n));
      var run := RowKeys(row);
      keys := keys + run.keys;
      if run.completed {
        logger.LogSuccess(row, DefaultStatus, clock(n));
      } else {
        logger.Log(Raised);
      }
    }

    /** The row loop of `run`: each row is announced, typed, and then either logged as a
        success or logged as an error. */
    method TypeRows(rows: seq<Row>, clock: nat -> string)
      modifies this`keys, logger`results, logger`messages
      ensures keys == old(keys) + KeysOf(rows)
      ensures logger.results == old(logger.results) + RowEntries(rows, 1, clock)
      ensures logger.messages == old(logger.messages) + RowMessages(rows, 1)
    {
      var i := 0;
      while i < |rows|
        invariant 0 <= i <= |rows|
        invariant keys == old(keys) + KeysOf(rows[..i])
        invariant logger.results == old(logger.results) + RowEntries(rows[..i], 1, clock)
        invariant logger.messages == old(logger.messages) + RowMessages(rows[..i], 1)
      {
        TypeRow(rows[i], i + 1, clock);
        RowSnoc(rows, i, clock);
        assert keys == old(keys) + KeysOf(rows[..i + 1]) by {
          Seqs.AppendAssoc(old(keys), KeysOf(rows[..i]), RowKeys(rows[i]).keys);
        }
        assert logger.results == old(logger.results) + RowEntries(rows[..i + 1], 1, clock) by {
          Seqs.AppendAssoc(old(logger.results), RowEntries(rows[..i], 1, clock), EntriesOf(rows[i], i + 1, clock));
        }
        assert logger.messages == old(logger.messages) + RowMessages(rows[..i + 1], 1) by {
          Seqs.AppendAssoc(old(logger.messages), RowMessages(rows[..i], 1), MessagesOf(rows[i], i + 1));
        }
        i := i + 1;
      }
      assert rows[..i] == rows;
    }

    /** The first step of `run`: load and validate the spreadsheet, logging an error when that
        fails. */
    method Load(fileExists: bool, loaded: Option<Table>) returns (ready: bool)
      modifies reader`data, logger`messages
      ensures reader.data == if fileExists && loaded.Some? then loaded else old(reader.data)
      ensures ready == (fileExists && loaded.Some? && reader.ValidateData())
      ensures logger.messages == if ready then old(logger.messages) else old(logger.messages) + [Error(ReadFailed)]
    {
      var ok := reader.ReadExcel(fileExists, loaded);
      ready := ok && reader.ValidateData();
      if !ready {
        logger.LogError(ReadFailed);
      }
    }

    /** The checks between loading and typing: the form window must be open and the key-stroke
        library present; `raised` when the window scan raises. */
    method Ready(children: Children, hasPyautogui: bool) returns (go: bool, raised: bool)
      modifies this`dialogs, logger`messages
      ensures go == (ScanChildren(children, guiTitle) == Found && hasPyautogui)
      ensures raised == (ScanChildren(children, guiTitle) == Raises)
      ensures dialogs == if ScanChildren(children, guiTitle) == Missing then old(dialogs) + [NoGui] else old(dialogs)
      ensures logger.messages == if ScanChildren(children, guiTitle) == Found && !hasPyautogui
                                 then old(logger.messages) + [Error(NoPyautogui)] else old(logger.messages)
    {
      var found;
      found, raised := FindGui(children);
      if !found {
        return false, raised;
      }
      if !hasPyautogui {
        logger.LogError(NoPyautogui);
        return false, false;
      }
      return true, false;
    }

    /** `run`: nothing is typed when the spreadsheet cannot be read or validated, when the form
        window is not open, when the window scan raises (`raised`: the error leaves `run`
        with no dialog, no message and nothing saved), or when the key-stroke library is
        missing. Otherwise every row is typed in order; a row that raises is logged and the
        loop goes on; the results are saved once at the end. */
    method Run(fileExists: bool, loaded: Option<Table>, children: Children, hasPyautogui: bool,
               clock: nat -> string) returns (raised: bool)
      modifies this`keys, this`dialogs, reader`data, logger`results, logger`messages, logger`saved
      ensures reader.data == if fileExists && loaded.Some? then loaded else old(reader.data)
      ensures !(fileExists && loaded.Some? && reader.ValidateData()) ==>
        && !raised && keys == old(keys) && dialogs == old(dialogs)
        && logger.results == old(logger.results) && logger.saved == old(logger.saved)
        && logger.messages == old(logger.messages) + [Error(ReadFailed)]
      ensures fileExists && loaded.Some? && reader.ValidateData() ==>
        var scan := ScanChildren(children, guiTitle);
        && (raised <==> scan == Raises)
        && (!(scan == Found && hasPyautogui) ==>
              keys == old(keys) && logger.results == old(logger.results) && logger.saved == old(logger.saved))
        && dialogs == (if scan == Missing then old(dialogs) + [NoGui] else old(dialogs))
        && (scan != Found ==> logger.messages == old(logger.messages))
        && (scan == Found && !hasPyautogui ==> logger.messages == old(logger.messages) + [Error(NoPyautogui)])
      ensures fileExists && loaded.Some? && reader.ValidateData() && ScanChildren(children, guiTitle) == Found && hasPyautogui ==>
          var rows := reader.GetData();
          && dialogs == old(dialogs)
          && keys == old(keys) + KeysOf(rows)
          && logger.results == old(logger.results) + RowEntries(rows, 1, clock)
          && logger.saved == (if logger.results == [] then old(logger.saved) else Some(logger.results))
          && var typed := old(logger.messages) + RowMessages(rows, 1);
             logger.messages == if logger.results == [] then typed else typed + [ResultsSaved(|logger.results|)]
    {
      var ready := Load(fileExists, loaded);
      if !ready {
        return false;
      }
      raised := Proceed(children, hasPyautogui, clock);
    }

    /** The part of `run` past loading: the two checks, then the rows. */
    method Proceed(children: Children, hasPyautogui: bool, clock: nat -> string) returns (raised: bool)
      modifies this`keys, this`dialogs, logger`results, logger`messages, logger`saved
      ensures var scan := ScanChildren(children, guiTitle);
        && (raised <==> scan == Raises)
        && (!(scan == Found && hasPyautogui) ==>
              keys == old(keys) && logger.results == old(logger.results) && logger.saved == old(logger.saved))
        && dialogs == (if scan == Missing then old(dialogs) + [NoGui] else old(dialogs))
        && (scan != Found ==> logger.messages == old(logger.messages))
        && (scan == Found && !hasPyautogui ==> logger.messages == old(logger.messages) + [Error(NoPyautogui)])
      ensures ScanChildren(children, guiTitle) == Found && hasPyautogui ==>
          var rows := reader.GetData();
          && keys == old(keys) + KeysOf(rows)
          && logger.results == old(logger.results) + RowEntries(rows, 1, clock)
          && logger.saved == (if logger.results == [] then old(logger.saved) else Some(logger.results))
          && var typed := old(logger.messages) + RowMessages(rows, 1);
             logger.messages == if logger.results == [] then typed else typed + [ResultsSaved(|logger.results|)]
    {
      var go;
      go, raised := Ready(children, hasPyautogui);
      if go {
        TypeAll(clock);
      }
    }

    /** The part of `run` past its checks: every row of the loaded sheet is typed, then the
        results are saved. */
    method TypeAll(clock: nat -> string)
      modifies this`keys, logger`results, logger`messages, logger`saved
      ensures var rows := reader.GetData();
          && keys == old(keys) + KeysOf(rows)
          && logger.results == old(logger.results) + RowEntries(rows, 1, clock)
          && logger.saved == (if logger.results == [] then old(logger.saved) else Some(logger.results))
          && var typed := old(logger.messages) + RowMessages(rows, 1);
             logger.messages == if logger.results == [] then typed else typed + [ResultsSaved(|logger.results|)]
    {
      var rows := reader.GetData();
      TypeRows(rows, clock);
      logger.SaveResults();
    }
  }
}
