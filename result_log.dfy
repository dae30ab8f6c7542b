/** The result logger of the simple bot (logger.py): an append-only list of entered rows and
    the message stream of the log. */
module ResultLog {
  import opened Wrappers
  import opened Tables

  const DefaultStatus: string := "BAŞARILI"

  /** One entry of `results`: time stamp, the row's date, description and amount, and status. */
  datatype Entry = Entry(zaman: string, tarih: Cell, aciklama: Cell, tutar: Cell, durum: string)

  /** A log message. The ones whose text holds a number or an exception's text are kept as
      that number, or as the bare fact that an exception was logged. */
  datatype Message =
    | Info(text: string)
    | Error(text: string)
    | RowStarted(index: nat)
    | Raised
    | RowSaved(description: string, amount: string)
    | ResultsSaved(count: nat)

  /** `row.get(key, "")`. */
  function Field(row: Row, key: string): Cell {
    if key in row then row[key] else Str("")
  }

  /** The entry `log_success` records for a row. */
  function EntryFor(row: Row, status: string, now: string): Entry {
    Entry(now, Field(row, "Tarih"), Field(row, "Açıklama"), Field(row, "Tutar"), status)
  }

  /** The message `log_success` writes, "İşlem kaydedildi: <description> - <amount> TL", kept as
      the two values it shows. */
  function SavedMessage(row: Row): Message {
    RowSaved(Show(Field(row, "Açıklama")), Show(Field(row, "Tutar")))
  }

  class RPALogger {
    var results: seq<Entry>
    var messages: seq<Message>
    /** The last results sheet written (`data/sonuclar.xlsx`), if any. */
    var saved: Option<seq<Entry>>

    constructor ()
      ensures results == [] && messages == [] && saved.None?
    {
      results := [];
      messages := [];
      saved := None;
    }

    method LogInfo(text: string)
      modifies this`messages
      ensures messages == old(messages) + [Info(text)]
    {
      messages := messages + [Info(text)];
    }

    method LogError(text: string)
      modifies this`messages
      ensures messages == old(messages) + [Error(text)]
    {
      messages := messages + [Error(text)];
    }

    /** A message whose text is not part of the model (a row index, an exception). */
    method Log(m: Message)
      modifies this`messages
      ensures messages == old(messages) + [m]
    {
      messages := messages + [m];
    }

    /** `log_success`: appends exactly one entry and leaves the earlier ones as they were.
        `now` is the time stamp the clock gives. */
    method LogSuccess(row: Row, status: string, now: string)
      modifies this`results, this`messages
      ensures results == old(results) + [EntryFor(row, status, now)]
      ensures messages == old(messages) + [SavedMessage(row)]
    {
      results := results + [EntryFor(row, status, now)];
      messages := messages + [SavedMessage(row)];
    }

    /** `save_results`: writes the sheet only when there is at least one result. */
    method SaveResults()
      modifies this`saved, this`messages
      ensures results == [] ==> saved == old(saved) && messages == old(messages)
      ensures results != [] ==> saved == Some(results) && messages == old(messages) + [ResultsSaved(|results|)]
    {
      if results != [] {
        saved := Some(results);
        messages := messages + [ResultsSaved(|results|)];
      }
    }
  }
}
