# RPA tutorial bots, modelled in Dafny

The repository teaches robotic process automation in levels. This project models the parts of
it that decide something.

- **Simple bot.** `rpa_bot.py` reads a bank statement through `data_reader.py`. It types every
  row into the Tk entry form of `gui_app.py` with simulated key strokes and logs each row it
  completes in `logger.py`. Before typing it looks for the form among the children of the Tk
  root window and calls `title()` on each; a plain widget has no `title()`, so the call raises
  and the error leaves `run`. That is what happens when `main.py` starts the form and the bot
  in one process (option 3): the form is then the root, and its first child is a frame.
- **Intermediate bots.** `02-Orta/data_reader.py` keeps the statement rows whose description
  matches the POSH pattern `^POSH.*\/\d{15}$`.
- **Classifier.** `02-Orta/rpa_bot.py` gives each kept record a category by amount and a bank
  by the `GARANTİ` marker.
- **Viewers.** The Presto viewer (`02-Orta/presto_gui.py`) and the accounting viewer
  (`02-Orta/accounting_gui.py`) filter a loaded sheet with an editable pattern. The accounting
  viewer also applies inclusive amount bounds and summarises debit, credit and net.
- **Enterprise bots.** Two `EnterpriseRPABot` variants drive an enterprise GUI in four phases:
  tab navigation, a six-step confirmation, entry of every statement's POSH records into the
  GUI's data-entry modal, and a final report.
  - The newer variant is `03-Karmasik/rpa/core_engine.py`.
  - The older variant is `03-Karmasik/rpa_bot.py`.
- **Enterprise GUIs.** There are two: `03-Karmasik/gui/base_gui.py` and
  `03-Karmasik/advanced_gui.py`. Each keeps the saved rows (`main_data`), validates a save,
  numbers the rows, moves a progress bar, and answers the bot's step calls.

Module by module:

| module (file) | models |
|---|---|
| `Wrappers`, `Seqs`, `Text` (wrappers.dfy, seqs.dfy, text.dfy) | `Option`; order-preserving filtering; Python's `strip`, `in`, `lower`, `upper` and `\d` |
| `Tables` (tables.dfy) | a loaded sheet: ordered column names and rows mapping column names to cells |
| `Patterns` (patterns.dfy) | the POSH and Presto default patterns as predicates with `re.match` semantics |
| `RecordFilter` (record_filter.dfy) | `02-Orta/data_reader.py` |
| `Classifier` (classifier.dfy) | `02-Orta/rpa_bot.py` |
| `InputReader` (input_reader.dfy) | `data_reader.py` |
| `ResultLog` (result_log.dfy) | `logger.py` |
| `KeystrokeBot` (keystroke_bot.dfy) | `rpa_bot.py` |
| `BankForm` (bank_form.dfy) | `gui_app.py` |
| `PrestoView` (presto_view.dfy) | `02-Orta/presto_gui.py` |
| `AccountingView` (accounting_view.dfy) | `02-Orta/accounting_gui.py` |
| `Automation` (automation.dfy) | what both enterprise bots share: delay, records of a sheet, the modal checks and the wait, the fill plans, result entries, success rate, cursor, tabs and the save button |
| `Runs` (runs.dfy) | the record and file processing of both enterprise bots as functions of their state |
| `Sequencer` (sequencer.dfy) | `03-Karmasik/rpa/core_engine.py` |
| `LegacySequencer` (legacy_sequencer.dfy) | `03-Karmasik/rpa_bot.py` |
| `EntryForm` (entry_form.dfy) | the save logic both enterprise GUIs share |
| `Level3Gui` (level3_gui.dfy) | `03-Karmasik/gui/base_gui.py` |
| `EnterpriseGui` (enterprise_gui.dfy) | `03-Karmasik/advanced_gui.py` |

The objects whose fields the source updates are classes. Each method is proved against a
function of the old state, stated in its `ensures`. Examples:
- `ProcessRecordsFromFile` leaves the bot as `Runs.RecordsUpTo` over all its records;
- `SaveAdvancedRecord` appends exactly `NextRow`.

Lemmas prove what those functions promise, among them:
- the counters partition the records;
- per-file results are kept in file order;
- the modal wait returns at the first ready attempt;
- the two bots' field fills agree on the GUIs' form;
- ids run 1, 2, …;
- progress stays at most 100.

The enterprise GUI is an oracle: it answers each call from the list of calls made so far. The
clock and the screen are a finite stream of observations. Running out of observations means
every deadline has passed.

Both GUIs' `save_advanced_record` return `None` on every path, and the newer bot counts a record
as a success only when the save returns something else. The model shows the consequence:
- every record fails (`Runs.SaveNoneFails`);
- no file reports a success (`Runs.NoSuccessWhenSavesFail`);
- for a bot whose results hold no success, as a new bot's do, the newer bot's final report is never reached (`Sequencer.NoReportWhenSavesFail`).

The older bot ignores the save's answer. It counts a record as a success whenever the form had
all four fields (`Runs.LegacyRecordIff`).

With `advanced_gui.py` the newer bot's phase 2 ends after step 1, because step 1 returns `None`
(`EnterpriseGui.CoreStopsWithEnterprise`). With `base_gui.py` it goes on exactly when the user
answers yes to steps 1 and 2 (`Level3Gui.CoreConfirmsWithLevel3`).

The sample description `POSH DENEME/000000000000000` of `02-Orta/create_complex_data.py:11`
has fifteen zeros after its slash, so the pattern accepts it (`Patterns.PoshAcceptedZeros`).

## Model

| member | source | states |
|---|---|---|
| Tables.PickColumn | 02-Orta/data_reader.py:38-54 | the chosen column is the first whose lower-cased name contains the needle; with none, the column at the fallback position, or nothing when the table is too narrow |
| Tables.Records | 02-Orta/data_reader.py:60 | one record per row in row order, keyed by every column, each value the row's cell (NaN for a missing one) |
| Patterns.PoshMatchIff | 02-Orta/data_reader.py:17 | `^POSH.*\/\d{15}$` matches exactly `POSH`, a newline-free middle, `/`, fifteen digits and at most one final newline |
| Patterns.PoshSplitBody | 02-Orta/data_reader.py:17 | every text of that shape matches |
| Patterns.PoshStartAnchored | 02-Orta/data_reader.py:17 | `^` anchors the match: any non-empty text put before a match breaks it unless that text itself starts with `POSH` |
| Patterns.PoshEndAnchored | 02-Orta/data_reader.py:17 | `$` anchors the match: no text whose last character is neither a digit nor a newline matches |
| Patterns.PoshDigitsAnchored | 02-Orta/data_reader.py:17 | exactly fifteen digits end a match: one to fifteen more digits after a match break it |
| Patterns.PoshAcceptedSample | 02-Orta/create_complex_data.py:9 | the sample `POSH XYZ/123456789012345` matches |
| Patterns.PoshAcceptedZeros | 02-Orta/create_complex_data.py:11 | `POSH DENEME/000000000000000` (fifteen zeros) matches |
| Patterns.PoshAcceptedNewline | 02-Orta/data_reader.py:17 | `$` lets one trailing newline through |
| Patterns.PoshRejected | 02-Orta/create_complex_data.py:10-12 | wrong prefix, fourteen or sixteen digits, or a newline in the middle do not match |
| Patterns.PrestoMatchIff | 02-Orta/presto_gui.py:7 | the default pattern matches exactly the newline-free texts starting with `POSH` and ending with `MUSLUOĞLU` |
| Patterns.PrestoAcceptedSample | 02-Orta/presto_gui.py:7 | `POSH 123 MUSLUOĞLU` matches |
| Patterns.PrestoAcceptedBare | 02-Orta/presto_gui.py:7 | `POSHMUSLUOĞLU` matches: the middle may be empty |
| Patterns.PrestoRejected | 02-Orta/presto_gui.py:7 | a plain `G` for `Ğ`, or text before `POSH`, does not match |
| RecordFilter.PoshRows | 02-Orta/data_reader.py:58 | the mask selection never adds rows |
| RecordFilter.PoshRowsKeep | 02-Orta/data_reader.py:58 | a row is kept iff it is a row of the table whose `str` description matches the POSH pattern |
| RecordFilter.PoshRowsOrdered | 02-Orta/data_reader.py:58 | the kept rows are a subsequence of the table's rows (order kept) |
| RecordFilter.Filtered | 02-Orta/data_reader.py:32-60 | the filter raises `IndexError` iff a fallback column position is missing; otherwise the records of the POSH rows of the chosen description column |
| RecordFilter.FilterTotalOnWideTables | 02-Orta/data_reader.py:38-54 | with at least four columns the filter cannot raise |
| RecordFilter.FilteredRecords | 02-Orta/data_reader.py:58-60 | each returned record is a kept POSH row of the table with every column |
| RecordFilter.DataReader.constructor | 02-Orta/data_reader.py:8-17 | nothing loaded, no columns chosen, header row 23, the POSH pattern |
| RecordFilter.DataReader.ReadExcel | 02-Orta/data_reader.py:19-30 | true iff the file exists and loads; a failed read keeps the old data |
| RecordFilter.DataReader.FilterByPattern | 02-Orta/data_reader.py:32-60 | no data gives no records; otherwise the result of `Filtered`, the description column stored before the amount column is looked up |
| Classifier.ColumnOr | 02-Orta/rpa_bot.py:17-18 | an unset or empty column name falls back to the fixed name |
| Classifier.AmountOf | 02-Orta/rpa_bot.py:22 | a missing key gives 0, an empty cell NaN, a timestamp raises |
| Classifier.CategoryThreshold | 02-Orta/rpa_bot.py:23 | "Büyük İşlem" iff the amount is a number above 1000 (strict; NaN is normal) |
| Classifier.DottedCapitalOnlyFromItself | 02-Orta/rpa_bot.py:24 | `upper()` yields a dotted capital İ only from a dotted capital İ |
| Classifier.GarantiNeedsDottedCapital | 02-Orta/rpa_bot.py:24 | the Garanti bank is chosen only for descriptions spelled with İ |
| Classifier.GarantiSpellings | 02-Orta/rpa_bot.py:24 | "garanti" and "Garanti Bankası" are filed under "Diğer" |
| Classifier.MarkerIsUpper | 02-Orta/rpa_bot.py:24 | the marker `GARANTİ` is its own upper case |
| Classifier.GarantiAnywhere | 02-Orta/rpa_bot.py:24 | the marker is found wherever it stands in the description |
| Classifier.GarantiSample | 02-Orta/create_complex_data.py:8 | the first sample description is a Garanti one |
| Classifier.Classify | 02-Orta/rpa_bot.py:21-25 | the printed line carries the record's `str` description (`""` without the column) and its converted amount; its category follows the 1000 threshold and its bank the upper-cased marker; nothing exactly when the amount conversion raises |
| Classifier.ClassifyAll | 02-Orta/rpa_bot.py:20-25 | one line per record in order, each that record's line, until the first record that raises ends the run |
| Classifier.MissingAmountIsNormal | 02-Orta/rpa_bot.py:22-23 | a record without an amount is a normal transaction of 0 |
| Classifier.RPABot.constructor | 02-Orta/rpa_bot.py:9-10 | a fresh reader with nothing loaded |
| Classifier.RPABot.Run | 02-Orta/rpa_bot.py:12-25 | a failed read prints nothing; a filter that raises ends the run with no line; otherwise `ClassifyAll` over the filtered records with the chosen or default column names |
| InputReader.MissingColumns | data_reader.py:41-43 | at most the four required columns are reported |
| InputReader.MissingColumnsExact | data_reader.py:41-43 | a required column is reported iff the table lacks it, in the fixed order |
| InputReader.NothingMissingIff | data_reader.py:41-47 | nothing is missing iff all four required columns are present |
| InputReader.DataReader.constructor | data_reader.py:16-18 | nothing loaded |
| InputReader.DataReader.ReadExcel | data_reader.py:20-31 | true iff the file exists and loads; a failed read keeps the old data |
| InputReader.DataReader.GetData | data_reader.py:33-37 | no records before a load, else one complete record per row in order |
| InputReader.DataReader.ValidateData | data_reader.py:39-48 | false before a load, else true iff every required column is present |
| ResultLog.RPALogger.constructor | logger.py:14-35 | no results, no messages, no results sheet |
| ResultLog.RPALogger.LogInfo | logger.py:37-39 | exactly one info message is appended |
| ResultLog.RPALogger.LogError | logger.py:41-43 | exactly one error message is appended |
| ResultLog.RPALogger.Log | logger.py:37-43 | exactly the given message is appended |
| ResultLog.RPALogger.LogSuccess | logger.py:45-57 | exactly one entry (time, date, description, amount, status; a missing key as "") and one "İşlem kaydedildi" message are appended, earlier ones untouched |
| ResultLog.RPALogger.SaveResults | logger.py:59-65 | the results sheet is written, with one message counting the results, iff there is at least one result |
| KeystrokeBot.RowKeys | rpa_bot.py:53-62 | a row reaches the Enter key iff its date and description are text |
| KeystrokeBot.RowKeysShape | rpa_bot.py:53-66 | a completed row is typed as date, Tab, description, Tab, amount, Tab, 6232011, Tab, Enter; a row that raises stops after at most two keys and never presses Enter |
| KeystrokeBot.EmptyRowCompletes | rpa_bot.py:53-59 | missing keys are typed as empty text and the row still completes |
| KeystrokeBot.CompletedRows | rpa_bot.py:50-64 | the completed rows are rows of the input that complete |
| KeystrokeBot.MessagesOf | rpa_bot.py:51-66 | each row logs its announcement and then the success line or the exception |
| KeystrokeBot.EntriesOf | rpa_bot.py:64 | a row gets a results entry iff it completes |
| KeystrokeBot.EntriesCountCompleted | rpa_bot.py:50-66 | the loop leaves one results entry per completed row |
| KeystrokeBot.TextRowsComplete | rpa_bot.py:50-63 | rows whose date and description are text all complete, nine keys each |
| KeystrokeBot.RowSnoc | rpa_bot.py:50-66 | one more row adds its keys, its entry and its two messages at the end |
| KeystrokeBot.RPABot.constructor | rpa_bot.py:22-27 | the title, a fresh reader and logger, nothing typed |
| KeystrokeBot.ScanChildren | rpa_bot.py:31-33 | the scan ends without a match exactly when every child is a window with another title |
| KeystrokeBot.ScanMeaning | rpa_bot.py:31-33 | the window is found iff a child carries the title and every child before it is a window with another title; the scan raises iff a plain widget (no `title()`) comes before any such window |
| KeystrokeBot.FrameFirstRaises | rpa_bot.py:31-32 | when the entry form is the root window its first child is a plain frame, so the scan raises whatever follows |
| KeystrokeBot.RPABot.FindGui | rpa_bot.py:29-35 | found iff the scan meets the titled window first; raised iff it meets a plain widget first, with no dialog; one error dialog exactly when it ends with neither |
| KeystrokeBot.RPABot.TypeRow | rpa_bot.py:51-66 | the row's keys, entry and messages are appended |
| KeystrokeBot.RPABot.TypeRows | rpa_bot.py:50-66 | the keys, entries and messages of all rows, in row order |
| KeystrokeBot.RPABot.Load | rpa_bot.py:39-41 | ready iff the file loads and validates; otherwise one error message |
| KeystrokeBot.RPABot.Ready | rpa_bot.py:43-48 | go on iff the scan finds the form window and the key library is present; raised iff the scan raises; the dialog or message for each refusal and none when the scan raises |
| KeystrokeBot.RPABot.Run | rpa_bot.py:37-67 | nothing is typed on each of the three refusals, nor when the window scan raises, which then leaves `run` with no dialog, no message and nothing saved; otherwise all rows' keys, entries and messages, then the results sheet when there are results |
| BankForm.SubmittedIff | gui_app.py:65-74 | a save is refused iff the date, description or amount is white space only; the account code never matters |
| BankForm.SubmittedStable | gui_app.py:67-75 | the saved values are stripped: submitting them again gives the same row |
| BankForm.BankGUI.constructor | gui_app.py:23-60 | empty fields, the account code 6232011, no rows |
| BankForm.BankGUI.Kaydet | gui_app.py:65-76 | a refused save shows one error and changes nothing else; an accepted one adds exactly the stripped row and clears the form |
| BankForm.BankGUI.Temizle | gui_app.py:78-84 | three fields emptied, the account code put back |
| PrestoView.Line | 02-Orta/presto_gui.py:61-62 | one value per column, in column order, each the cell as Tk shows it |
| PrestoView.Lines | 02-Orta/presto_gui.py:61-62 | one line per row, in row order |
| PrestoView.LinesSnoc | 02-Orta/presto_gui.py:61-62 | inserting one more row appends exactly its line |
| PrestoView.Filter | 02-Orta/presto_gui.py:69-71 | a filtered table keeps the sheet's columns |
| PrestoView.FilterFailsIff | 02-Orta/presto_gui.py:69-77 | the filter raises exactly for a missing `Açıklama` column, a column without text, or a pattern that does not compile, checked in that order |
| PrestoView.FilterKeeps | 02-Orta/presto_gui.py:71 | the kept rows are a subsequence of the sheet; a row is kept iff its description is text the stripped pattern matches (NaN never matches) |
| PrestoView.DefaultFilterKeeps | 02-Orta/presto_gui.py:69-71 | with the default pattern the kept rows are exactly those whose description starts with `POSH` and ends with `MUSLUOĞLU` |
| PrestoView.PrestoGUI.constructor | 02-Orta/presto_gui.py:13-36 | an empty sheet, the default pattern, an empty table |
| PrestoView.PrestoGUI.ShowTable | 02-Orta/presto_gui.py:54-62 | the table takes the frame's columns and exactly its lines |
| PrestoView.PrestoGUI.LoadExcel | 02-Orta/presto_gui.py:38-52 | a cancelled dialog changes nothing; a failed read only adds an error; a loaded sheet replaces the data, is shown, and its row count is reported |
| PrestoView.PrestoGUI.ApplyFilter | 02-Orta/presto_gui.py:64-77 | an empty sheet only warns; an error only shows the regex or filter error; otherwise the match count is shown and the table shows the kept rows; the sheet itself never changes |
| AccountingView.NamedColumn | 02-Orta/accounting_gui.py:278-290 | `[…][0]` of the columns whose lower-cased name contains the needle (`açıklama` for the description, `tutar` for the amount): a column exactly when one matches, and then the first such column in column order; no positional fallback |
| AccountingView.AdvancedFilter | 02-Orta/accounting_gui.py:275-297 | a filtered frame keeps the sheet's columns |
| AccountingView.PatternStepKeep | 02-Orta/accounting_gui.py:278-284 | the pattern step keeps a row iff there is no description column, the pattern is blank, or the description is text the stripped pattern matches |
| AccountingView.BoundStepKeep | 02-Orta/accounting_gui.py:289-297 | a bound step keeps a row iff the bound is blank or the amount is a number on the right side of it, the bound included |
| AccountingView.StepsKeep | 02-Orta/accounting_gui.py:275-297 | when the filter goes through, a row is kept iff it is a sheet row passing the pattern and both inclusive bounds |
| AccountingView.StepsNarrow | 02-Orta/accounting_gui.py:275-297 | the kept rows are a subsequence of the sheet's rows |
| AccountingView.BoundNarrows | 02-Orta/accounting_gui.py:294-297 | one bound step keeps a subsequence of its rows |
| AccountingView.BlankFiltersKeepAll | 02-Orta/accounting_gui.py:275-297 | a blank pattern and blank bounds keep every row and cannot raise |
| AccountingView.BadBoundRaises | 02-Orta/accounting_gui.py:294-297 | a non-blank bound that `float` refuses makes the filter raise whenever there is an amount column |
| AccountingView.TextAmountRaises | 02-Orta/accounting_gui.py:294-295 | text in the amount column makes a non-blank minimum raise |
| AccountingView.Positives | 02-Orta/accounting_gui.py:356 | the debit total is never negative |
| AccountingView.Negatives | 02-Orta/accounting_gui.py:357 | the credit sum, before `abs`, is never positive |
| AccountingView.NetSplits | 02-Orta/accounting_gui.py:356-358 | the net sum is the positive sum plus the negative sum |
| AccountingView.SummaryFor | 02-Orta/accounting_gui.py:339-369 | the summary raises iff there is an amount column holding something not comparable; it counts every row and both totals are non-negative |
| AccountingView.SummaryBalances | 02-Orta/accounting_gui.py:356-362 | the net balance shown is the debit total minus the credit total |
| AccountingView.Line | 02-Orta/accounting_gui.py:329-335 | one value per fixed heading: the row's value when the sheet has that column, else empty |
| AccountingView.Lines | 02-Orta/accounting_gui.py:328-336 | one line per row, in row order |
| AccountingView.LinesSnoc | 02-Orta/accounting_gui.py:328-336 | inserting one more row appends exactly its line |
| AccountingView.AccountingGUI.constructor | 02-Orta/accounting_gui.py:9-20 | empty sheet and result, the POSH pattern, empty entries, zero summary |
| AccountingView.AccountingGUI.ShowData | 02-Orta/accounting_gui.py:320-336 | the table is emptied and then shows exactly the frame's lines, none for an empty frame |
| AccountingView.AccountingGUI.UpdateSummary | 02-Orta/accounting_gui.py:339-369 | nothing for an empty frame; otherwise the summary of the filter result if it is not empty, else of the sheet; old labels kept when it raises |
| AccountingView.AccountingGUI.ApplyAdvancedFilter | 02-Orta/accounting_gui.py:270-305 | an empty sheet only warns; a raising filter only shows the error; otherwise the result is stored and shown and the summary updated, a raising summary reported after the result is stored |
| AccountingView.AccountingGUI.Apply | 02-Orta/accounting_gui.py:272-305 | the same state, once the filter's result is known |
| AccountingView.AccountingGUI.ShowResult | 02-Orta/accounting_gui.py:299-305 | the result is stored and shown and the summary describes it, or the sheet when it is empty |
| AccountingView.AccountingGUI.ClearFilters | 02-Orta/accounting_gui.py:307-318 | the entries go back to their defaults; with a sheet, the sheet is shown again and the summary still follows the stored filter result |
| AccountingView.AccountingGUI.LoadExcel | 02-Orta/accounting_gui.py:247-262 | a cancelled dialog changes nothing; a failed read only adds an error; a loaded sheet is stored and shown, the summary updated, and a raising summary reported as a failed load |
| Automation.DelayScaling | 03-Karmasik/rpa/core_engine.py:59-71 | the pause of `log_step` is the delay times the speed factor (slow 2, normal 1, fast 0.3, unknown 1) times 0.5: faster speeds never pause longer, no pause exceeds the requested delay, normal halves it, fast takes 15 % of it, and an unknown speed acts like normal |
| Automation.NanIsNotPosh | 03-Karmasik/rpa/core_engine.py:655-666 | an empty description cell, which `astype(str)` shows as `nan`, never passes the POSH pattern, so the kept rows never fall back to the empty description |
| Automation.FileRecordsKeep | 03-Karmasik/rpa/core_engine.py:642-666 | a sheet gives records unless it has no `açıklama` column and fewer than three columns (the `IndexError` of `columns[2]`); then it gives one record per POSH row, each with a POSH description and the file's name |
| Automation.FindModalForm | 03-Karmasik/rpa/core_engine.py:245-276 | `find_modal_form` returns the entry keys exactly when the window is set, its `winfo_exists` goes through, there are entries and every entry's `winfo_exists` goes through; the keys returned are those of `modal_entries` |
| Automation.WaitFirstReady | 03-Karmasik/rpa/core_engine.py:172-243 | `wait_for_modal_ready` returns true exactly at the first attempt before the timeout at which every check passes; every attempt it used began before the timeout; it returns false when the timeout passes first or no attempt remains |
| Automation.ShortDescription | 03-Karmasik/rpa/core_engine.py:739-744 | the typed description is the text itself when it has at most 80 characters, and otherwise its first 80 characters followed by `...` (83 characters) |
| Automation.FillsKeep | 03-Karmasik/rpa/core_engine.py:746-769 | the newer bot fills a field exactly when it is a planned field whose key is among the modal's entries; a missing key is skipped, not fatal |
| Automation.FillsAll | 03-Karmasik/rpa/core_engine.py:746-769 | with every key present, every planned field is filled, in plan order |
| Automation.FormFilledInOrder | 03-Karmasik/rpa/core_engine.py:739-769 | on the four-entry form of both GUIs a record is filled date, shortened description, amount, file, in that order |
| Automation.LegacyFillsTyped | 03-Karmasik/rpa_bot.py:422-442 | the older bot completes the fills exactly when every key is present, and then fills every field in order; otherwise there is a first missing key, and it fills exactly the fields before it, in order, and stops (`KeyError`) |
| Automation.LegacyFillsStop | 03-Karmasik/rpa_bot.py:422-442 | the older bot's fills equal the newer bot's when every key is present, and otherwise equal the newer bot's fills of the fields before the first missing key, so the two variants agree on every form the GUIs build |
| Automation.Done | 03-Karmasik/rpa/core_engine.py:681-687 | a file's result entry has success plus errors equal to its record count, and its errors are the failures of the whole run so far, not just this file's |
| Automation.SuccessRateBounds | 03-Karmasik/rpa/core_engine.py:820-823 | the final success rate is a percentage between 0 and 100; it is 100 exactly when something succeeded and nothing failed, and 0 exactly when nothing succeeded |
| Automation.CursorOnScreen | 03-Karmasik/rpa/core_engine.py:332-352 | the cursor is refused exactly when the widget's centre lies off the screen; otherwise it lands on a screen pixel within 5 pixels across and 2 pixels up or down of the centre |
| Automation.TabWidgetIff | 03-Karmasik/rpa/core_engine.py:299-322 | for a non-negative index a tab widget exists exactly when there is a notebook, the index names one of its tabs and that tab has a bounding box; the widget keeps the box's size and moves it by the notebook's root position |
| Automation.SearchRow | 03-Karmasik/rpa/core_engine.py:405-412 | the inner loop of `_find_save_button` returns the first child, from the given position on, whose text contains `Kaydet`, and none when no child's text does |
| Automation.SearchKids | 03-Karmasik/rpa/core_engine.py:403-412 | the outer loop returns the first child, in order, that has a grandchild labelled `Kaydet`, with that child's first such grandchild; none when no grandchild is labelled so |
| Automation.FindSaveButton | 03-Karmasik/rpa/core_engine.py:399-418 | `_find_save_button` returns a grandchild of the data-entry window labelled `Kaydet`, the first in child-then-grandchild order; it returns none without a window or when no grandchild is so labelled |
| Runs.RecordStepFrame | 03-Karmasik/rpa/core_engine.py:725-789 | entering one record, in either variant, leaves the stored records, both counters and the results unchanged and only appends GUI calls |
| Runs.RecordsUpToPartition | 03-Karmasik/rpa/core_engine.py:708-719 | for any record step that changes nothing but the calls, the first `n` iterations of the record loop raise `total_records_processed + failed_records` by exactly `n`, never lower either counter, and leave the stored records and results alone |
| Runs.RecordsPartition | 03-Karmasik/rpa/core_engine.py:704-723 | over a file's records each record increments exactly one of the two counters, so their sum grows by the number of records; the stored records and the results do not change and calls are only added |
| Runs.RecordsUpToFail | 03-Karmasik/rpa/core_engine.py:708-719 | when no record can succeed, the loop leaves `total_records_processed` unchanged and adds one failure per record |
| Runs.CoreSaveNone | 03-Karmasik/rpa/core_engine.py:773-779 | when the GUI's `save_advanced_record` answers `None`, as both GUIs' versions always do, the newer bot's record is never a success |
| Runs.SaveNoneFails | 03-Karmasik/rpa/core_engine.py:704-723 | with such a GUI the newer bot counts every record of a file as failed and none as processed |
| Runs.LegacyRecordIff | 03-Karmasik/rpa_bot.py:414-455 | the older bot's record succeeds exactly when the entries it reads contain all four form keys, and then its calls are the four fills in order (date, shortened description, amount, file) followed by the save, whatever the save returns |
| Runs.CoreRecordCalls | 03-Karmasik/rpa/core_engine.py:725-789 | the newer bot's record succeeds only after the modal became ready within 5 seconds and the form was found; any calls it adds are the fills of the keys present and the save, which on the four-entry form are the four fields in order |
| Runs.FileStepEntry | 03-Karmasik/rpa/core_engine.py:636-702 | a file adds exactly one results entry, under its name; it is the `{0, 0, 1}` entry exactly when the file cannot be read or has no description column; otherwise it counts the file's records, keeps `success + errors == records` and stores the records under the file's name; the counters grow by the entry's record count |
| Runs.FilesUpToResults | 03-Karmasik/rpa/core_engine.py:618-629 | for any file step that adds one entry, the first `n` files add one entry each, in file order and under each file's name, and the two counters together grow by the record counts of those entries |
| Runs.FilesResults | 03-Karmasik/rpa/core_engine.py:606-634 | phase 3 adds one results entry per file, in file order under each file's name, and the two counters together grow by the records those entries count |
| Runs.FileStepSaveNone | 03-Karmasik/rpa/core_engine.py:679-687 | with a GUI whose saves answer `None`, a file adds one entry whose success count is at most zero and processes no record |
| Runs.FilesUpToNoSuccess | 03-Karmasik/rpa/core_engine.py:618-629 | when no file step can count a success, the first `n` files leave the processed count unchanged and every entry they add has a success count of at most zero |
| Runs.NoSuccessWhenSavesFail | 03-Karmasik/rpa/core_engine.py:606-634 | with a GUI whose saves answer `None`, the newer bot's phase 3 never counts a record as processed, and no entry it adds reports a positive success count |
| Sequencer.NavigationTabs | 03-Karmasik/rpa/core_engine.py:436-457 | phase 1 selects six tabs: it starts and ends on the dashboard and in between visits four different tabs out of 1 to 5, as `random.sample` draws them |
| Sequencer.StepRun | 03-Karmasik/rpa/core_engine.py:485-602 | steps 3 to 6 always go on; steps 1 and 2 go on exactly when the GUI's answer is true (`bool(None)` being false); step 3 first hands the preview records to the GUI |
| Sequencer.ConfirmStops | 03-Karmasik/rpa/core_engine.py:461-483 | phase 2 changes only the GUI calls: only step 1 is run when step 1 is not answered with true, steps 1 and 2 when step 2 is not, and otherwise all six steps in order with the first file's preview handed over before step 3 |
| Sequencer.FinalizeGuard | 03-Karmasik/rpa/core_engine.py:801-840 | phase 4 reports exactly when there are files, results and a result with a positive success count, and otherwise changes nothing; the report counts the files and both counters, its rate is a percentage, and the calls go on with step 6 and the completion dialog |
| Sequencer.NoReportWhenSavesFail | 03-Karmasik/rpa/core_engine.py:907-933 | with the repository's GUIs, whose `save_advanced_record` answers `None`, a run that starts without a successful result never reaches the final report |
| Sequencer.EnterpriseBot.constructor | 03-Karmasik/rpa/core_engine.py:23-42 | a new bot has no GUI, speed `fast`, no files, no calls, nothing stored, both counters zero, no results, no report and is not running |
| Sequencer.EnterpriseBot.SetGuiReference | 03-Karmasik/rpa/core_engine.py:44-47 | the GUI is attached |
| Sequencer.EnterpriseBot.SetProcessingFiles | 03-Karmasik/rpa/core_engine.py:49-52 | the file list becomes the given one |
| Sequencer.EnterpriseBot.SetProcessingSpeed | 03-Karmasik/rpa/core_engine.py:54-57 | the speed becomes the given one |
| Sequencer.EnterpriseBot.WaitForModalReady | 03-Karmasik/rpa/core_engine.py:172-243 | the polling loop returns what `Wait` says and consumes exactly the observations it used |
| Sequencer.EnterpriseBot.FindModalForm | 03-Karmasik/rpa/core_engine.py:245-276 | one more look at the screen, answered as `Automation.FindModalForm` answers it |
| Sequencer.EnterpriseBot.ProcessSingleRecord | 03-Karmasik/rpa/core_engine.py:725-789 | the wait, the form lookup, the loop over the four planned fields and the save leave the bot as `Runs.CoreRecord` says and return its success |
| Sequencer.EnterpriseBot.ProcessRecordsFromFile | 03-Karmasik/rpa/core_engine.py:704-723 | the loop over a file's records leaves the bot as `Runs.RecordsUpTo` over all of them says |
| Sequencer.EnterpriseBot.ProcessSingleExcelFile | 03-Karmasik/rpa/core_engine.py:636-702 | a file is processed as `Runs.FileStep` says, and the result is true exactly when the file could be read and had a description column |
| Sequencer.EnterpriseBot.Phase1 | 03-Karmasik/rpa/core_engine.py:420-459 | phase 1 appends exactly the tab selections of `NavigationCalls` for the drawn route |
| Sequencer.EnterpriseBot.RunStep | 03-Karmasik/rpa/core_engine.py:485-602 | one step changes the bot and answers as `StepRun` says |
| Sequencer.EnterpriseBot.Phase2 | 03-Karmasik/rpa/core_engine.py:461-483 | the loop over the six steps, stopping at the first false one, leaves the bot as `StepsFrom` from step 1 says |
| Sequencer.EnterpriseBot.Phase3 | 03-Karmasik/rpa/core_engine.py:606-634 | the loop over the files leaves the bot as `Runs.Phase3` says |
| Sequencer.EnterpriseBot.Phase4 | 03-Karmasik/rpa/core_engine.py:801-840 | phase 4 leaves the bot as `Finalize` says and records its report when one was made |
| Sequencer.EnterpriseBot.RunCompleteAutomationSequence | 03-Karmasik/rpa/core_engine.py:907-933 | the four phases in order leave the bot as `Sequence` says, and afterwards it is not running |
| Sequencer.EnterpriseBot.Run | 03-Karmasik/rpa/core_engine.py:935-966 | without a GUI nothing changes and `None` is returned; otherwise non-empty given files replace the list, the sequence runs, the bot is no longer running and the results are returned |
| Sequencer.EnterpriseBot.Stop | 03-Karmasik/rpa/core_engine.py:968-971 | the bot is no longer running |
| LegacySequencer.NavigationOrder | 03-Karmasik/rpa_bot.py:201-236 | the older bot's phase 1 selects the dashboard, then accounting, inventory, reports and system, then the finance tab, opens the data-entry modal and returns to the dashboard with the modal left open |
| LegacySequencer.VisitsAllTabs | 03-Karmasik/rpa_bot.py:201-230 | before the modal opens each of the six tabs 0 to 5 is selected exactly once, the finance tab last |
| LegacySequencer.StepCalls | 03-Karmasik/rpa_bot.py:262-293 | steps 1 to 5 each make exactly one GUI call and step 6 makes none |
| LegacySequencer.StepsBeforeAll | 03-Karmasik/rpa_bot.py:241-260 | phase 2 calls the GUI's steps 1 to 5 in order whatever they answer; no step can stop it |
| LegacySequencer.SequenceReports | 03-Karmasik/rpa_bot.py:467-520 | the older bot always reports: the report counts the files and the run's counters, its rate is a percentage, there is one new result per file in order whose record counts sum to the records counted in this run, and the last call is step 6 |
| LegacySequencer.LegacyBot.constructor | 03-Karmasik/rpa_bot.py:19-38 | a new bot has no GUI, speed `fast`, no files, no calls, nothing stored, both counters zero, no results, no report and is not running |
| LegacySequencer.LegacyBot.SetGuiReference | 03-Karmasik/rpa_bot.py:40-43 | the GUI is attached |
| LegacySequencer.LegacyBot.SetProcessingFiles | 03-Karmasik/rpa_bot.py:45-48 | the file list becomes the given one |
| LegacySequencer.LegacyBot.SetProcessingSpeed | 03-Karmasik/rpa_bot.py:50-53 | the speed becomes the given one |
| LegacySequencer.LegacyBot.ProcessSingleRecord | 03-Karmasik/rpa_bot.py:414-455 | without a GUI the record fails and nothing changes; otherwise the bot changes and answers as `Runs.LegacyRecord` says |
| LegacySequencer.LegacyBot.FillForm | 03-Karmasik/rpa_bot.py:424-448 | the field-by-field fills make exactly the calls `LegacyFills` lists, followed by the save only when every field was filled, and report whether they were |
| LegacySequencer.LegacyBot.ProcessRecordsFromFile | 03-Karmasik/rpa_bot.py:393-412 | the loop over a file's records leaves the bot as `Runs.RecordsUpTo` over all of them says |
| LegacySequencer.LegacyBot.ProcessSingleExcelFile | 03-Karmasik/rpa_bot.py:325-391 | a file is processed as `Runs.FileStep` says, and the result is true exactly when the file could be read and had a description column |
| LegacySequencer.LegacyBot.Phase1 | 03-Karmasik/rpa_bot.py:187-239 | phase 1 appends exactly the calls of `NavigationCalls` |
| LegacySequencer.LegacyBot.RunStep | 03-Karmasik/rpa_bot.py:262-293 | one step appends exactly its `StepCalls` |
| LegacySequencer.LegacyBot.Phase2 | 03-Karmasik/rpa_bot.py:241-260 | the six steps append the calls of steps 1 to 5 in order |
| LegacySequencer.LegacyBot.Phase3 | 03-Karmasik/rpa_bot.py:295-323 | the loop over the files leaves the bot as `Runs.Phase3` says |
| LegacySequencer.LegacyBot.Phase4 | 03-Karmasik/rpa_bot.py:467-492 | phase 4 calls step 6 and records the report `Finalize` makes, with no guard |
| LegacySequencer.LegacyBot.RunCompleteAutomationSequence | 03-Karmasik/rpa_bot.py:494-520 | the four phases in order leave the bot as `Sequence` says, with its report recorded, and afterwards it is not running |
| LegacySequencer.LegacyBot.Run | 03-Karmasik/rpa_bot.py:522-549 | without a GUI nothing changes and no worker is started; otherwise non-empty given files replace the list and the whole sequence runs, after which the bot is not running |
| LegacySequencer.LegacyBot.Stop | 03-Karmasik/rpa_bot.py:555-557 | the bot is no longer running |
| EntryForm.ReplaceChar | 03-Karmasik/gui/base_gui.py:1341-1341 | `replace(',', '.')` keeps the length and turns every comma, and nothing else, into a point |
| EntryForm.CheckIff | 03-Karmasik/gui/base_gui.py:1331-1344 | a save is accepted exactly when none of the four stripped entries is empty and the amount, its commas made points, parses; a blank entry is reported before the amount is looked at; an accepted save keeps the stripped texts and the parsed amount |
| EntryForm.EmptyFormIncomplete | 03-Karmasik/gui/base_gui.py:1336-1338 | a fresh or cleared form is never saved: it gets the "fill in every field" warning |
| EntryForm.NextRow | 03-Karmasik/gui/base_gui.py:1346-1356 | the appended row has id `len(main_data) + 1`, status `Kaydedildi`, and the accepted date, file, description and amount |
| EntryForm.NextRowSequential | 03-Karmasik/gui/base_gui.py:1346-1356 | appending the next row keeps the ids of `main_data` running 1, 2, … in order, so they stay distinct |
| EntryForm.ProgressBounds | 03-Karmasik/gui/base_gui.py:1367-1370 | the progress is a percentage between 0 and 100; it is 100 exactly when at least as many rows were saved as records were handed over (over a total of 100 when none were handed over), and below that it is the exact ratio |
| EntryForm.TodayCount | 03-Karmasik/gui/base_gui.py:1405-1409 | the dashboard's count for today never exceeds the number of saved rows |
| EntryForm.TodayCountAppend | 03-Karmasik/gui/base_gui.py:1405-1409 | a save raises today's count by one exactly when the new row carries today's date, and leaves it alone otherwise |
| EntryForm.SetEntry | 03-Karmasik/rpa/core_engine.py:791-797 | `delete` then `insert` leaves the keyed entry holding exactly the new text and every other entry as it was; a key that names none of the four entries raises |
| EntryForm.FillPlanEntered | 03-Karmasik/rpa/core_engine.py:739-764 | whatever the entries held before, filling a record's four planned fields leaves them holding its date, shortened description, amount and file |
| EntryForm.EnteredRecordSaves | 03-Karmasik/gui/base_gui.py:1329-1356 | a record the bot typed into the form is saved exactly when its date, shortened description, amount and file are all non-blank and the amount parses, and then the stripped values are stored |
| Level3Gui.CoreConfirmsWithLevel3 | 03-Karmasik/gui/base_gui.py:1544-1556 | with this GUI the newer bot's phase 2 ends after step 1 on a no to step 1, after step 2 on a no to step 2, and runs all six steps exactly when both are answered yes |
| Level3Gui.Level3EnterpriseGUI.constructor | 03-Karmasik/gui/base_gui.py:22-55 | a new GUI has no saved rows, no current records, no modal, no entries, an empty progress bar, the dashboard tab selected and zero counts |
| Level3Gui.Level3EnterpriseGUI.SetCurrentRecords | 03-Karmasik/gui/base_gui.py:1697-1699 | the current records become the given ones |
| Level3Gui.Level3EnterpriseGUI.UpdateDashboardStats | 03-Karmasik/gui/base_gui.py:1402-1417 | the total card shows the number of saved rows and the today card the number saved with today's date |
| Level3Gui.Level3EnterpriseGUI.ClearAdvancedForm | 03-Karmasik/gui/base_gui.py:1475-1486 | every entry of a built modal is emptied; before any modal is built nothing changes |
| Level3Gui.Level3EnterpriseGUI.SaveAdvancedRecord | 03-Karmasik/gui/base_gui.py:1329-1389 | the table keeps showing `main_data` with ids 1, 2, …; a refused save (no modal, a blank field or a bad amount) changes nothing; an accepted one appends exactly the next row, refreshes today's count, sets the progress and clears the form |
| Level3Gui.Level3EnterpriseGUI.Store | 03-Karmasik/gui/base_gui.py:1346-1385 | after the checks: nothing for a refused outcome; for an accepted one the next row appended to both the data and the table, the dashboard refreshed, the progress set and the form cleared, the invariant kept |
| Level3Gui.Level3EnterpriseGUI.CloseModal | 03-Karmasik/gui/base_gui.py:1488-1502 | the data-entry window is gone; an open one is destroyed with its entries, so a later save or clear raises and changes nothing; with no window nothing changes |
| Level3Gui.Level3EnterpriseGUI.FillEntry | 03-Karmasik/rpa/core_engine.py:791-797 | with live entries and one of the four keys, exactly that entry's text is replaced; otherwise the caught raise changes nothing |
| Level3Gui.Level3EnterpriseGUI.OpenAdvancedDataEntry | 03-Karmasik/gui/base_gui.py:1119-1171 | any previous modal is replaced by one with four empty entries; the result is true exactly when every entry's `winfo_exists` went through |
| Level3Gui.Level3EnterpriseGUI.Step1SelectSource | 03-Karmasik/gui/base_gui.py:1544-1549 | step 1 returns the user's yes or no |
| Level3Gui.Level3EnterpriseGUI.Step2FilterRecords | 03-Karmasik/gui/base_gui.py:1551-1556 | step 2 returns the user's yes or no |
| Level3Gui.Level3EnterpriseGUI.Step3PreviewData | 03-Karmasik/gui/base_gui.py:1558-1564 | step 3 returns true |
| Level3Gui.Level3EnterpriseGUI.Step4SetParameters | 03-Karmasik/gui/base_gui.py:1566-1571 | step 4 returns the user's yes or no |
| Level3Gui.Level3EnterpriseGUI.Step5StartDataEntry | 03-Karmasik/gui/base_gui.py:1573-1598 | step 5 opens the modal and returns whether it opened ready; the modal stays open, with empty entries, unless it opened ready and the user then declined, which destroys it with its entries |
| Level3Gui.Level3EnterpriseGUI.Step6BatchConfirm | 03-Karmasik/gui/base_gui.py:1600-1601 | step 6 returns `None` |
| Level3Gui.Level3EnterpriseGUI.MenuSelected | 03-Karmasik/gui/base_gui.py:1620-1626 | the finance tab is selected exactly when the module's name contains `Finans` and the submenu's contains `Tahsilat`; otherwise the tab is unchanged |
| EnterpriseGui.CoreStopsWithEnterprise | 03-Karmasik/advanced_gui.py:417-424 | step 1 of this GUI returns `None`, so the newer bot's phase 2 always ends after step 1 |
| EnterpriseGui.EnterpriseGUI.constructor | 03-Karmasik/advanced_gui.py:12-33 | a new GUI has no saved rows, no current records, no modal, no entries, an empty progress bar, the dashboard tab selected and zero counts |
| EnterpriseGui.EnterpriseGUI.SetCurrentRecords | 03-Karmasik/advanced_gui.py:921-923 | the current records become the given ones |
| EnterpriseGui.EnterpriseGUI.UpdateDashboardStats | 03-Karmasik/advanced_gui.py:798-807 | the total card shows the number of saved rows and the today card the number saved with today's date |
| EnterpriseGui.EnterpriseGUI.ClearAdvancedForm | 03-Karmasik/advanced_gui.py:684-691 | every entry of a built modal is emptied; before any modal is built nothing changes |
| EnterpriseGui.EnterpriseGUI.SaveAdvancedRecord | 03-Karmasik/advanced_gui.py:618-682 | the table keeps showing `main_data` with ids 1, 2, …; a refused save (no modal, a blank field or a bad amount) changes nothing; an accepted one appends exactly the next row, refreshes today's count, sets the progress and clears the form |
| EnterpriseGui.EnterpriseGUI.Store | 03-Karmasik/advanced_gui.py:635-672 | after the checks: nothing for a refused outcome; for an accepted one the next row appended to both the data and the table, the dashboard refreshed, the progress set and the form cleared, the invariant kept |
| EnterpriseGui.EnterpriseGUI.CloseModal | 03-Karmasik/advanced_gui.py:719-724 | the data-entry window is gone; an open one is destroyed with its entries, so a later save or clear raises `TclError` and changes nothing; with no window nothing changes |
| EnterpriseGui.EnterpriseGUI.FillEntry | 03-Karmasik/rpa/core_engine.py:791-797 | with live entries and one of the four keys, exactly that entry's text is replaced; otherwise the caught raise changes nothing |
| EnterpriseGui.EnterpriseGUI.OpenAdvancedDataEntry | 03-Karmasik/advanced_gui.py:504-545 | any previous modal is replaced by one with four empty entries, and the result is true |
| EnterpriseGui.EnterpriseGUI.Step1SelectSource | 03-Karmasik/advanced_gui.py:417-424 | step 1 shows information and returns `None`; the information box raises exactly when no modal is open |
| EnterpriseGui.EnterpriseGUI.Step2FilterRecords | 03-Karmasik/advanced_gui.py:426-436 | step 2 asks yes or no but returns `None` whatever the answer; the question raises exactly when no modal is open |
| EnterpriseGui.EnterpriseGUI.Step3PreviewData | 03-Karmasik/advanced_gui.py:438-446 | step 3 returns `None`; its information box raises exactly when no modal is open |
| EnterpriseGui.EnterpriseGUI.Step4SetParameters | 03-Karmasik/advanced_gui.py:448-460 | step 4 asks for parameters but returns `None` whatever is entered |
| EnterpriseGui.EnterpriseGUI.Step5StartDataEntry | 03-Karmasik/advanced_gui.py:463-492 | step 5 opens the modal without asking, leaves it open with empty entries and returns `None` |
| EnterpriseGui.EnterpriseGUI.Step6BatchConfirm | 03-Karmasik/advanced_gui.py:498-502 | step 6 returns `None`; its information box raises exactly when no modal is open |
| EnterpriseGui.EnterpriseGUI.MenuSelected | 03-Karmasik/advanced_gui.py:868-874 | the finance tab is selected exactly when the module's name contains `Finans` and the submenu's contains `Tahsilat`; otherwise the tab is unchanged |
| EnterpriseGui.EnterpriseGUI.AskYesNoLeft | 03-Karmasik/advanced_gui.py:834-859 | with no modal open, placing the popup raises `AttributeError` and no answer is given; otherwise the popup answers true exactly when the user pressed "Evet", and false when they pressed "Hayır" or closed the window |
| EnterpriseGui.EnterpriseGUI.ShowInfoLeft | 03-Karmasik/advanced_gui.py:820-832 | the information popup goes through exactly when a modal is open; otherwise placing it raises `AttributeError` |

## Left out

- Spreadsheet loading (`pd.read_excel`, the header row 23, the file dialogs) is external. The loader is a parameter that gives a `Table`, or a failure when reading raises.
- `float` is a partial parser passed as a parameter. The viewers' `re.compile` is a matcher parameter that fails for a pattern that does not compile. Sums, rates and percentages are over `real`, not IEEE doubles.
- A cell's `str()` text is carried by the cell itself. Pandas' number and date formatting is not modelled.
- `\d` covers only the ASCII digits.
- `lower` and `upper` are exact only for ASCII, Latin-1 and the Turkish letters Ğ, Ş, İ and ı; other characters are left unchanged.
- Clocks, sleeps and randomness are removed:
  - `time.sleep` and every `random.uniform` pause are dropped; of the pauses, only the `log_step` delay formula is kept;
  - the cursor jitter of `random.randint` is a pair of parameters in its range;
  - the route drawn by `random.sample` is a parameter satisfying `RandomRoute`.
- The enterprise bots' clock and screen are a finite stream of observations. When the stream is exhausted, every timeout is taken to have passed.
- Threads and GUI-thread marshalling are left out:
  - `call_in_gui_thread` is a direct call answered by the GUI oracle;
  - the older bot's `run` spawns a worker thread; the model runs the whole sequence before `LegacySequencer.LegacyBot.Run` returns;
  - `progress_callback` is not modelled.
- The GUI call trace leaves out status-bar texts, log lines, window focus, widget highlighting, cursor moves and clicks. `click_widget_simulation`, `after_mouse_click`, `focus_window` and `highlight_widget` therefore have no counterpart.
- The save button `_find_save_button` locates is not clicked in the trace. The save happens through the `save_advanced_record` call, as in the source.
- Sequencer.EnterpriseBot.RunStep: the polling loops in the newer bot's steps 1, 2 and 5 are not modelled. They wait up to 60 or 120 seconds for a popup to close or the modal to become ready, and they change neither a step's result nor the calls. Only `StepRun`'s calls are modelled, and the observations those loops would use up are not consumed.
- The older bot's `get_tab_widget` and `move_mouse_to_widget` are not modelled, since cursor moves are not in the trace. The older `get_tab_widget` has no index check, and the older `move_mouse_to_widget` has no screen check and no clamping. Only the newer bot's cursor geometry is modelled (`Automation.CursorTarget`).
- The enterprise bots' phase methods require a GUI reference. Without one the source raises `AttributeError` inside the phase, which the sequence's handler catches. Both `Run` methods model the GUI check that comes first.
- The following fields are not modelled: `current_file_index`, `start_time`, `processing_time`, `error_message`, the save time of a row, and the exception text logged.
- `prepare_preview_records` reloads the first file. The model reuses the same extraction as phase 3.
- Both enterprise GUIs:
  - building the modal (`create_level3_modal_content`, `create_advanced_modal_content`) is reduced to its four empty entries; Tk errors while building it are not modelled;
  - the tree row's formatting (`"%.2f TL"`) and the animations are left out;
  - a save or clear with no live entries raises: `AttributeError` before the first modal, `TclError` on the entries `close_modal` destroyed. The model has no exception, so it changes nothing;
  - a modal closed from its window frame rather than by `close_modal` is not modelled: `data_entry_window` then stays set to a destroyed window;
  - the popup `_show_info_left` and `_ask_yes_no_left` create before they raise stays on screen; it is not modelled;
  - the `winfo_exists` probes of `base_gui.py`'s `open_advanced_data_entry` are a parameter (`probesOk`).
- EnterpriseGui.EnterpriseGUI.Step4SetParameters: `simpledialog.askstring` is a parameter. Its text only changes the status line.
- The "today" count's date (`datetime.now`) is a parameter.
- The logger's file and console handlers, the Excel writer behind `save_results`, the message boxes of the viewers and forms, and `print` are left out. Each is modelled only as the message or flag the model records.
