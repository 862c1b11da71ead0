# Batch pipeline of gemini-watermark-remover, modelled in Dafny

The browser application removes a visible watermark from images. Its batch
pipeline works in stages. Intake admits the submitted files and turns them
into work items. A controller drives each item through the statuses
`pending`, `processing`, `completed` and `error`. A process-wide store holds
the current batch and a processed counter. A progress line reads that store.
Bulk export packs the completed results into one archive.

This project models that pipeline: the files `src/handlers/fileHandler.js`,
`src/handlers/processHandler.js`, `src/handlers/downloadHandler.js`,
`src/ui/uiController.js` and `src/state/appState.js`.

- Items are objects that the pipeline mutates in place. The queue shares them
  by reference. They are modelled as a class `ItemModel.Item`.
- The store is the class `AppState.Store`, with one field per module variable.
- Every state-changing operation is a method. Its postcondition ties the
  item snapshots after the call (`StatesOf`) to a function of the snapshots
  before the call.
- The lemmas prove what those functions imply: the count, isolation, order,
  the export contents and the file names.

Some inputs come from code outside this model: the engine, the image
decoder, the PNG encoder, the originality check and the clock. Each one is a
parameter.

- `loads` gives one decode result per item.
- `TransformOutcome` and `SingleOutcome` say how far an item gets before the
  first failure.
- `clock` holds the readings of `Date.now()` made while the batch is built,
  one per item: the source reads the clock inside the `map` callback
  (fileHandler.js line 19), so the clock may tick between items.
- `now` is the reading of `Date.now()` that time-stamps the archive.

Where the design description and the code disagree, the model follows the
code:

- The processed counter is raised only on the success path
  (processHandler.js line 90). It is not raised for items that end in
  `error`. After a queue run the counter is the number of items that reached
  `completed` (`Pipeline.FreshBatchCounterMatchesExport`), not the batch size.
  This holds as long as the progress redraw right after the increment does not
  throw (see "Left out").
- An item whose failure comes after the result was stored keeps that result
  while in `error` (`ProcessHandler.TransformItem`, `Pipeline.MixedOutcomes`).
- A failure after line 76 makes an item go from `completed` to `error`
  (`ProcessHandler.ItemEvents` for the outcome `FailsAfterCompleted`). That is a
  transition out of a terminal status.
- The preload loop has no `try`. One image that fails to decode aborts the
  whole run before any transform (`ProcessHandler.LoadFailureAbortsRun`).
  Decode failures are therefore not isolated per item.
- Single-item mode never changes the item's status
  (`ProcessHandler.SingleState`).
- The media-type test is an unanchored pattern search. A type that merely
  contains `image/png` also passes (`FileHandler.MediaTypeExamples`).

## Model

| member | source | states |
|---|---|---|
| ItemModel.NewItemState | src/handlers/fileHandler.js:18-25 | a new item is pending and satisfies the store invariant |
| ItemModel.Item.constructor | src/handlers/fileHandler.js:18-25 | a new item object has the given id and file, the file's name, status pending, and no image or result |
| AppState.Store.constructor | src/state/appState.js:1-4 | the store starts with no engine, an empty queue, counter 0 and no zoom widget, and is valid |
| AppState.Store.SetEngine | src/state/appState.js:10-12 | the engine becomes the given value; the other three fields are unchanged |
| AppState.Store.SetImageQueue | src/state/appState.js:18-20 | the queue becomes the given sequence of item references; the other fields are unchanged |
| AppState.Store.SetProcessedCount | src/state/appState.js:26-28 | the counter becomes the given value; the other fields are unchanged |
| AppState.Store.IncrementProcessedCount | src/state/appState.js:30-33 | the counter goes up by one, the new value is returned, and nothing else changes |
| AppState.Store.SetZoom | src/state/appState.js:39-41 | the zoom widget becomes the given value; the other fields are unchanged |
| AppState.Store.GetEngine | src/state/appState.js:6-8 | reads the engine; the setter's contract fixes what it returns (no contract of its own) |
| AppState.Store.GetImageQueue | src/state/appState.js:14-16 | reads the live queue, the same item references and not a copy; the setter's contract fixes what it returns (no contract of its own) |
| AppState.Store.GetProcessedCount | src/state/appState.js:22-24 | reads the counter; the setter's and the increment's contracts fix what it returns (no contract of its own) |
| AppState.Store.GetZoom | src/state/appState.js:35-37 | reads the zoom widget; the setter's contract fixes what it returns (no contract of its own) |
| UiController.Reset | src/ui/uiController.js:4-10 | the queue becomes empty and the counter 0; engine and zoom are kept; the store invariant holds afterwards |
| UiController.UpdateProgress | src/ui/uiController.js:12-16 | the displayed pair is (counter, queue length), read without changing the store |
| Seqs.Contains | src/handlers/fileHandler.js:11 | the unanchored search is true exactly when the pattern occurs at some position |
| FileHandler.MatchesImageType | src/handlers/fileHandler.js:11 | the unanchored pattern: the type contains one of the three image types; `FileHandler.MediaTypeExamples` pins it down (no contract of its own) |
| FileHandler.Admitted | src/handlers/fileHandler.js:10-14 | the filter's test: matching type and size at most 20 MiB (no contract of its own) |
| FileHandler.ValidFiles | src/handlers/fileHandler.js:10-14 | the admitted files; `FileHandler.ValidFilesExact` states its properties (no contract of its own) |
| FileHandler.ValidFilesExact | src/handlers/fileHandler.js:10-14 | a file is admitted iff its type matches and its size is at most 20 MiB; each admitted file is kept as often as it was submitted, and submission order is preserved |
| FileHandler.MediaTypeExamples | src/handlers/fileHandler.js:11 | the three image types pass; `image/jpg` and `image/gif` fail; a type that contains `image/png` passes |
| FileHandler.OversizedFileDropped | src/handlers/fileHandler.js:12 | a JPEG one byte over the ceiling is dropped, and a valid PNG next to it is kept |
| FileHandler.NewStates | src/handlers/fileHandler.js:18-25 | one pending item per admitted file, with id `clock[j] + j` from that item's own clock reading; ids strictly increase along the batch whenever the clock does not run backwards |
| FileHandler.BuildQueue | src/handlers/fileHandler.js:18-25 | builds fresh, pairwise distinct item objects, reading the clock once per item, whose snapshots are the new batch |
| FileHandler.DispatchFor | src/handlers/fileHandler.js:16-42 | no batch iff no file is admitted; single-item mode iff exactly one is admitted; queue mode iff two or more are admitted |
| FileHandler.CreateBatch | src/handlers/fileHandler.js:10-28 | with no admitted file the queue and the counter are unchanged; otherwise the new batch replaces the queue, the counter is 0 and the store invariant holds |
| FileHandler.HandleFiles | src/handlers/fileHandler.js:9-43 | no admitted file means a no-op; one file means the new item after single-item mode, with counter 0; two or more mean the `0/n` progress line, then the queue after queue mode and the resulting count |
| FileHandler.HandleFileSelect | src/handlers/fileHandler.js:5-7 | the input handler has exactly the effect of intake on the event's file list |
| ProcessHandler.SingleState | src/handlers/processHandler.js:8-49 | single-item mode keeps the status and the fixed fields; it records the image once decoding succeeds and the result once encoding is reached, and loses nothing on failure |
| ProcessHandler.ProcessSingle | src/handlers/processHandler.js:8-49 | the item object ends in the snapshot that single-item mode prescribes |
| ProcessHandler.FirstLoadFailure | src/handlers/processHandler.js:55-60 | finds the first item whose decode fails, with every earlier item decoded; no result means every item decodes |
| ProcessHandler.Preloaded | src/handlers/processHandler.js:55-60 | the preload pass sets the decoded image of the items it reached; status and result are untouched, and later items are unchanged |
| ProcessHandler.Preload | src/handlers/processHandler.js:55-60 | the loop stops at the first decode failure and leaves the items in the preloaded snapshot up to that point |
| ProcessHandler.TransformItem | src/handlers/processHandler.js:63-97 | a non-pending item is skipped; a pending one ends terminal, `completed` iff every step succeeds; the result is cleared when encoding yields nothing and kept when a later step fails |
| ProcessHandler.TransformAll | src/handlers/processHandler.js:63-97 | each item's final snapshot depends on its own snapshot and outcome only |
| ProcessHandler.ItemEventsShape | src/handlers/processHandler.js:64-96 | a pending item's writes start with `processing`, which appears only once; `completed` comes right after a stored result; no write sets `pending`; the last status write is the final status; the counter is written iff the item succeeds |
| ProcessHandler.ItemEvents | src/handlers/processHandler.js:66-93 | the writes of one turn in source order, per outcome; its properties are stated by `ProcessHandler.ItemEventsShape` (no contract of its own) |
| ProcessHandler.ProgressReports | src/handlers/processHandler.js:90-91 | one progress line per counted item, showing the counter after that increment and the batch size |
| ProcessHandler.TransformStep | src/handlers/processHandler.js:64-96 | one loop turn leaves the item in its transformed snapshot, raises the counter iff the item is counted, and redraws the progress line after that; its log lists the item's writes, each entry holding the field value read back after that write |
| ProcessHandler.PassTurn | src/handlers/processHandler.js:63-97 | one iteration of the pass loop carries the loop's state from `i` turns to `i + 1`: only the item at position `i` changes, and the counter, progress lines and writes grow by that item's share |
| ProcessHandler.TransformPass | src/handlers/processHandler.js:62-97 | the pass over the live queue leaves every item transformed, and adds the number of successes to the counter; it yields the progress lines and the writes in queue order |
| ProcessHandler.ProcessQueue | src/handlers/processHandler.js:51-102 | a queue run keeps the store invariant and its queue; it ends either aborted at the first decode failure or with both passes applied; the download-all control is shown iff the counter ends above zero |
| ProcessHandler.RunStates | src/handlers/processHandler.js:51-102 | the snapshots after a queue run: preloaded up to the first decode failure, or preloaded and transformed; `ProcessHandler.ProcessQueue` and `ProcessHandler.LoadFailureAbortsRun` state its properties (no contract of its own) |
| ProcessHandler.RunCount | src/handlers/processHandler.js:51-102 | the counter's increase over a queue run: 0 after a decode failure, else the successes; related to the completed count by `Pipeline.FreshBatchCounterMatchesExport` (no contract of its own) |
| ProcessHandler.RunResult | src/handlers/processHandler.js:51-102 | how a run ends: aborted at the failing position, or finished with the download-all decision and the progress lines (no contract of its own) |
| ProcessHandler.SuccessCountIsNewlyCompleted | src/handlers/processHandler.js:76-90 | the increments of a pass equal the number of items that went from pending to completed |
| ProcessHandler.PendingEndsCompletedOrError | src/handlers/processHandler.js:63-97 | pending items = successes + items newly in error; no item is left pending; the count is at most the number of pending items |
| ProcessHandler.SuccessCountByStatus | src/handlers/processHandler.js:64 | the count depends only on the statuses before the pass, so the preload pass does not change it |
| ProcessHandler.OutcomeIsolation | src/handlers/processHandler.js:69-96 | changing one item's outcome changes only that item's final snapshot, and changes the count by that item's contribution only |
| ProcessHandler.PassEventsInQueueOrder | src/handlers/processHandler.js:63 | every write of the pass concerns an item of the queue, and the writes follow queue order |
| ProcessHandler.PassEventsOfItem | src/handlers/processHandler.js:63-97 | within the whole pass, the writes to one item are exactly those of its own turn |
| ProcessHandler.PassNeverSetsPending | src/handlers/processHandler.js:66-93 | no write of the pass returns an item to pending |
| ProcessHandler.ItemCountWrites | src/handlers/processHandler.js:90 | one turn raises the counter once if the item succeeds, and otherwise not at all |
| ProcessHandler.CountEventsMatchCounter | src/handlers/processHandler.js:90 | the increments in the pass's writes equal the counted successes |
| ProcessHandler.LoadFailureAbortsRun | src/handlers/processHandler.js:55-60 | after a decode failure no status or result changes, nothing is counted and nothing is written; the failing item and later ones are untouched |
| ProcessHandler.RunCountWithoutLoadFailure | src/handlers/processHandler.js:55-97 | when every item decodes, each item holds its image and the run counts the pending items that succeed |
| DownloadHandler.ExtensionUnique | src/handlers/downloadHandler.js:7 | the extension pattern matches at most one position of a name |
| DownloadHandler.LastDot | src/handlers/downloadHandler.js:7 | finds the last dot of a name, or reports that no dot exists |
| DownloadHandler.Stem | src/handlers/downloadHandler.js:7 | the stem is a prefix of the name; it is the name cut at the pattern's single match, or the whole name when the pattern does not match (no dot, or a trailing dot) |
| DownloadHandler.OutputName | src/handlers/downloadHandler.js:7 | the saved name: prefix, stem, `.png`; shared by single and bulk export, which `DownloadHandler.CompletedDownloadIsArchived` states (no contract of its own) |
| DownloadHandler.OutputNamesCollide | src/handlers/downloadHandler.js:18 | `photo.jpg` and `photo.webp` both become `unwatermarked_photo.png` |
| DownloadHandler.StemExamples | src/handlers/downloadHandler.js:7 | only the last extension is removed; `.png` has an empty stem; `scan.` and `scan` are kept whole |
| DownloadHandler.Decimal | src/handlers/downloadHandler.js:25 | the time is written as a non-empty string of decimal digits with no leading zero |
| DownloadHandler.DecimalRoundTrip | src/handlers/downloadHandler.js:25 | reading the written digits back gives the time |
| DownloadHandler.ArchiveName | src/handlers/downloadHandler.js:25 | the time-stamped archive name; `DownloadHandler.ArchiveNamesDistinct` states its property (no contract of its own) |
| DownloadHandler.ArchiveNamesDistinct | src/handlers/downloadHandler.js:25 | different times give different archive names |
| DownloadHandler.DownloadImage | src/handlers/downloadHandler.js:4-9 | for an item holding a result, the single download has the name and payload of that item's bulk-export entry |
| DownloadHandler.CompletedItemArchived | src/handlers/downloadHandler.js:13-20 | every completed item of a valid queue has its entry in the archive, which therefore exists |
| DownloadHandler.CompletedDownloadIsArchived | src/handlers/downloadHandler.js:4-20 | a completed item holds a result, and its single download is one of the entries of its queue's archive: single and bulk export use the same name and payload |
| DownloadHandler.CompletedStates | src/handlers/downloadHandler.js:13 | the completed items in queue order; the three lemmas below state its properties (no contract of its own) |
| DownloadHandler.CompletedStatesAreCompleted | src/handlers/downloadHandler.js:13 | every item kept by the export filter is completed and, in a valid store, holds a result |
| DownloadHandler.CompletedStatesExact | src/handlers/downloadHandler.js:13 | the filter keeps exactly the completed items, as often as they occur, in queue order |
| DownloadHandler.CompletedStatesCount | src/handlers/downloadHandler.js:13 | the filter keeps as many items as are completed |
| DownloadHandler.EntryFor | src/handlers/downloadHandler.js:18-19 | one completed item's entry: its output name and its result (no contract of its own) |
| DownloadHandler.Entries | src/handlers/downloadHandler.js:17-20 | one entry per completed item, in the same order |
| DownloadHandler.ArchiveOf | src/handlers/downloadHandler.js:13-25 | the bulk-export result of a queue snapshot; `DownloadHandler.ArchiveOfCompleted` states its properties (no contract of its own) |
| DownloadHandler.DownloadAll | src/handlers/downloadHandler.js:11-27 | the loop adds one entry per completed item in order; with no completed item nothing is produced |
| DownloadHandler.ArchiveOfCompleted | src/handlers/downloadHandler.js:13-25 | export is a no-op iff no item is completed; otherwise the archive is time-stamped and holds one entry per completed item, named as single download names it and carrying its result |
| DownloadHandler.ExportSkipsFailedItem | src/handlers/downloadHandler.js:13-20 | for `[completed, error, completed]` the archive holds the entries of the first and third items only |
| Pipeline.FreshBatchCounterMatchesExport | src/handlers/processHandler.js:99-101 | after queue mode on a fresh batch, the counter equals the number of completed items and is at most the batch size; download-all is shown iff export is not a no-op, and the archive then has one entry per counted item |
| Pipeline.MixedOutcomes | src/handlers/processHandler.js:63-97 | with three items whose outcomes are success, engine failure and failure after completion, the results are completed / error without a result / error keeping its result; the count is 1 and the archive holds the first item only |

## Left out

- The DOM: showing and hiding panels, image cards, status strings, scrolling and button handlers are not modelled. Only the decisions behind them are modelled: the mode, the progress pair and the download-all condition.
- Internationalised text (`i18n`) and `updateDynamicTexts` (uiController.js lines 18-22). They only redraw text and do not touch the store.
- The watermark engine, `loadImage`, `checkOriginal`, `getOriginalStatus` and `setStatusMessage` live in code outside this model. Their effect on each item is an input (`loads`, `TransformOutcome`, `SingleOutcome`).
- Zoom attachment (processHandler.js lines 41-43, 59) acts only on the widget, so its calls are not modelled. In single-item mode a throw there comes after the result is stored and is the outcome `Encodes`. In the preload loop a throw from line 58 or 59 would abort the run like a decode failure, but after the item's image is set; that case is not modelled.
- `console.error` is logging and is not modelled.
- JSZip encoding and object URLs are left out. An archive is its name and its ordered list of entries. Entries with colliding names (`DownloadHandler.OutputNamesCollide`) would overwrite each other in a real zip; that overwrite is not modelled.
- JavaScript number precision is not modelled. The clock readings `clock` that intake uses, the ids and the counter are unbounded integers. The archive's time stamp `now` is a natural number.
- Asynchronous interleaving is not modelled. Each handler runs to completion. A reset or a new submission that arrives partway through a queue run is out of scope.
- `src/app.js` (wiring and engine start-up) and `src/ui/imageRenderer.js` are not part of this model.
- ProcessHandler.ProcessQueue: requires `Store.Valid()`, the invariant that the queue holds distinct items and every completed item has a result. The source takes that invariant for granted; intake, `Reset` and the store's constructor establish it.
- DownloadHandler.DownloadAll: requires `Store.Valid()` so that every completed item has a result to export. The source does not check for this.
- ProcessHandler.ProcessSingle: every throw between decoding and encoding is one outcome, `FailsAfterLoad`. That covers the originality check, the watermark info and the engine call (lines 13-27). Every throw after the blob is stored (lines 31-45) is one outcome, `Encodes`. Which step throws is not modelled, because no such step changes the item.
- ProcessHandler.TransformStep: a throw from `updateProgress` (line 91) is not modelled. It would come after the increment at line 90 and leave the item counted but in `error`. The model treats any failure on the success path as happening before the increment (`FailsAfterCompleted`). So the equality of the counter with the number of completed items (`Pipeline.FreshBatchCounterMatchesExport`) holds only while the progress redraw does not throw.
