# UDF converter batch engine

A Dafny model of the batch-conversion engine behind the two Tkinter front
ends of the Bosch UDF converter: `tk.py` (the full application) and
`tk.trial_1.py` (its earlier, simpler version). The model covers:

- the queue of source files and the queue view's rows;
- adding files from the file dialog and from a drag-and-drop string;
- the drag-and-drop list parser;
- removing the selected rows and clearing the queue;
- the ordered refusal checks before a run, the export subfolder and the
  overwrite prompt;
- the output-path planner and the collision scan;
- the worker loop, item by item: cancel, skip, decode and write, success
  or error, progress;
- the run-wide list of produced files and the optional zip archive.

The filesystem is a value `Disk`. It holds the existing source paths, the
existing directories and the existing output files. An output file is a
directory and a base name (stem plus format), so its archive name is
exact. The clock reading, the overwrite prompt's answer and the list of
missing dependencies are parameters. The worker is one sequential method.
What it learns from outside comes from an `Env` value:

- the stop-flag read that first sees the flag set;
- the skip option as read for each item;
- the zip option as read after the loop;
- the outcome of each item's decoder and writer steps;
- whether the libraries import;
- whether the archive opens, and which adds succeed.

Modules:

- `Paths`: source and output records, `strip`, the drop-suffix test, the
  name suffix, the base directory and the per-item plan.
- `Planner`: the collision scan.
- `Rows`: the view's insert, renumber and status update.
- `DragDrop`: the brace-aware list parser.
- `Queue`: add and remove on the file list and the rows together.
- `Batch`: the worker, as a function of what it reads.
- `Preflight`: the checks of the convert handler.
- `Converter`: class `App`, the handlers of `tk.py`.
- `TrialConverter`: the functions and class `TrialApp` of
  `tk.trial_1.py`. Its worker has its own definition, proved to agree
  with the full worker once the suffix, the skip mode and the archive are
  switched off.

Behaviour that the model keeps as the code has it:

- The collision check and the worker each read the clock for the name
  suffix. Two different readings give different plans.
- Skip mode skips an item when any one of its planned outputs exists.
- A skipped item is first shown as "Running".
- The produced list covers the whole run. It keeps the parquet file of an
  item whose csv write then failed.
- The skip and zip options are read while the run is going on.
- Removal pops the file at each selected row's displayed number minus
  one. The numbers are only refreshed after the whole selection, so
  removing several rows can pop the wrong files. `Queue.RemoveDriftExample`
  shows a three-file queue where removing the first two rows leaves the
  queue holding `b` and the view showing `c`.
- A closing brace in a dropped list emits the current path without
  clearing it. A single braced path is therefore parsed twice, and the
  drop handler's duplicate check absorbs the repeat.
- With the subfolder option on, the export folder is created before the
  overwrite prompt. A run the user declines still leaves the folder.
- A failure to create the zip archive is caught by the worker's outer
  handler, so the run ends as stopped.
- Creating the export folder can raise (the output folder is a file, or
  a file holds the folder's name). The exception leaves the convert
  handler before any run state is set. The model reports this as the
  refusal `FolderFailed`.

## Model

| member | source | states |
|---|---|---|
| `Paths.StripSpec` | tk.py:379 | `Strip` returns the middle slice of the input: everything before and after the slice is whitespace, the slice neither starts nor ends with whitespace, and the result is empty exactly when the input is all whitespace |
| `Paths.StripLeftSpec` | tk.py:379 | the left strip is a suffix of the input, preceded only by whitespace, and does not start with whitespace |
| `Paths.StripRightSpec` | tk.py:379 | the right strip is a prefix of the input, followed only by whitespace, and does not end with whitespace |
| `Paths.Lower` | tk.py:298 | lower-casing keeps the length and maps every character through the ASCII lower-case map |
| `Paths.DropSuffixIgnoresCase` | tk.py:298 | two suffixes that agree up to case are both accepted as `.udf`/`.bin` drops or both refused |
| `Paths.PlanShape` | tk.py:439-441 | the plan has one path per enabled format, parquet first; every path is in the output folder, or in its `UDF_Exports` child when the subfolder option is on; the names are the stem, then `_` and the stamp when the timestamp option is on, then `.parquet` or `.csv` |
| `Paths.PlannedNameDeterminesStem` | tk.py:439 | two sources that share a planned output path have the same stem |
| `Paths.SuffixReadingsDiffer` | tk.py:503-504 | two different clock readings give different plans for the same source, so the collision check and the worker can plan different names |
| `Seqs.Without` | tk.py:333 | popping index k keeps the elements before k and shifts the ones after it down by one |
| `Planner.FindCollisions` | tk.py:506-514 | the scan over the queue returns exactly the collision list `Collisions` |
| `Planner.ItemCollisionsShape` | tk.py:509-513 | a name is reported for a source exactly when it names one of the source's planned outputs and that output exists; a source reports nothing exactly when none of its planned outputs exists |
| `Planner.CollisionsAppend` | tk.py:508 | the collision list of two queues in sequence is the first one's list followed by the second one's, so the list is in queue order |
| `Planner.CollisionsMembership` | tk.py:508-513 | a name is in the collision list exactly when some queued source reports it |
| `Planner.CollisionsEmptyIff` | tk.py:506-514 | the collision list is empty exactly when no queued source has an existing planned output |
| `Rows.Inserted` | tk.py:516-518 | an insert appends one row with the path and status given, numbered one past the old row count, with empty format columns, and keeps the rows before it |
| `Rows.FirstMatchSpec` | tk.py:527-529 | the row index found shows the path and no row before it does |
| `Rows.StatusUpdatedSpec` | tk.py:525-534 | a status update rewrites only the first row that shows the path: it sets the status and tag, and sets each format column only when its new text is non-empty; every other row is unchanged, and no row changes its identifier, number or path |
| `Rows.SetStatus` | tk.py:525-534 | the scan-and-break loop computes `StatusUpdated` |
| `Rows.Renumber` | tk.py:520-523 | the loop rewrites each row's number to its 1-based position and leaves every other column alone |
| `Rows.RenumberedMirrors` | tk.py:520-523 | after renumbering, rows that show the queue in order are numbered 1, 2, … |
| `Rows.StatusUpdatedAt` | tk.trial_1.py:314-323 | when the rows show a duplicate-free queue, updating the k-th file changes the k-th row alone |
| `Rows.StatusUpdatedIs` | tk.trial_1.py:314-323 | when the rows show a duplicate-free queue, updating the k-th file is an in-place update of row k |
| `DragDrop.ParseDndList` | tk.py:304-314 | the character loop over the three variables computes `Parse` |
| `DragDrop.ParsedHaveNoBraces` | tk.py:304-314 | no parsed element contains `{` or `}` |
| `DragDrop.BracedGroup` | tk.py:308-312 | a braced group is emitted as one element, spaces included, and stays current after the closing brace |
| `DragDrop.SingleBracedPathRepeats` | tk.py:308-313 | a lone braced path is parsed as that path twice |
| `DragDrop.ParseWithoutBraces` | tk.py:310-313 | without braces, the parser yields exactly the non-empty space-separated words of its input, in order |
| `DragDrop.FoldWords` | tk.py:307-313 | outside braces, with a space-free current element and brace-free input left, the loop ends with its finished elements followed by the words of the current element and the rest |
| `Queue.FreshMembership` | tk.py:322-326 | a path is newly added exactly when it was chosen, is admissible (it exists as a file or a folder and, for a drop, has a `.udf`/`.bin` suffix) and was not already queued |
| `Queue.DroppedFolderQueued` | tk.py:296-299 | a dropped existing folder named `d.udf` is admitted and queued, as `Path.exists()` holds for folders |
| `Queue.FreshDistinct` | tk.py:322-326 | the newly added paths contain no duplicates |
| `Queue.AdmittedIsFresh` | tk.py:322-326 | the add loop appends `Fresh`, the admissible not-yet-queued paths at their first occurrence, in the order chosen |
| `Queue.AdmittedProperties` | tk.py:322-326 | adding keeps the old queue as a prefix; a path ends up queued exactly when it already was, or was chosen and is admissible; a duplicate-free queue stays duplicate-free |
| `Queue.AdmitAll` | tk.py:322-327 | the add loop yields the admitted queue and one "Queued" row per new file, with a fresh identifier, its position as number and empty format columns; rows that show the queue keep doing so |
| `Queue.FindId` | tk.py:332 | the search returns the index of the row with the identifier, or the row count when no row has it |
| `Queue.RemoveAll` | tk.py:331-334 | the removal loop computes `Removed` |
| `Queue.RemovedShrinks` | tk.py:331-334 | removal pops at most one file per selected row and only files that were queued: the new queue is a sub-multiset of the old one, and at most the selection's length shorter |
| `Queue.RemovedRows` | tk.py:331-334 | for a valid selection, the rows left are exactly the unselected rows, in order |
| `Queue.RemovedKeeps` | tk.py:331-334 | removal keeps the identifiers unique and below the next one, and keeps the queue duplicate-free |
| `Queue.RemoveOneRow` | tk.py:329-335 | removing one row from a view that shows the queue pops that row's file, and the renumbered rows still show the queue |
| `Queue.RemoveDriftExample` | tk.py:331-334 | removing the first two of three rows pops `a` and then `c`, leaving the queue `[b]` while the view shows `c` |
| `Queue.RemovalKeepsValid` | tk.py:329-335 | after removal and renumbering, the rows are the unselected ones, with unique identifiers, numbered by position, and the queue stays duplicate-free |
| `Queue.AdmitRenumber` | tk.py:322-327 | add then renumber: the admitted queue, the old rows unchanged, one new row per new file with its identifier, number and path, the next identifier advanced by the count added, and the view invariants kept |
| `Queue.RemoveRenumber` | tk.py:329-335 | remove then renumber: the queue after the pops, the renumbered unselected rows, and the view invariants kept |
| `Batch.Write` | tk.py:455-470 | an item's decoder block succeeds exactly when the read, each enabled write and the release all succeed |
| `Batch.WriteShape` | tk.py:462-470 | the block appends to the produced list only paths it planned, in plan order, all of them on success and none when the read fails, and each path it appends now exists |
| `Batch.ProcessItemRow` | tk.py:437-482 | one iteration changes only its own item's row, to the row `FinalRow` describes |
| `Batch.ProcessItemFrame` | tk.py:437-482 | one iteration keeps every row's identifier, number and path, and leaves every other item's row unchanged |
| `Batch.ProcessItemAt` | tk.py:443-482 | an item ends "Skipped" exactly when skip mode is on and one of its planned outputs exists; "Done" exactly when it is not skipped and its block succeeds; "Error" exactly when it is not skipped and its block fails; the progress shows its 1-based position |
| `Batch.ProcessItemColumns` | tk.py:447-478 | a skipped item writes nothing and marks each existing output "✔ (existing)"; a finished item marks each enabled format "✔" with the ok tag; an errored item keeps its format columns and gets the error tag |
| `Batch.ProcessItemProduced` | tk.py:462-470 | an iteration adds at most two paths to the produced list, keeps the earlier entries, only adds outputs, and keeps every produced path on disk |
| `Batch.ErrorItemKeepsParquet` | tk.py:462-478 | an item whose csv write fails ends "Error" while its parquet file stays produced and on disk |
| `Batch.SameStemSecondSkipped` | tk.py:443-453 | in skip mode, a second source with the same stem as a converted one is skipped, because its planned path now exists |
| `Batch.SameStemProducedTwice` | tk.py:462-470 | without skip mode, two sources with the same stem put the same parquet path on the produced list twice |
| `Batch.LoopFrame` | tk.py:432-435 | the loop skeleton keeps the rows showing the queue, touches no row before its start and none after the cancelled one |
| `Batch.LoopCancelled` | tk.py:432-435 | the item whose stop-flag read sees the flag is marked "Cancelled" with the error tag |
| `Batch.LoopProgress` | tk.py:482 | after the loop the progress shows the last item attempted before the cancel, or is unchanged when no item was attempted |
| `Batch.RunFromRows` | tk.py:432-482 | from any item on: every item before the cancelled one is processed, the cancelled item alone is "Cancelled", later rows are unchanged, and the progress is the count attempted |
| `Batch.RunFromProduced` | tk.py:462-470 | the produced list grows by at most two paths per item, keeps its earlier entries, and every produced path exists |
| `Batch.RunFromAllProduced` | tk.py:462-470 | when no item is cancelled or skipped and each one succeeds, the produced list gains every planned path, in queue order |
| `Batch.RunFromAllDone` | tk.py:472-474 | when no item is cancelled or skipped and each one succeeds, every row ends "Done" |
| `Batch.MembersFromNames` | tk.py:487-492 | every archive member is the base name of a produced path, and there are at most as many members as produced paths |
| `Batch.MembersFromAdded` | tk.py:487-492 | a name is a member exactly when some produced path from the start index on has that base name and its add succeeds; a failed add leaves out only its own entry |
| `Batch.MembersFromAll` | tk.py:487-492 | when every add succeeds, the members are the base names of all produced paths, in order |
| `Batch.WorkerStopped` | tk.py:494-500 | the run ends as stopped exactly when the imports fail, the stop flag is set by the final read, or the archive cannot be created |
| `Batch.WorkerArchive` | tk.py:484-492 | an archive is written exactly when the imports succeed, the zip option is on after the loop, something was produced and the archive opens; it is `udf_exports_<stamp>.zip` in the output folder, and a name is a member exactly when some produced path with that base name was added successfully; all of them, in order, when every add succeeds |
| `Batch.WorkerWithoutImports` | tk.py:420-423 | when the imports fail, no row, output or progress changes, nothing is produced, no archive is written and the run ends stopped |
| `Batch.WorkerRows` | tk.py:432-482 | after the worker, the rows still show the queue; every item before the cancel is processed, the cancelled item is "Cancelled" and later rows are untouched; the progress is the count attempted; the produced list has at most two paths per item, all of them on disk, and no output disappears |
| `Batch.WorkerAllSucceed` | tk.py:432-495 | without cancel or skip, and with every item succeeding, every row ends "Done", the produced list is every planned path in queue order, and the run is stopped only when the archive cannot be created |
| `Preflight.RunChecks` | tk.py:374-398 | the checks with early returns compute `Check`: the verdict and the disk they leave |
| `Preflight.CheckRunsIff` | tk.py:374-410 | a run starts exactly when every check passes and skip mode is on, the user confirms, or no planned output exists; it starts in the stripped folder, or its `UDF_Exports` child when that option is on |
| `Preflight.CheckRefusalOrder` | tk.py:375-388 | each refusal names the first check that fails |
| `Preflight.CheckDisk` | tk.py:390-392 | the pre-flight changes the disk by the export subfolder alone, and creates it whenever the earlier checks pass and the option is on |
| `Preflight.DeclinedKeepsFolder` | tk.py:390-398 | a declined overwrite prompt still leaves the export subfolder created |
| `Converter.DroppedSources` | tk.py:296-297 | each dropped string becomes a source through the path library, in order |
| `Converter.WritePlanned` | tk.py:455-470 | the imperative decoder block (parquet, then csv, each only after success so far) computes `Write` |
| `Converter.ZipMembers` | tk.py:487-492 | the add loop computes the archive members `MembersFrom` |
| `Converter.Bundle` | tk.py:484-492 | the archive step computes `Bundled`: the archive, or the failure to create it |
| `Converter.App.constructor` | tk.py:118-128 | an empty queue and view, identifiers from 0, not running, no stop request, the progress bar at 0 of 100 (configured at tk.py:265); parquet, csv and skip mode on; subfolder, timestamp and zip off; no output folder |
| `Converter.App.Admit` | tk.py:322-327 | the queue becomes the admitted queue; one new numbered "Queued" row per new file; identifiers advance; run state and options unchanged |
| `Converter.App.AddFiles` | tk.py:316-327 | an empty dialog result changes nothing; otherwise each existing, not-yet-queued path is appended with its numbered "Queued" row and a fresh identifier, and the rows keep showing the queue; the run flag, stop flag, progress bar and options are unchanged |
| `Converter.App.DropFiles` | tk.py:294-301 | the parsed drop list, admitted when the path exists as a file or a folder and passes the suffix filter, is appended with one new numbered row and a fresh identifier per file, and the rows keep showing the queue; the run flag, stop flag, progress bar and options are unchanged |
| `Converter.App.RemoveSelected` | tk.py:329-335 | refused while running; otherwise the queue after the stale-number pops and the renumbered unselected rows; identifiers, run flag, stop flag, progress bar and options are unchanged |
| `Converter.App.ClearList` | tk.py:337-341 | refused while running; otherwise the queue and the rows are empty; identifiers, run flag, stop flag, progress bar and options are unchanged |
| `Converter.App.OnCancel` | tk.py:412-415 | the stop flag is set exactly when a run is going on or it already was; the queue, rows, identifiers, run flag, progress bar and options are unchanged, and the queue invariants still hold |
| `Converter.App.OnConvert` | tk.py:374-410 | the verdict and the disk are those of `Check` on the current queue and options; a refusal leaves the run state as it was; a start sets running, clears the stop flag, zeroes the progress and sets its maximum to the queue length, at least 1 |
| `Converter.App.RunItem` | tk.py:437-482 | one iteration on the object's rows computes `ProcessItem`, keeping the queue invariants |
| `Converter.ItemStep` | tk.py:437-482 | the body of one loop iteration computes `ProcessItem`: "Running", then "Skipped", "Done" or "Error" |
| `Converter.App.RunLoop` | tk.py:432-482 | given a stop flag already set is seen by the first read, the loop over the queue computes `RunFrom` from the initial state, keeping the queue invariants |
| `Converter.App.WorkerRun` | tk.py:418-500 | given a stop flag already set is seen by the first read, the rows, progress, outputs, archive and stopped flag are those of `Worker` on the queue and on the options as the run starts, with the worker's own clock reading for the suffix; the run ends not running with the progress maximum and the queue invariants kept, and the stop flag is set exactly when it was or a read during the run saw it |
| `TrialConverter.TrialWriteAgrees` | tk.trial_1.py:260-277 | the trial's decoder block succeeds and writes exactly as the full engine's does on a plan without a suffix |
| `TrialConverter.TrialItemAgrees` | tk.trial_1.py:258-285 | one trial item leaves the same rows, outputs and progress as a full-engine item with skip mode off |
| `TrialConverter.TrialLoopAgrees` | tk.trial_1.py:253-285 | the trial loop leaves the same rows, outputs and progress as the full loop with skip mode off |
| `TrialConverter.TrialWorkerAgrees` | tk.trial_1.py:240-293 | the trial worker agrees with the full worker on the stripped folder with no suffix, skip mode and zip off; that run writes no archive and is stopped exactly when the imports fail or the stop flag is set |
| `TrialConverter.TrialWorkerRows` | tk.trial_1.py:253-285 | every item before the cancel is processed, only the cancelled item is "Cancelled", later rows are untouched, the progress is the count attempted, and no output disappears |
| `TrialConverter.TrialAllDone` | tk.trial_1.py:275-277 | when nothing is cancelled and every item succeeds, every row ends "Done" |
| `TrialConverter.TrialItemWrites` | tk.trial_1.py:267-273 | an item only adds outputs, and a successful one leaves `dir/stem.parquet` and `dir/stem.csv` for the enabled formats |
| `TrialConverter.TrialLoopWrites` | tk.trial_1.py:253-285 | the loop only adds outputs, and every successful item before the cancel leaves its enabled formats' files |
| `TrialConverter.TrialCheckIsCheck` | tk.trial_1.py:201-220 | the trial pre-flight is the full one with subfolder, timestamp and skip mode off, so its collision list is `stem.parquet`/`stem.csv` in queue order; it leaves the disk unchanged |
| `TrialConverter.TrialCheckRunsIff` | tk.trial_1.py:201-220 | a trial run starts exactly when every check passes and the user confirms or no planned output exists, and it starts in the stripped folder |
| `TrialConverter.RunTrialChecks` | tk.trial_1.py:201-220 | the checks with early returns compute `TrialCheck` |
| `TrialConverter.TrialWrite` | tk.trial_1.py:260-277 | the imperative decoder block computes the trial's success and its outputs |
| `TrialConverter.TrialApp.constructor` | tk.trial_1.py:69-77 | an empty queue and view, identifiers from 0, not running, no stop request, the progress bar at 0 of 100 (configured at tk.trial_1.py:128), parquet and csv on, no output folder |
| `TrialConverter.TrialApp.AddFiles` | tk.trial_1.py:155-167 | an empty dialog result changes nothing; otherwise each existing, not-yet-queued path is appended with a new numbered "Queued" row and a fresh identifier; the run flag, stop flag, progress bar and options are unchanged |
| `TrialConverter.TrialApp.RemoveSelected` | tk.trial_1.py:169-176 | refused while running; otherwise the queue after the stale-number pops and the renumbered unselected rows; identifiers, run flag, stop flag, progress bar and options are unchanged |
| `TrialConverter.TrialApp.ClearList` | tk.trial_1.py:178-182 | refused while running; otherwise the queue and the rows are empty; identifiers, run flag, stop flag, progress bar and options are unchanged |
| `TrialConverter.TrialApp.OnConvert` | tk.trial_1.py:201-232 | the verdict is `TrialCheck` on the current queue and options; a refusal leaves the run state as it was; a start sets running, clears the stop flag and resets the progress |
| `TrialConverter.TrialApp.OnCancel` | tk.trial_1.py:234-237 | the stop flag is set exactly when a run is going on or it already was; the queue, rows, identifiers, run flag, progress bar and options are unchanged, and the queue invariants still hold |
| `TrialConverter.TrialApp.RunItem` | tk.trial_1.py:258-285 | one trial iteration on the object's rows computes `TrialItem`, keeping the queue invariants |
| `TrialConverter.TrialApp.RunLoop` | tk.trial_1.py:253-285 | given a stop flag already set is seen by the first read, the loop over the queue computes `TrialLoop` from the initial state, keeping the queue invariants |
| `TrialConverter.TrialApp.WorkerRun` | tk.trial_1.py:240-293 | given a stop flag already set is seen by the first read, the rows, progress and outputs are those of `TrialWorker` on the queue and options as the run starts; the run ends not running with the progress maximum and the queue invariants kept, and the stop flag, read again by the end-of-run notice (tk.trial_1.py:335), is set exactly when it was or a read during the run saw it |

## Left out

- Widgets, menus, themes, toasts, the log pane and message boxes. The overwrite prompt's answer is a parameter.
- The worker thread and the `threading.Event`. The worker is one sequential method, and the stop-flag reads are the `cancelAt` oracle: the first read that sees the flag. A flag already set when the worker starts is seen by that first read (the `WorkerRun` and `RunLoop` methods require it), and `cancelAt` equal to the queue length is a press seen only by the read after the loop.
- The decoder, pyarrow, pandas and zipfile. Each is a per-step success oracle, and the archive is its path and its member names. The zip byte format is not modelled. A repeated name is a repeated member; zipfile's duplicate-name warning is not modelled.
- The sys.path probing of `_import_decoder` and the import attempts of `_check_deps`. The missing-dependency list and the import outcome are inputs.
- The clock (`ts_now`): each reading is a parameter.
- Saving and restoring settings (`load_settings`, `save_settings`, `_persist_settings`, `_restore_settings`): best-effort file I/O. The constructor therefore starts from the built-in defaults.
- `_open_output`, `_save_log`, `_on_row_double_click`, `_choose_output` and `_end_run`: operating-system calls and widget state only. `_end_run` first calls the progress bar's `stop()`, which may reset the bar's value. The `progress` the `WorkerRun` methods ensure is the value of the last `_set_progress` call.
- `Paths.PathExists`: a file the run itself wrote (an output) is not counted as an existing path. So choosing a written parquet or csv file as a source, or as the output folder, is not modelled.
- `Converter.App.WorkerRun`: the skip-mode and zip checkboxes are read live during the run (`env.skipAt`, `env.zipLive`), but the method ensures the `skipExisting` and `zipOutputs` fields are unchanged. A toggle during a run is seen only through `env`, because the handlers that set those fields cannot interleave with the one-method worker.
- Path parsing: a source is a record of its path, stem and suffix, and the drop handler turns strings into sources through a `pathOf` parameter.
- `Paths.Lower`: lower-cases ASCII letters only, not all of Unicode. Its one use, the `.udf`/`.bin` suffix test, gets the same answer either way: the only non-ASCII character whose lower case contains `.`, `u`, `d`, `f`, `b`, `i` or `n` is U+0130, and it lower-cases to two characters.
- The scaling option and the user message: they only reach the decoder, which is an oracle.
- Adding files while a run is going on: the worker runs to completion inside one method, so adds cannot interleave with it.
- Partial files from a write that raises: a failed write leaves no output.
- Exceptions raised outside an item's own handler, other than a failed import and a failed archive creation.
