/**
 * The converter application of `tk.py` as an object: the queue, the rows
 * of the queue view, the run flags, the progress bar and the options.
 *
 * File dialogs, the drop event, the overwrite prompt, the dependency
 * probe, the clock and the filesystem are parameters of the handlers; the
 * worker is one sequential method whose stop-flag reads, live option reads
 * and library outcomes come from an `Env`.
 */
module Converter {
  import opened Wrappers
  import opened Paths
  import opened Planner
  import opened Rows
  import opened Seqs
  import DragDrop
  import opened Queue
  import opened Preflight
  import opened Batch

  /** The dropped strings as sources, through the path library. */
  function DroppedSources(paths: seq<string>, pathOf: string -> Source): (r: seq<Source>)
    ensures |r| == |paths| && forall i :: 0 <= i < |paths| ==> r[i] == pathOf(paths[i])
  {
    seq(|paths|, i requires 0 <= i < |paths| => pathOf(paths[i]))
  }

  /** The decoder block of one item: the parquet write, then the csv
      write, each run only while everything before it succeeded, then the
      release of the decoder. */
  method WritePlanned(produced: seq<OutFile>, outputs: set<OutFile>, plan: Plan, a: Attempt)
    returns (ok: bool, produced': seq<OutFile>, outputs': set<OutFile>)
    ensures Written(ok, produced', outputs') == Write(produced, outputs, plan, a)
  {
    ok, produced', outputs' := a.decodeOk, produced, outputs;
    if ok && plan.parquet.Some? {
      if a.parquetOk {
        produced', outputs' := produced' + [plan.parquet.value], outputs' + {plan.parquet.value};
      } else {
        ok := false;
      }
    }
    if ok && plan.csv.Some? {
      if a.csvOk {
        produced', outputs' := produced' + [plan.csv.value], outputs' + {plan.csv.value};
      } else {
        ok := false;
      }
    }
    ok := ok && a.releaseOk;
  }

  /** The body of the worker loop for `src`, the idx-th item: its row
      turns "Running", then "Skipped" when skip mode is on and a planned
      output exists, else the writes run and the row turns "Done" or
      "Error". */
  method ItemStep(st: RunState, src: Source, idx: nat, lay: Layout, skip: bool, a: Attempt) returns (st': RunState)
    ensures st' == ProcessItem(st, src, idx, lay, skip, a)
  {
    var r := SetStatus(st.rows, src, Running, Run, "", "");
    var plan := PlanOf(src, lay);
    if skip && AnyExists(plan, st.outputs) {
      r := SetStatus(r, src, Skipped, Wait, ExistingColumn(plan.parquet, st.outputs), ExistingColumn(plan.csv, st.outputs));
      st' := st.(rows := r, progress := idx);
    } else {
      var ok, produced, outputs := WritePlanned(st.produced, st.outputs, plan, a);
      if ok {
        r := SetStatus(r, src, Done, Ok, DoneColumn(plan.parquet), DoneColumn(plan.csv));
      } else {
        r := SetStatus(r, src, Error, Err, "", "");
      }
      st' := RunState(r, produced, outputs, idx);
    }
  }

  /** The archive loop: each produced path is added under its base name;
      a failed add is logged and the loop goes on. */
  method ZipMembers(produced: seq<OutFile>, addOk: nat -> bool) returns (members: seq<FileName>)
    ensures members == MembersFrom(produced, 0, addOk)
  {
    members := [];
    var j := 0;
    while j < |produced|
      invariant 0 <= j <= |produced|
      invariant members + MembersFrom(produced, j, addOk) == MembersFrom(produced, 0, addOk)
    {
      var add := if addOk(j) then [produced[j].name] else [];
      assert MembersFrom(produced, j, addOk) == add + MembersFrom(produced, j + 1, addOk);
      assert members + add + MembersFrom(produced, j + 1, addOk) == members + (add + MembersFrom(produced, j + 1, addOk));
      members := members + add;
      j := j + 1;
    }
    assert members + [] == members;
  }

  /** The archive step of `_worker_run`. */
  method Bundle(produced: seq<OutFile>, dir: string, env: Env) returns (archive: Option<Archive>, failed: bool)
    ensures (archive, failed) == Bundled(produced, dir, env)
  {
    archive, failed := None, false;
    if env.zipLive && produced != [] {
      if env.zipOpenOk {
        var members := ZipMembers(produced, env.addOk);
        archive := Some(Archive(Child(dir, ArchiveName(env.zipStamp)), members));
      } else {
        failed := true;
      }
    }
  }

  class App {
    var files: seq<Source>
    var rows: seq<Row>
    /** The view identifier the next inserted row receives. */
    var nextId: nat
    var isRunning: bool
    var stopFlag: bool
    var progress: int
    var progressMax: int
    var outputDir: string
    var writeParquet: bool
    var writeCsv: bool
    var subfolder: bool
    var timestampSuffix: bool
    var skipExisting: bool
    var zipOutputs: bool

    /** The queue, the view and the identifiers agree with each other. */
    predicate Valid()
      reads this
    {
      UniqueIds(rows) && IdsBelow(rows, nextId) && Numbered(rows) && Distinct(files)
    }

    /** The options as the pre-flight reads them. */
    function Opts(): Options
      reads this
    {
      Options(outputDir, writeParquet, writeCsv, subfolder, timestampSuffix, skipExisting)
    }

    /** No option changed since the start of the handler. */
    twostate predicate SameOptions()
      reads this
    {
      && outputDir == old(outputDir) && writeParquet == old(writeParquet) && writeCsv == old(writeCsv)
      && subfolder == old(subfolder) && timestampSuffix == old(timestampSuffix)
      && skipExisting == old(skipExisting) && zipOutputs == old(zipOutputs)
    }

    /** The run flag, the stop flag and the progress bar are as before. */
    twostate predicate SameRun()
      reads this
    {
      isRunning == old(isRunning) && stopFlag == old(stopFlag) && progress == old(progress) && progressMax == old(progressMax)
    }

    /** An empty queue, no run, a progress bar at 0 of 100, and the option
        defaults. */
    constructor ()
      ensures Valid()
      ensures files == [] && rows == [] && nextId == 0 && !isRunning && !stopFlag
      ensures progress == 0 && progressMax == 100
      ensures outputDir == "" && writeParquet && writeCsv && !subfolder && !timestampSuffix
      ensures skipExisting && !zipOutputs
    {
      files, rows, nextId := [], [], 0;
      isRunning, stopFlag := false, false;
      progress, progressMax := 0, 100;
      outputDir := "";
      writeParquet, writeCsv := true, true;
      subfolder, timestampSuffix := false, false;
      skipExisting, zipOutputs := true, false;
    }

    /** Appends each admitted path with a "Queued" row, then renumbers. */
    method Admit(paths: seq<Source>, disk: Disk, dropped: bool)
      requires Valid()
      modifies this
      ensures Valid()
      ensures files == Admitted(old(files), paths, disk, dropped)
      ensures |old(files)| <= |files| && |rows| == |old(rows)| + (|files| - |old(files)|)
      ensures rows[..|old(rows)|] == old(rows)
      ensures forall k :: |old(rows)| <= k < |rows| ==>
        rows[k] == Row(old(nextId) + (k - |old(rows)|), k + 1, files[|old(files)| + (k - |old(rows)|)], Queued, "", "", Wait)
      ensures nextId == old(nextId) + (|files| - |old(files)|)
      ensures Tracks(old(files), old(rows)) ==> Tracks(files, rows)
      ensures SameRun() && SameOptions()
    {
      files, rows, nextId := AdmitRenumber(files, rows, nextId, paths, disk, dropped);
    }

    /** `_add_files`: the paths chosen in the dialog, in order; an empty
        choice returns at once. */
    method AddFiles(paths: seq<Source>, disk: Disk)
      requires Valid()
      modifies this
      ensures Valid()
      ensures paths == [] ==> files == old(files) && rows == old(rows) && nextId == old(nextId)
      ensures files == Admitted(old(files), paths, disk, false)
      ensures |old(files)| <= |files| && |rows| == |old(rows)| + (|files| - |old(files)|)
      ensures rows[..|old(rows)|] == old(rows)
      ensures forall k :: |old(rows)| <= k < |rows| ==>
        rows[k] == Row(old(nextId) + (k - |old(rows)|), k + 1, files[|old(files)| + (k - |old(rows)|)], Queued, "", "", Wait)
      ensures nextId == old(nextId) + (|files| - |old(files)|)
      ensures Tracks(old(files), old(rows)) ==> Tracks(files, rows)
      ensures SameRun() && SameOptions()
    {
      if paths == [] {
        return;
      }
      Admit(paths, disk, false);
    }

    /** `_on_drop_files`: the dropped list is parsed and each path is
        admitted when it exists, has a UDF/BIN suffix and is not queued. */
    method DropFiles(data: string, disk: Disk, pathOf: string -> Source)
      requires Valid()
      modifies this
      ensures Valid()
      ensures files == Admitted(old(files), DroppedSources(DragDrop.Parse(data), pathOf), disk, true)
      ensures |old(files)| <= |files| && |rows| == |old(rows)| + (|files| - |old(files)|)
      ensures rows[..|old(rows)|] == old(rows)
      ensures forall k :: |old(rows)| <= k < |rows| ==>
        rows[k] == Row(old(nextId) + (k - |old(rows)|), k + 1, files[|old(files)| + (k - |old(rows)|)], Queued, "", "", Wait)
      ensures nextId == old(nextId) + (|files| - |old(files)|)
      ensures Tracks(old(files), old(rows)) ==> Tracks(files, rows)
      ensures SameRun() && SameOptions()
    {
      var parsed := DragDrop.ParseDndList(data);
      var paths: seq<Source> := [];
      var i := 0;
      while i < |parsed|
        invariant 0 <= i <= |parsed|
        invariant paths == DroppedSources(parsed[..i], pathOf)
      {
        paths := paths + [pathOf(parsed[i])];
        i := i + 1;
      }
      assert parsed[..|parsed|] == parsed;
      Admit(paths, disk, true);
    }

    /** `_remove_selected`: refused while running; otherwise each selected
        row pops the file at its displayed number minus one, when in range,
        and is deleted; then the rows are renumbered. */
    method RemoveSelected(selection: seq<nat>)
      requires Valid() && SelectionValid(rows, selection)
      modifies this
      ensures Valid()
      ensures old(isRunning) ==> files == old(files) && rows == old(rows)
      ensures !old(isRunning) ==>
        && files == Removed(old(files), old(rows), selection).0
        && rows == Renumbered(Unselected(old(rows), selection))
      ensures nextId == old(nextId) && SameRun() && SameOptions()
    {
      if isRunning {
        return;
      }
      files, rows := RemoveRenumber(files, rows, selection, nextId);
    }

    /** `_clear_list`: refused while running; otherwise empties the queue
        and the view. */
    method ClearList()
      requires Valid()
      modifies this
      ensures Valid()
      ensures old(isRunning) ==> files == old(files) && rows == old(rows)
      ensures !old(isRunning) ==> files == [] && rows == []
      ensures nextId == old(nextId) && SameRun() && SameOptions()
    {
      if isRunning {
        return;
      }
      files, rows := [], [];
    }

    /** `_on_cancel`: sets the stop flag while a run is going on. */
    method OnCancel()
      requires Valid()
      modifies this
      ensures Valid()
      ensures stopFlag == (old(stopFlag) || old(isRunning))
      ensures files == old(files) && rows == old(rows) && nextId == old(nextId)
      ensures isRunning == old(isRunning) && progress == old(progress) && progressMax == old(progressMax)
      ensures SameOptions()
    {
      if isRunning {
        stopFlag := true;
      }
    }

    /** `_on_convert`: the pre-flight; when it lets the run start, the run
        flag is raised, the stop flag cleared and the progress bar reset
        to 0 of max(1, |files|). */
    method OnConvert(disk: Disk, missing: seq<string>, stamp: string, confirm: bool)
      returns (verdict: Verdict, disk': Disk)
      modifies this
      ensures (verdict, disk') == Check(old(files), old(Opts()), disk, missing, stamp, confirm)
      ensures verdict.Refused? ==>
        isRunning == old(isRunning) && stopFlag == old(stopFlag) && progress == old(progress) && progressMax == old(progressMax)
      ensures verdict.Proceed? ==>
        isRunning && !stopFlag && progress == 0 && progressMax == (if |files| > 1 then |files| else 1)
      ensures files == old(files) && rows == old(rows) && nextId == old(nextId) && SameOptions()
      ensures zipOutputs == old(zipOutputs)
    {
      verdict, disk' := RunChecks(files, Opts(), disk, missing, stamp, confirm);
      if verdict.Refused? {
        return;
      }
      isRunning, stopFlag := true, false;
      progress := 0;
      progressMax := if |files| > 1 then |files| else 1;
    }

    /** One pass of the worker loop on the item at index i, through
        ItemStep; the progress bar then shows i + 1. */
    method RunItem(i: nat, lay: Layout, skip: bool, a: Attempt, produced: seq<OutFile>, outputs: set<OutFile>)
      returns (produced': seq<OutFile>, outputs': set<OutFile>)
      requires Valid() && i < |files|
      modifies this
      ensures Valid()
      ensures files == old(files) && nextId == old(nextId) && SameOptions()
      ensures RunState(rows, produced', outputs', progress)
           == ProcessItem(RunState(old(rows), produced, outputs, old(progress)), files[i], i + 1, lay, skip, a)
      ensures isRunning == old(isRunning) && stopFlag == old(stopFlag) && progressMax == old(progressMax)
    {
      var st := RunState(rows, produced, outputs, progress);
      var st' := ItemStep(st, files[i], i + 1, lay, skip, a);
      ProcessItemSameFrame(st, files[i], i + 1, lay, skip, a);
      SameFrameKeeps(rows, st'.rows, nextId);
      rows, progress := st'.rows, st'.progress;
      produced', outputs' := st'.produced, st'.outputs;
    }

    /** The loop of `_worker_run`: before each item the stop flag is read,
        and the first read that sees it marks that item "Cancelled" and
        ends the loop; every other item goes through RunItem. */
    method RunLoop(lay: Layout, env: Env, outputs0: set<OutFile>) returns (produced: seq<OutFile>, outputs: set<OutFile>)
      requires Valid() && (stopFlag ==> env.cancelAt == 0)
      modifies this
      ensures Valid()
      ensures files == old(files) && nextId == old(nextId) && SameOptions()
      ensures isRunning == old(isRunning) && stopFlag == old(stopFlag) && progressMax == old(progressMax)
      ensures RunState(rows, produced, outputs, progress) == RunFrom(files, 0, Initial(old(rows), outputs0, old(progress)), lay, env)
    {
      produced, outputs := [], outputs0;
      ghost var item := Item(files, lay, env);
      ghost var target := RunFrom(files, 0, Initial(rows, outputs0, progress), lay, env);
      var i := 0;
      var cancelled := false;
      while i < |files| && !cancelled
        invariant 0 <= i <= |files|
        invariant Valid()
        invariant !cancelled ==> Loop(files, i, RunState(rows, produced, outputs, progress), env.cancelAt, item) == target
        invariant cancelled ==> RunState(rows, produced, outputs, progress) == target
        invariant files == old(files) && nextId == old(nextId) && SameOptions()
        invariant isRunning == old(isRunning) && stopFlag == old(stopFlag) && progressMax == old(progressMax)
        decreases |files| - i, !cancelled
      {
        ghost var cur := RunState(rows, produced, outputs, progress);
        if env.cancelAt <= i {
          var r := SetStatus(rows, files[i], Cancelled, Err, "", "");
          StatusUpdatedFrame(rows, files[i], Cancelled, Err, "", "");
          SameFrameKeeps(rows, r, nextId);
          rows, cancelled := r, true;
        } else {
          produced, outputs := RunItem(i, lay, env.skipAt(i), env.attempt(i), produced, outputs);
          assert RunState(rows, produced, outputs, progress) == item(cur, i);
          i := i + 1;
        }
      }
    }

    /** `_worker_run` on base directory `outDir`, with `stamp` the clock
        reading for the name suffix.  The run's rows, progress, outputs,
        archive and stopped flag are those of `Worker`; the run flag is
        lowered and the stop flag holds what its final read saw. */
    method WorkerRun(outDir: string, disk: Disk, stamp: string, env: Env)
      returns (disk': Disk, archive: Option<Archive>, stopped: bool)
      requires Valid() && (stopFlag ==> env.cancelAt == 0)
      modifies this
      ensures Valid()
      ensures var lay := Layout(outDir, NameSuffix(old(timestampSuffix), stamp), old(writeParquet), old(writeCsv));
        var o := Worker(old(files), old(rows), disk.outputs, old(progress), lay, env);
        && rows == o.state.rows && progress == o.state.progress
        && disk' == disk.(outputs := o.state.outputs)
        && archive == o.archive && stopped == o.stopped
      ensures !isRunning && files == old(files) && nextId == old(nextId) && progressMax == old(progressMax)
      ensures SameOptions()
      ensures stopFlag == (old(stopFlag) || (env.importOk && env.cancelAt <= |files|))
    {
      var lay := Layout(outDir, NameSuffix(timestampSuffix, stamp), writeParquet, writeCsv);
      archive := None;
      if !env.importOk {
        isRunning := false;
        disk', stopped := disk, true;
        assert disk.(outputs := disk.outputs) == disk;
        return;
      }
      var produced, outputs := RunLoop(lay, env, disk.outputs);
      var failed;
      archive, failed := Bundle(produced, outDir, env);
      disk' := disk.(outputs := outputs);
      stopFlag := stopFlag || env.cancelAt <= |files|;
      stopped := env.cancelAt <= |files| || failed;
      isRunning := false;
    }
  }
}
