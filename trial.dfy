/**
 * The earlier converter of `tk.trial_1.py`: the same queue and view, a
 * shorter pre-flight (no export subfolder, the overwrite prompt always
 * asked when a planned output exists) and a worker without name suffix,
 * skip mode, produced list or archive.  The worker re-reads the output
 * folder option when it starts.
 *
 * The worker is given its own definition, `TrialWorker`, and proved to
 * agree with the full engine's `Worker` once the features the trial lacks
 * are switched off; the full engine's facts then carry over.
 */
module TrialConverter {
  import opened Wrappers
  import opened Paths
  import opened Planner
  import opened Rows
  import opened Queue
  import opened Preflight
  import opened Batch

  /** What the trial worker reads besides the queue: the stop-flag read
      that first sees the flag set, the outcome of each item's steps, and
      whether the libraries can be imported. */
  datatype TrialEnv = TrialEnv(cancelAt: nat, attempt: nat -> Attempt, importOk: bool)

  /** The state the trial loop changes. */
  datatype TrialState = TrialState(rows: seq<Row>, outputs: set<OutFile>, progress: int)

  /** Where the trial writes format `f` of `src`: `dir/stem.ext`. */
  function Target(dir: string, src: Source, f: Format): OutFile
  {
    OutFile(dir, FileName(src.stem, f))
  }

  // ---------------------------------------------------------------------
  // The worker as a function.
  // ---------------------------------------------------------------------

  /** Whether an item's decoder block succeeds: the read, each enabled
      write (the parquet one first) and the release. */
  predicate TrialOk(a: Attempt, doParquet: bool, doCsv: bool)
  {
    a.decodeOk && (doParquet ==> a.parquetOk) && (doCsv ==> a.csvOk) && a.releaseOk
  }

  /** The outputs after an item's decoder block: a write runs only when
      its format is on and every step before it succeeded. */
  function TrialOutputs(outputs: set<OutFile>, src: Source, dir: string, doParquet: bool, doCsv: bool, a: Attempt): set<OutFile>
  {
    var parquetWritten := a.decodeOk && doParquet && a.parquetOk;
    var csvWritten := a.decodeOk && (doParquet ==> a.parquetOk) && doCsv && a.csvOk;
    outputs + (if parquetWritten then {Target(dir, src, Parquet)} else {})
            + (if csvWritten then {Target(dir, src, Csv)} else {})
  }

  /** One item: the row turns "Running"; the decoder block runs; the row
      turns "Done", with a check mark for each enabled format, or "Error";
      the progress shows idx. */
  function TrialItem(st: TrialState, src: Source, idx: nat, dir: string, doParquet: bool, doCsv: bool, a: Attempt): TrialState
  {
    var rows := StatusUpdated(st.rows, src, Running, Run, "", "");
    var rows' := if TrialOk(a, doParquet, doCsv)
                 then StatusUpdated(rows, src, Done, Ok, if doParquet then CheckMark else "", if doCsv then CheckMark else "")
                 else StatusUpdated(rows, src, Error, Err, "", "");
    TrialState(rows', TrialOutputs(st.outputs, src, dir, doParquet, doCsv, a), idx)
  }

  /** A trial item keeps every row's identifier, number and path. */
  lemma TrialItemSameFrame(st: TrialState, src: Source, idx: nat, dir: string, doParquet: bool, doCsv: bool, a: Attempt)
    ensures SameFrame(st.rows, TrialItem(st, src, idx, dir, doParquet, doCsv, a).rows)
  {
    var rows := StatusUpdated(st.rows, src, Running, Run, "", "");
    StatusUpdatedFrame(st.rows, src, Running, Run, "", "");
    StatusUpdatedFrame(rows, src, Done, Ok, if doParquet then CheckMark else "", if doCsv then CheckMark else "");
    StatusUpdatedFrame(rows, src, Error, Err, "", "");
  }

  /** The trial loop from item i on; the first stop-flag read that sees
      the flag marks its item "Cancelled" and ends the loop. */
  function TrialLoop(files: seq<Source>, i: nat, st: TrialState, dir: string, doParquet: bool, doCsv: bool, env: TrialEnv): TrialState
    requires i <= |files|
    decreases |files| - i
  {
    if i == |files| then st
    else if env.cancelAt <= i then st.(rows := StatusUpdated(st.rows, files[i], Cancelled, Err, "", ""))
    else TrialLoop(files, i + 1, TrialItem(st, files[i], i + 1, dir, doParquet, doCsv, env.attempt(i)), dir, doParquet, doCsv, env)
  }

  /** `_worker_run` of the trial: without the libraries nothing changes;
      otherwise the loop runs in the stripped output folder. */
  function TrialWorker(files: seq<Source>, rows: seq<Row>, outputs: set<OutFile>, progress: int,
                       outputDir: string, doParquet: bool, doCsv: bool, env: TrialEnv): TrialState
  {
    var st := TrialState(rows, outputs, progress);
    if !env.importOk then st else TrialLoop(files, 0, st, Strip(outputDir), doParquet, doCsv, env)
  }

  // ---------------------------------------------------------------------
  // Agreement with the full engine.
  // ---------------------------------------------------------------------

  /** The full engine's reads with skip mode and the archive off. */
  function FullEnv(env: TrialEnv): Env
  {
    Env(env.cancelAt, (j: nat) => false, env.attempt, env.importOk, false, false, "", (j: nat) => false)
  }

  /** The full engine's layout with no name suffix. */
  function TrialLayout(dir: string, doParquet: bool, doCsv: bool): Layout
  {
    Layout(dir, "", doParquet, doCsv)
  }

  /** The trial's rows, outputs and progress, with a produced list beside them. */
  predicate Agrees(r: RunState, t: TrialState)
  {
    r.rows == t.rows && r.outputs == t.outputs && r.progress == t.progress
  }

  /** The decoder block of the full engine, on the trial's plan. */
  lemma TrialWriteAgrees(produced: seq<OutFile>, outputs: set<OutFile>, src: Source, dir: string,
                         doParquet: bool, doCsv: bool, a: Attempt)
    ensures var w := Write(produced, outputs, PlanOf(src, TrialLayout(dir, doParquet, doCsv)), a);
      w.ok == TrialOk(a, doParquet, doCsv) && w.outputs == TrialOutputs(outputs, src, dir, doParquet, doCsv, a)
  {
    assert src.stem + "" == src.stem;
    var plan := PlanOf(src, TrialLayout(dir, doParquet, doCsv));
    assert plan.parquet == (if doParquet then Some(Target(dir, src, Parquet)) else None);
    assert plan.csv == (if doCsv then Some(Target(dir, src, Csv)) else None);
  }

  /** One trial item does what one item of the full engine does without
      skip mode and without a suffix. */
  lemma TrialItemAgrees(st: TrialState, produced: seq<OutFile>, src: Source, idx: nat, dir: string,
                        doParquet: bool, doCsv: bool, a: Attempt)
    ensures Agrees(ProcessItem(RunState(st.rows, produced, st.outputs, st.progress), src, idx,
                               TrialLayout(dir, doParquet, doCsv), false, a),
                   TrialItem(st, src, idx, dir, doParquet, doCsv, a))
  {
    var plan := PlanOf(src, TrialLayout(dir, doParquet, doCsv));
    TrialWriteAgrees(produced, st.outputs, src, dir, doParquet, doCsv, a);
    assert DoneColumn(plan.parquet) == (if doParquet then CheckMark else "");
    assert DoneColumn(plan.csv) == (if doCsv then CheckMark else "");
  }

  /** The trial loop agrees with the full engine's loop from any item on. */
  lemma {:induction false} TrialLoopAgrees(files: seq<Source>, i: nat, st: TrialState, produced: seq<OutFile>,
                                           dir: string, doParquet: bool, doCsv: bool, env: TrialEnv)
    requires i <= |files|
    ensures Agrees(RunFrom(files, i, RunState(st.rows, produced, st.outputs, st.progress), TrialLayout(dir, doParquet, doCsv), FullEnv(env)),
                   TrialLoop(files, i, st, dir, doParquet, doCsv, env))
    decreases |files| - i
  {
    if i < |files| && i < env.cancelAt {
      var lay := TrialLayout(dir, doParquet, doCsv);
      var s := RunState(st.rows, produced, st.outputs, st.progress);
      var item := Item(files, lay, FullEnv(env));
      var next := ProcessItem(s, files[i], i + 1, lay, false, env.attempt(i));
      assert item(s, i) == next;
      assert RunFrom(files, i, s, lay, FullEnv(env)) == RunFrom(files, i + 1, next, lay, FullEnv(env));
      var t := TrialItem(st, files[i], i + 1, dir, doParquet, doCsv, env.attempt(i));
      TrialItemAgrees(st, produced, files[i], i + 1, dir, doParquet, doCsv, env.attempt(i));
      assert next == RunState(t.rows, next.produced, t.outputs, t.progress);
      TrialLoopAgrees(files, i + 1, t, next.produced, dir, doParquet, doCsv, env);
    }
  }

  /** The trial worker is the full worker with no suffix, skip mode and
      archive off, in the stripped output folder: same rows, outputs and
      progress, no archive, and it ends stopped exactly when an import
      fails or a stop-flag read sees the flag. */
  lemma TrialWorkerAgrees(files: seq<Source>, rows: seq<Row>, outputs: set<OutFile>, progress: int,
                          outputDir: string, doParquet: bool, doCsv: bool, env: TrialEnv)
    ensures var o := Worker(files, rows, outputs, progress, TrialLayout(Strip(outputDir), doParquet, doCsv), FullEnv(env));
      && Agrees(o.state, TrialWorker(files, rows, outputs, progress, outputDir, doParquet, doCsv, env))
      && o.archive.None?
      && (o.stopped <==> !env.importOk || env.cancelAt <= |files|)
  {
    if env.importOk {
      TrialLoopAgrees(files, 0, TrialState(rows, outputs, progress), [], Strip(outputDir), doParquet, doCsv, env);
    }
  }

  /** What the trial worker leaves in the view: the rows still show the
      queue; every item before the cancelled one ends "Done" or "Error";
      the cancelled one shows "Cancelled" and every later row is as it
      was; the progress shows the last item attempted; outputs only grow. */
  lemma TrialWorkerRows(files: seq<Source>, rows: seq<Row>, outputs: set<OutFile>, progress: int,
                        outputDir: string, doParquet: bool, doCsv: bool, env: TrialEnv)
    requires Tracks(files, rows) && Distinct(files) && env.importOk
    ensures var t := TrialWorker(files, rows, outputs, progress, outputDir, doParquet, doCsv, env);
      var c := env.cancelAt;
      && Tracks(files, t.rows)
      && (forall j :: 0 <= j < c && j < |files| ==> Processed(t.rows[j].status))
      && (c < |files| ==> t.rows[c].status == Cancelled)
      && (forall j :: c < j < |files| ==> t.rows[j] == rows[j])
      && t.progress == (if 0 < c && 0 < |files| then (if c < |files| then c else |files|) else progress)
      && outputs <= t.outputs
  {
    var lay := TrialLayout(Strip(outputDir), doParquet, doCsv);
    TrialWorkerAgrees(files, rows, outputs, progress, outputDir, doParquet, doCsv, env);
    WorkerRows(files, rows, outputs, progress, lay, FullEnv(env));
  }

  /** When nothing is cancelled and every step succeeds, every item ends
      "Done". */
  lemma TrialAllDone(files: seq<Source>, rows: seq<Row>, outputs: set<OutFile>, progress: int,
                     outputDir: string, doParquet: bool, doCsv: bool, env: TrialEnv)
    requires Tracks(files, rows) && Distinct(files) && env.importOk && |files| < env.cancelAt
    requires forall j :: 0 <= j < |files| ==> Succeeds(env.attempt(j))
    ensures var t := TrialWorker(files, rows, outputs, progress, outputDir, doParquet, doCsv, env);
      |t.rows| == |files| && forall j :: 0 <= j < |files| ==> t.rows[j].status == Done
  {
    var lay := TrialLayout(Strip(outputDir), doParquet, doCsv);
    TrialWorkerAgrees(files, rows, outputs, progress, outputDir, doParquet, doCsv, env);
    WorkerAllSucceed(files, rows, outputs, progress, lay, FullEnv(env));
  }

  /** The enabled formats' files of `src` exist. */
  predicate WrittenFor(outputs: set<OutFile>, dir: string, src: Source, doParquet: bool, doCsv: bool)
  {
    (doParquet ==> Target(dir, src, Parquet) in outputs) && (doCsv ==> Target(dir, src, Csv) in outputs)
  }

  /** An item only adds outputs, and one whose steps all succeed leaves
      each enabled format's file on disk. */
  lemma TrialItemWrites(st: TrialState, src: Source, idx: nat, dir: string, doParquet: bool, doCsv: bool, a: Attempt)
    ensures var next := TrialItem(st, src, idx, dir, doParquet, doCsv, a);
      && st.outputs <= next.outputs
      && (Succeeds(a) ==> WrittenFor(next.outputs, dir, src, doParquet, doCsv))
  {
    assert TrialItem(st, src, idx, dir, doParquet, doCsv, a).outputs == TrialOutputs(st.outputs, src, dir, doParquet, doCsv, a);
  }

  /** The trial loop only adds outputs, and every item it reaches whose
      steps all succeed leaves each enabled format's file on disk. */
  lemma {:induction false} TrialLoopWrites(files: seq<Source>, i: nat, st: TrialState, dir: string,
                                           doParquet: bool, doCsv: bool, env: TrialEnv)
    requires i <= |files|
    ensures st.outputs <= TrialLoop(files, i, st, dir, doParquet, doCsv, env).outputs
    ensures forall j :: i <= j < |files| && j < env.cancelAt && Succeeds(env.attempt(j)) ==>
      WrittenFor(TrialLoop(files, i, st, dir, doParquet, doCsv, env).outputs, dir, files[j], doParquet, doCsv)
    decreases |files| - i
  {
    if i < |files| && i < env.cancelAt {
      var next := TrialItem(st, files[i], i + 1, dir, doParquet, doCsv, env.attempt(i));
      var t := TrialLoop(files, i + 1, next, dir, doParquet, doCsv, env);
      assert TrialLoop(files, i, st, dir, doParquet, doCsv, env) == t;
      TrialItemWrites(st, files[i], i + 1, dir, doParquet, doCsv, env.attempt(i));
      TrialLoopWrites(files, i + 1, next, dir, doParquet, doCsv, env);
      forall j | i <= j < |files| && j < env.cancelAt && Succeeds(env.attempt(j))
        ensures WrittenFor(t.outputs, dir, files[j], doParquet, doCsv)
      {
        if j == i {
          assert WrittenFor(next.outputs, dir, files[i], doParquet, doCsv);
        }
      }
    }
  }

  // ---------------------------------------------------------------------
  // Pre-flight.
  // ---------------------------------------------------------------------

  /** `_on_convert` of the trial: the same refusals in the same order, no
      export subfolder, and the overwrite prompt whenever a planned
      `stem.parquet`/`stem.csv` exists; the run starts in the stripped
      output folder. */
  function TrialCheck(files: seq<Source>, outputDir: string, doParquet: bool, doCsv: bool, disk: Disk,
                      missing: seq<string>, confirm: bool): Verdict
  {
    var out := Strip(outputDir);
    if files == [] then Refused(NoFiles)
    else if !(doParquet || doCsv) then Refused(NoFormats)
    else if out == "" then Refused(NoOutputDir)
    else if !PathExists(disk, out) then Refused(OutputDirMissing)
    else if missing != [] then Refused(MissingDeps(missing))
    else if Collisions(files, TrialLayout(out, doParquet, doCsv), disk.outputs) != [] && !confirm then Refused(Declined)
    else Proceed(out)
  }

  /** The trial pre-flight is the full one with the subfolder, timestamp
      and skip options off, whatever the clock reads, and it leaves the
      disk as it is. */
  lemma TrialCheckIsCheck(files: seq<Source>, outputDir: string, doParquet: bool, doCsv: bool, disk: Disk,
                          missing: seq<string>, stamp: string, confirm: bool)
    ensures var opts := Options(outputDir, doParquet, doCsv, false, false, false);
      Check(files, opts, disk, missing, stamp, confirm) == (TrialCheck(files, outputDir, doParquet, doCsv, disk, missing, confirm), disk)
  {
    var opts := Options(outputDir, doParquet, doCsv, false, false, false);
    assert CheckLayout(opts, stamp) == TrialLayout(Strip(outputDir), doParquet, doCsv);
  }

  /** A trial run starts exactly when every check passes and either no
      planned output exists or the user confirms. */
  lemma TrialCheckRunsIff(files: seq<Source>, outputDir: string, doParquet: bool, doCsv: bool, disk: Disk,
                          missing: seq<string>, confirm: bool)
    ensures var v := TrialCheck(files, outputDir, doParquet, doCsv, disk, missing, confirm);
      var out := Strip(outputDir);
      && (v.Proceed? <==>
           && files != [] && (doParquet || doCsv) && out != "" && PathExists(disk, out) && missing == []
           && (confirm || forall k :: 0 <= k < |files| ==> !AnyExists(PlanOf(files[k], TrialLayout(out, doParquet, doCsv)), disk.outputs)))
      && (v.Proceed? ==> v.outDir == out)
  {
    CollisionsEmptyIff(files, TrialLayout(Strip(outputDir), doParquet, doCsv), disk.outputs);
  }

  /** The trial checks one after the other, each refusal returning at once. */
  method RunTrialChecks(files: seq<Source>, outputDir: string, doParquet: bool, doCsv: bool, disk: Disk,
                        missing: seq<string>, confirm: bool)
    returns (verdict: Verdict)
    ensures verdict == TrialCheck(files, outputDir, doParquet, doCsv, disk, missing, confirm)
  {
    if files == [] {
      return Refused(NoFiles);
    }
    if !(doParquet || doCsv) {
      return Refused(NoFormats);
    }
    var out := Strip(outputDir);
    if out == "" {
      return Refused(NoOutputDir);
    }
    if !PathExists(disk, out) {
      return Refused(OutputDirMissing);
    }
    if missing != [] {
      return Refused(MissingDeps(missing));
    }
    var hits := FindCollisions(files, TrialLayout(out, doParquet, doCsv), disk.outputs);
    if hits != [] && !confirm {
      return Refused(Declined);
    }
    return Proceed(out);
  }

  // ---------------------------------------------------------------------
  // The application object.
  // ---------------------------------------------------------------------

  /** The trial's decoder block: parquet write, csv write, release. */
  method TrialWrite(outputs: set<OutFile>, src: Source, dir: string, doParquet: bool, doCsv: bool, a: Attempt)
    returns (ok: bool, outputs': set<OutFile>)
    ensures ok == TrialOk(a, doParquet, doCsv) && outputs' == TrialOutputs(outputs, src, dir, doParquet, doCsv, a)
  {
    ok, outputs' := a.decodeOk, outputs;
    if ok && doParquet {
      if a.parquetOk {
        outputs' := outputs' + {Target(dir, src, Parquet)};
      } else {
        ok := false;
      }
    }
    if ok && doCsv {
      if a.csvOk {
        outputs' := outputs' + {Target(dir, src, Csv)};
      } else {
        ok := false;
      }
    }
    ok := ok && a.releaseOk;
  }

  class TrialApp {
    var files: seq<Source>
    var rows: seq<Row>
    /** The view identifier the next inserted row receives. */
    var nextId: nat
    var isRunning: bool
    var stopFlag: bool
    var progress: int
    var progressMax: int
    var outputDir: string
    var writeParquet: bool
    var writeCsv: bool

    /** The queue, the view and the identifiers agree with each other. */
    predicate Valid()
      reads this
    {
      UniqueIds(rows) && IdsBelow(rows, nextId) && Numbered(rows) && Distinct(files)
    }

    /** No option changed since the start of the handler. */
    twostate predicate SameOptions()
      reads this
    {
      outputDir == old(outputDir) && writeParquet == old(writeParquet) && writeCsv == old(writeCsv)
    }

    /** The run flag, the stop flag and the progress bar are as before. */
    twostate predicate SameRun()
      reads this
    {
      isRunning == old(isRunning) && stopFlag == old(stopFlag) && progress == old(progress) && progressMax == old(progressMax)
    }

    /** An empty queue, no run, a progress bar at 0 of 100, both formats on
        and no output folder. */
    constructor ()
      ensures Valid()
      ensures files == [] && rows == [] && nextId == 0 && !isRunning && !stopFlag
      ensures progress == 0 && progressMax == 100
      ensures outputDir == "" && writeParquet && writeCsv
    {
      files, rows, nextId := [], [], 0;
      isRunning, stopFlag := false, false;
      progress, progressMax := 0, 100;
      outputDir := "";
      writeParquet, writeCsv := true, true;
    }

    /** `_add_files`: an empty choice returns at once; otherwise each
        existing path not yet queued is appended with a "Queued" row, and
        the rows are renumbered. */
    method AddFiles(paths: seq<Source>, disk: Disk)
      requires Valid()
      modifies this
      ensures Valid()
      ensures paths == [] ==> files == old(files) && rows == old(rows) && nextId == old(nextId)
      ensures files == Admitted(old(files), paths, disk, false)
      ensures |old(files)| <= |files| && |rows| == |old(rows)| + (|files| - |old(files)|)
      ensures rows[..|old(rows)|] == old(rows)
      ensures forall k :: |old(rows)| <= k < |rows| ==>
        rows[k] == Row(old(nextId) + (k - |old(rows)|), k + 1, files[|old(files)| + (k - |old(rows)|)], Queued, "", "", Wait)
      ensures nextId == old(nextId) + (|files| - |old(files)|)
      ensures Tracks(old(files), old(rows)) ==> Tracks(files, rows)
      ensures SameRun() && SameOptions()
    {
      if paths == [] {
        return;
      }
      files, rows, nextId := AdmitRenumber(files, rows, nextId, paths, disk, false);
    }

    /** `_remove_selected`: refused while running; otherwise each selected
        row pops the file at its displayed number minus one, when in range,
        and is deleted; then the rows are renumbered. */
    method RemoveSelected(selection: seq<nat>)
      requires Valid() && SelectionValid(rows, selection)
      modifies this
      ensures Valid()
      ensures old(isRunning) ==> files == old(files) && rows == old(rows)
      ensures !old(isRunning) ==>
        && files == Removed(old(files), old(rows), selection).0
        && rows == Renumbered(Unselected(old(rows), selection))
      ensures nextId == old(nextId) && SameRun() && SameOptions()
    {
      if isRunning {
        return;
      }
      files, rows := RemoveRenumber(files, rows, selection, nextId);
    }

    /** `_clear_list`: refused while running; otherwise empties the queue
        and the view. */
    method ClearList()
      requires Valid()
      modifies this
      ensures Valid()
      ensures old(isRunning) ==> files == old(files) && rows == old(rows)
      ensures !old(isRunning) ==> files == [] && rows == []
      ensures nextId == old(nextId) && SameRun() && SameOptions()
    {
      if isRunning {
        return;
      }
      files, rows := [], [];
    }

    /** `_on_convert`: the trial pre-flight; when it lets the run start,
        the run flag is raised, the stop flag cleared and the progress bar
        reset to 0 of max(1, |files|).  The disk is not changed. */
    method OnConvert(disk: Disk, missing: seq<string>, confirm: bool) returns (verdict: Verdict)
      modifies this
      ensures verdict == TrialCheck(old(files), old(outputDir), old(writeParquet), old(writeCsv), disk, missing, confirm)
      ensures verdict.Refused? ==>
        isRunning == old(isRunning) && stopFlag == old(stopFlag) && progress == old(progress) && progressMax == old(progressMax)
      ensures verdict.Proceed? ==>
        isRunning && !stopFlag && progress == 0 && progressMax == (if |files| > 1 then |files| else 1)
      ensures files == old(files) && rows == old(rows) && nextId == old(nextId) && SameOptions()
    {
      verdict := RunTrialChecks(files, outputDir, writeParquet, writeCsv, disk, missing, confirm);
      if verdict.Refused? {
        return;
      }
      isRunning, stopFlag := true, false;
      progress := 0;
      progressMax := if |files| > 1 then |files| else 1;
    }

    /** `_on_cancel`: sets the stop flag while a run is going on. */
    method OnCancel()
      requires Valid()
      modifies this
      ensures Valid()
      ensures stopFlag == (old(stopFlag) || old(isRunning))
      ensures files == old(files) && rows == old(rows) && nextId == old(nextId)
      ensures isRunning == old(isRunning) && progress == old(progress) && progressMax == old(progressMax)
      ensures SameOptions()
    {
      if isRunning {
        stopFlag := true;
      }
    }

    /** One pass of the trial loop on the item at index i. */
    method RunItem(i: nat, dir: string, doParquet: bool, doCsv: bool, a: Attempt, outputs: set<OutFile>)
      returns (outputs': set<OutFile>)
      requires Valid() && i < |files|
      modifies this
      ensures Valid()
      ensures files == old(files) && nextId == old(nextId) && SameOptions()
      ensures isRunning == old(isRunning) && stopFlag == old(stopFlag) && progressMax == old(progressMax)
      ensures TrialState(rows, outputs', progress)
           == TrialItem(TrialState(old(rows), outputs, old(progress)), files[i], i + 1, dir, doParquet, doCsv, a)
    {
      var src := files[i];
      var r := SetStatus(rows, src, Running, Run, "", "");
      var ok;
      ok, outputs' := TrialWrite(outputs, src, dir, doParquet, doCsv, a);
      if ok {
        r := SetStatus(r, src, Done, Ok, if doParquet then CheckMark else "", if doCsv then CheckMark else "");
      } else {
        r := SetStatus(r, src, Error, Err, "", "");
      }
      TrialItemSameFrame(TrialState(rows, outputs, progress), src, i + 1, dir, doParquet, doCsv, a);
      SameFrameKeeps(rows, r, nextId);
      rows, progress := r, i + 1;
    }

    /** The loop of the trial's `_worker_run`: before each item the stop
        flag is read, and the first read that sees it marks that item
        "Cancelled" and ends the loop; every other item goes through RunItem. */
    method RunLoop(dir: string, doParquet: bool, doCsv: bool, env: TrialEnv, outputs0: set<OutFile>)
      returns (outputs: set<OutFile>)
      requires Valid() && (stopFlag ==> env.cancelAt == 0)
      modifies this
      ensures Valid()
      ensures files == old(files) && nextId == old(nextId) && SameOptions()
      ensures isRunning == old(isRunning) && stopFlag == old(stopFlag) && progressMax == old(progressMax)
      ensures TrialState(rows, outputs, progress) == TrialLoop(files, 0, TrialState(old(rows), outputs0, old(progress)), dir, doParquet, doCsv, env)
    {
      outputs := outputs0;
      ghost var target := TrialLoop(files, 0, TrialState(rows, outputs, progress), dir, doParquet, doCsv, env);
      var i := 0;
      var cancelled := false;
      while i < |files| && !cancelled
        invariant 0 <= i <= |files|
        invariant Valid()
        invariant !cancelled ==> TrialLoop(files, i, TrialState(rows, outputs, progress), dir, doParquet, doCsv, env) == target
        invariant cancelled ==> TrialState(rows, outputs, progress) == target
        invariant files == old(files) && nextId == old(nextId) && SameOptions()
        invariant isRunning == old(isRunning) && stopFlag == old(stopFlag) && progressMax == old(progressMax)
        decreases |files| - i, !cancelled
      {
        if env.cancelAt <= i {
          var r := SetStatus(rows, files[i], Cancelled, Err, "", "");
          StatusUpdatedFrame(rows, files[i], Cancelled, Err, "", "");
          SameFrameKeeps(rows, r, nextId);
          rows, cancelled := r, true;
        } else {
          outputs := RunItem(i, dir, doParquet, doCsv, env.attempt(i), outputs);
          i := i + 1;
        }
      }
    }

    /** `_worker_run` of the trial: the output folder and the formats are
        read when it starts; the run flag is lowered at the end, and the
        stop flag holds what the read after the loop sees. */
    method WorkerRun(disk: Disk, env: TrialEnv) returns (disk': Disk)
      requires Valid() && (stopFlag ==> env.cancelAt == 0)
      modifies this
      ensures Valid()
      ensures var t := TrialWorker(old(files), old(rows), disk.outputs, old(progress), old(outputDir),
                                   old(writeParquet), old(writeCsv), env);
        rows == t.rows && progress == t.progress && disk' == disk.(outputs := t.outputs)
      ensures !isRunning && files == old(files) && nextId == old(nextId) && progressMax == old(progressMax)
      ensures SameOptions()
      ensures stopFlag == (old(stopFlag) || (env.importOk && env.cancelAt <= |files|))
    {
      disk' := disk;
      if !env.importOk {
        isRunning := false;
        assert disk.(outputs := disk.outputs) == disk;
        return;
      }
      var outputs := RunLoop(Strip(outputDir), writeParquet, writeCsv, env, disk.outputs);
      disk' := disk.(outputs := outputs);
      stopFlag := stopFlag || env.cancelAt <= |files|;
      isRunning := false;
    }
  }
}
