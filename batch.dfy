/**
 * The worker's batch loop as a function of what it reads.  The worker
 * walks the queue in order; before each item it reads the stop flag and,
 * when the flag is set, marks that item "Cancelled" and stops.  Otherwise
 * the item goes to "Running"; in skip mode an item with any existing
 * planned output is marked "Skipped"; else the item is decoded and each
 * enabled format is written, parquet first, and the item ends "Done" or,
 * at the first failure, "Error".  Every written path is collected in one
 * list for the whole run, which an optional archive step bundles at the
 * end.
 *
 * The decoder, the writers, the archive library, the stop flag and the
 * two options read while the run is going on are inputs (an `Env`).
 */
module Batch {
  import opened Wrappers
  import opened Paths
  import opened Seqs
  import opened Planner
  import opened Rows

  /** How the steps of one item turn out: opening and reading the input
      (with the optional user message), the parquet write, the csv write,
      and releasing the decoder. */
  datatype Attempt = Attempt(decodeOk: bool, parquetOk: bool, csvOk: bool, releaseOk: bool)

  /** Everything the worker reads besides the queue and the output layout.
      `cancelAt` counts stop-flag reads: the flag is first seen set at read
      number `cancelAt` and stays set.  `skipAt(i)` is the skip option as
      read for item i, `zipLive` the archive option as read after the loop,
      `addOk(j)` whether the j-th produced file could be added to the
      archive and `zipStamp` the clock reading in the archive name. */
  datatype Env = Env(cancelAt: nat, skipAt: nat -> bool, attempt: nat -> Attempt,
                     importOk: bool, zipLive: bool, zipOpenOk: bool, zipStamp: string,
                     addOk: nat -> bool)

  /** The state the loop changes: the rows, the run-wide list of produced
      paths, the outputs on disk and the progress value. */
  datatype RunState = RunState(rows: seq<Row>, produced: seq<OutFile>, outputs: set<OutFile>, progress: int)

  /** Outcome of the writes of one item. */
  datatype Written = Written(ok: bool, produced: seq<OutFile>, outputs: set<OutFile>)

  /** One write step: skipped after a failure or when the format is off;
      a successful write creates the file and records it as produced. */
  function WriteOne(w: Written, f: Option<OutFile>, ok: bool): (r: Written)
    ensures r.ok ==> w.ok
    ensures (r.produced == w.produced && r.outputs == w.outputs)
         || (f.Some? && r.produced == w.produced + [f.value] && r.outputs == w.outputs + {f.value})
  {
    if !w.ok || f.None? then w
    else if ok then Written(true, w.produced + [f.value], w.outputs + {f.value})
    else w.(ok := false)
  }

  /** The decoder block of one item. */
  function Write(produced: seq<OutFile>, outputs: set<OutFile>, plan: Plan, a: Attempt): (w: Written)
    ensures w.ok <==> a.decodeOk && (plan.parquet.Some? ==> a.parquetOk) && (plan.csv.Some? ==> a.csvOk) && a.releaseOk
  {
    var w1 := WriteOne(Written(a.decodeOk, produced, outputs), plan.parquet, a.parquetOk);
    var w2 := WriteOne(w1, plan.csv, a.csvOk);
    w2.(ok := w2.ok && a.releaseOk)
  }

  /** The set of paths in a list. */
  function SetOf(s: seq<OutFile>): set<OutFile>
  {
    set f | f in s
  }

  function OptSeq(f: Option<OutFile>): seq<OutFile>
  {
    if f.Some? then [f.value] else []
  }

  /** One write step appends nothing or its own file, nothing after a
      failure, its file whenever it stays successful, and puts what it
      appends on disk. */
  lemma WriteOneShape(w: Written, f: Option<OutFile>, ok: bool)
    ensures var r := WriteOne(w, f, ok);
      && |w.produced| <= |r.produced|
      && var n := r.produced[|w.produced|..];
      && r.produced == w.produced + n
      && (n == [] || n == OptSeq(f))
      && (r.ok ==> n == OptSeq(f))
      && (!w.ok ==> n == [])
      && r.outputs == w.outputs + SetOf(n)
  {
    var r := WriteOne(w, f, ok);
    if r.produced == w.produced {
      assert r.produced[|w.produced|..] == [];
      assert SetOf([]) == {};
    } else {
      assert r.produced[|w.produced|..] == [f.value];
      assert SetOf([f.value]) == {f.value};
    }
  }

  lemma SetOfAppend(a: seq<OutFile>, b: seq<OutFile>)
    ensures SetOf(a + b) == SetOf(a) + SetOf(b)
  {
  }

  /** The paths one item adds to the produced list are a prefix of its
      planned outputs (all of them when the item succeeds, none when the
      input cannot be read), and exactly those paths are added to the disk. */
  lemma WriteShape(produced: seq<OutFile>, outputs: set<OutFile>, plan: Plan, a: Attempt)
    ensures var w := Write(produced, outputs, plan, a);
      && |produced| <= |w.produced| && w.produced[..|produced|] == produced
      && w.produced[|produced|..] <= Planned(plan)
      && (w.ok ==> w.produced[|produced|..] == Planned(plan))
      && (!a.decodeOk ==> w.produced == produced)
      && w.outputs == outputs + SetOf(w.produced[|produced|..])
  {
    var w0 := Written(a.decodeOk, produced, outputs);
    var w1 := WriteOne(w0, plan.parquet, a.parquetOk);
    var w2 := WriteOne(w1, plan.csv, a.csvOk);
    var w := Write(produced, outputs, plan, a);
    assert w.produced == w2.produced && w.outputs == w2.outputs && (w.ok ==> w2.ok);
    WriteOneShape(w0, plan.parquet, a.parquetOk);
    WriteOneShape(w1, plan.csv, a.csvOk);
    var n1, n2 := w1.produced[|produced|..], w2.produced[|w1.produced|..];
    var pq, cs := OptSeq(plan.parquet), OptSeq(plan.csv);
    assert Planned(plan) == pq + cs;
    assert w2.produced == produced + (n1 + n2);
    var n := w.produced[|produced|..];
    assert n == n1 + n2;
    SetOfAppend(n1, n2);
    if n2 != [] {
      assert n1 == pq;
    }
    if n1 == [] {
      assert n == n2;
    }
  }

  /** Format column of a skipped item: marked when that output exists. */
  function ExistingColumn(f: Option<OutFile>, outputs: set<OutFile>): string
  {
    if f.Some? && f.value in outputs then ExistingMark else ""
  }

  /** Format column of a finished item: marked when the format is on. */
  function DoneColumn(f: Option<OutFile>): string
  {
    if f.Some? then CheckMark else ""
  }

  /** One iteration of the loop for `src` at 1-based position `idx`. */
  function ProcessItem(st: RunState, src: Source, idx: nat, lay: Layout, skip: bool, a: Attempt): (r: RunState)
    ensures |r.rows| == |st.rows| && r.progress == idx
  {
    var rows := StatusUpdated(st.rows, src, Running, Run, "", "");
    var plan := PlanOf(src, lay);
    if skip && AnyExists(plan, st.outputs) then
      st.(rows := StatusUpdated(rows, src, Skipped, Wait, ExistingColumn(plan.parquet, st.outputs), ExistingColumn(plan.csv, st.outputs)),
          progress := idx)
    else
      var w := Write(st.produced, st.outputs, plan, a);
      var rows' := if w.ok then StatusUpdated(rows, src, Done, Ok, DoneColumn(plan.parquet), DoneColumn(plan.csv))
                   else StatusUpdated(rows, src, Error, Err, "", "");
      RunState(rows', w.produced, w.outputs, idx)
  }

  /** One iteration keeps every row's identifier, number and path, whatever
      the rows show. */
  lemma ProcessItemSameFrame(st: RunState, src: Source, idx: nat, lay: Layout, skip: bool, a: Attempt)
    ensures SameFrame(st.rows, ProcessItem(st, src, idx, lay, skip, a).rows)
  {
    var rows := StatusUpdated(st.rows, src, Running, Run, "", "");
    StatusUpdatedFrame(st.rows, src, Running, Run, "", "");
    var plan := PlanOf(src, lay);
    StatusUpdatedFrame(rows, src, Skipped, Wait, ExistingColumn(plan.parquet, st.outputs), ExistingColumn(plan.csv, st.outputs));
    StatusUpdatedFrame(rows, src, Done, Ok, DoneColumn(plan.parquet), DoneColumn(plan.csv));
    StatusUpdatedFrame(rows, src, Error, Err, "", "");
  }

  /** One iteration of the worker loop, for the item at index j. */
  function Item(files: seq<Source>, lay: Layout, env: Env): (RunState, nat) -> RunState
  {
    (s: RunState, j: nat) =>
      if j < |files| then ProcessItem(s, files[j], j + 1, lay, env.skipAt(j), env.attempt(j)) else s
  }

  /** The loop skeleton from item i on: before each item the stop flag is
      read; the first item whose read sees it is marked "Cancelled" and the
      loop ends. */
  function Loop(files: seq<Source>, i: nat, st: RunState, cancelAt: nat, item: (RunState, nat) -> RunState): RunState
    requires i <= |files|
    decreases |files| - i
  {
    if i == |files| then st
    else if cancelAt <= i then st.(rows := StatusUpdated(st.rows, files[i], Cancelled, Err, "", ""))
    else Loop(files, i + 1, item(st, i), cancelAt, item)
  }

  /** The worker loop from item i on. */
  function RunFrom(files: seq<Source>, i: nat, st: RunState, lay: Layout, env: Env): RunState
    requires i <= |files|
  {
    Loop(files, i, st, env.cancelAt, Item(files, lay, env))
  }

  // ---------------------------------------------------------------------
  // One item.
  // ---------------------------------------------------------------------

  /** The row of `src` after its iteration, from the row before it. */
  function FinalRow(row: Row, st: RunState, src: Source, lay: Layout, skip: bool, a: Attempt): Row
  {
    var running := Updated(row, Running, Run, "", "");
    var plan := PlanOf(src, lay);
    if skip && AnyExists(plan, st.outputs) then
      Updated(running, Skipped, Wait, ExistingColumn(plan.parquet, st.outputs), ExistingColumn(plan.csv, st.outputs))
    else if Write(st.produced, st.outputs, plan, a).ok then Updated(running, Done, Ok, DoneColumn(plan.parquet), DoneColumn(plan.csv))
    else Updated(running, Error, Err, "", "")
  }

  /** On a duplicate-free queue shown by the rows, the iteration of the k-th
      file rewrites the k-th row alone. */
  lemma ProcessItemRow(files: seq<Source>, st: RunState, k: nat, lay: Layout, skip: bool, a: Attempt)
    requires Tracks(files, st.rows) && Distinct(files) && k < |files|
    ensures ProcessItem(st, files[k], k + 1, lay, skip, a).rows == st.rows[k := FinalRow(st.rows[k], st, files[k], lay, skip, a)]
  {
    var src := files[k];
    StatusUpdatedIs(files, st.rows, k, Running, Run, "", "");
    var running := Updated(st.rows[k], Running, Run, "", "");
    var rows := st.rows[k := running];
    assert Tracks(files, rows);
    var plan := PlanOf(src, lay);
    if skip && AnyExists(plan, st.outputs) {
      StatusUpdatedIs(files, rows, k, Skipped, Wait, ExistingColumn(plan.parquet, st.outputs), ExistingColumn(plan.csv, st.outputs));
    } else if Write(st.produced, st.outputs, plan, a).ok {
      StatusUpdatedIs(files, rows, k, Done, Ok, DoneColumn(plan.parquet), DoneColumn(plan.csv));
    } else {
      StatusUpdatedIs(files, rows, k, Error, Err, "", "");
    }
  }

  /** Processing the k-th file of a duplicate-free queue shown by the rows
      changes the k-th row alone, and not its identifier, number or path. */
  lemma ProcessItemFrame(files: seq<Source>, st: RunState, k: nat, lay: Layout, skip: bool, a: Attempt)
    requires Tracks(files, st.rows) && Distinct(files) && k < |files|
    ensures var r := ProcessItem(st, files[k], k + 1, lay, skip, a);
      && (forall j :: 0 <= j < |files| ==> r.rows[j].id == st.rows[j].id && r.rows[j].num == st.rows[j].num && r.rows[j].path == st.rows[j].path)
      && (forall j :: 0 <= j < |files| && j != k ==> r.rows[j] == st.rows[j])
  {
    ProcessItemRow(files, st, k, lay, skip, a);
  }

  /** On a duplicate-free queue shown by the rows, processing the k-th file
      changes the k-th row alone and sets the progress to its position; the
      item ends "Skipped" exactly when skip mode is on and some planned
      output exists, else "Done" exactly when every step succeeds, else
      "Error". */
  lemma ProcessItemAt(files: seq<Source>, st: RunState, k: nat, lay: Layout, skip: bool, a: Attempt)
    requires Tracks(files, st.rows) && Distinct(files) && k < |files|
    ensures var r := ProcessItem(st, files[k], k + 1, lay, skip, a);
      var skipped := skip && AnyExists(PlanOf(files[k], lay), st.outputs);
      var ok := Write(st.produced, st.outputs, PlanOf(files[k], lay), a).ok;
      && Tracks(files, r.rows)
      && (forall j :: 0 <= j < |files| && j != k ==> r.rows[j] == st.rows[j])
      && r.rows[k].id == st.rows[k].id && r.rows[k].num == st.rows[k].num
      && r.progress == k + 1
      && (r.rows[k].status == Skipped <==> skipped)
      && (r.rows[k].status == Done <==> !skipped && ok)
      && (r.rows[k].status == Error <==> !skipped && !ok)
  {
    ProcessItemRow(files, st, k, lay, skip, a);
  }

  /** The row of a processed item: a skipped item keeps its produced list and
      disk and shows the existing outputs; a finished item shows a mark for
      each enabled format and its writes are on disk; a failed item keeps
      its format columns, while the files it wrote before failing stay in
      the produced list. */
  lemma ProcessItemColumns(files: seq<Source>, st: RunState, k: nat, lay: Layout, skip: bool, a: Attempt)
    requires Tracks(files, st.rows) && Distinct(files) && k < |files|
    ensures var r := ProcessItem(st, files[k], k + 1, lay, skip, a);
      var plan := PlanOf(files[k], lay);
      var w := Write(st.produced, st.outputs, plan, a);
      && (r.rows[k].status == Skipped ==>
           && r.produced == st.produced && r.outputs == st.outputs && r.rows[k].tag == Wait
           && (lay.doParquet && plan.parquet.value in st.outputs ==> r.rows[k].parquet == ExistingMark)
           && (lay.doCsv && plan.csv.value in st.outputs ==> r.rows[k].csv == ExistingMark))
      && (r.rows[k].status != Skipped ==> r.produced == w.produced && r.outputs == w.outputs)
      && (r.rows[k].status == Done ==>
           && r.rows[k].tag == Ok
           && (lay.doParquet ==> r.rows[k].parquet == CheckMark)
           && (lay.doCsv ==> r.rows[k].csv == CheckMark))
      && (r.rows[k].status == Error ==>
           r.rows[k].tag == Err && r.rows[k].parquet == st.rows[k].parquet && r.rows[k].csv == st.rows[k].csv)
  {
    ProcessItemRow(files, st, k, lay, skip, a);
  }

  // ---------------------------------------------------------------------
  // The loop skeleton, for any iteration that keeps the rows in place.
  // ---------------------------------------------------------------------

  predicate Processed(s: Status)
  {
    s == Done || s == Skipped || s == Error
  }

  /** The first position at or after i whose stop-flag read sees the flag. */
  function CancelPos(i: nat, cancelAt: nat): nat
  {
    if cancelAt < i then i else cancelAt
  }

  /** `r` differs from `s` at most in row j, and nowhere in a row's
      identifier, number or path. */
  predicate KeepsRows(s: RunState, r: RunState, j: nat)
  {
    && |r.rows| == |s.rows|
    && (forall k :: 0 <= k < |s.rows| ==>
         r.rows[k].id == s.rows[k].id && r.rows[k].num == s.rows[k].num && r.rows[k].path == s.rows[k].path)
    && (forall k :: 0 <= k < |s.rows| && k != j ==> r.rows[k] == s.rows[k])
  }

  /** `r` has the rows of `s`, with row j processed. */
  predicate LeavesProcessed(s: RunState, r: RunState, j: nat)
  {
    |r.rows| == |s.rows| && j < |r.rows| && Processed(r.rows[j].status)
  }

  /** `r` has the rows of `s`, with row j "Done". */
  predicate LeavesDone(s: RunState, r: RunState, j: nat)
  {
    |r.rows| == |s.rows| && j < |r.rows| && r.rows[j].status == Done
  }

  /** Every iteration on rows showing the queue touches its own row alone. */
  ghost predicate ItemKeepsRows(files: seq<Source>, item: (RunState, nat) -> RunState)
  {
    forall s: RunState, j: nat {:trigger KeepsRows(s, item(s, j), j)} :: j < |files| && Tracks(files, s.rows) ==> KeepsRows(s, item(s, j), j)
  }

  /** Every iteration leaves its own row processed. */
  ghost predicate ItemProcesses(files: seq<Source>, item: (RunState, nat) -> RunState)
  {
    forall s: RunState, j: nat {:trigger LeavesProcessed(s, item(s, j), j)} :: j < |files| && Tracks(files, s.rows) ==>
      LeavesProcessed(s, item(s, j), j)
  }

  /** Every iteration sets the progress to the item's 1-based position. */
  ghost predicate ItemCounts(files: seq<Source>, item: (RunState, nat) -> RunState)
  {
    forall s: RunState, j: nat :: j < |files| ==> item(s, j).progress == j + 1
  }

  /** Every produced path exists on disk. */
  predicate ProducedOnDisk(st: RunState)
  {
    forall f :: f in st.produced ==> f in st.outputs
  }

  /** The produced list only grows, by at most the item's planned outputs,
      and only with paths that then exist on disk. */
  lemma ProcessItemProduced(st: RunState, src: Source, idx: nat, lay: Layout, skip: bool, a: Attempt)
    ensures var r := ProcessItem(st, src, idx, lay, skip, a);
      && |st.produced| <= |r.produced| <= |st.produced| + 2
      && r.produced[..|st.produced|] == st.produced
      && st.outputs <= r.outputs
      && (ProducedOnDisk(st) ==> ProducedOnDisk(r))
  {
    var plan := PlanOf(src, lay);
    WriteShape(st.produced, st.outputs, plan, a);
    var w := Write(st.produced, st.outputs, plan, a);
    var n := w.produced[|st.produced|..];
    assert w.produced == st.produced + n;
    assert |n| <= |Planned(plan)| <= 2;
  }

  /** `r` extends the produced list of `s` by at most two paths, keeps its
      outputs, and keeps produced paths on disk. */
  predicate Grows(s: RunState, r: RunState)
  {
    && |s.produced| <= |r.produced| <= |s.produced| + 2
    && r.produced[..|s.produced|] == s.produced
    && s.outputs <= r.outputs
    && (ProducedOnDisk(s) ==> ProducedOnDisk(r))
  }

  ghost predicate ItemGrows(files: seq<Source>, item: (RunState, nat) -> RunState)
  {
    forall s: RunState, j: nat {:trigger Grows(s, item(s, j))} :: j < |files| ==> Grows(s, item(s, j))
  }

  lemma {:induction false} LoopFrame(files: seq<Source>, i: nat, st: RunState, cancelAt: nat, item: (RunState, nat) -> RunState)
    requires Tracks(files, st.rows) && Distinct(files) && i <= |files| && ItemKeepsRows(files, item)
    ensures var r := Loop(files, i, st, cancelAt, item);
      && Tracks(files, r.rows)
      && (forall j :: 0 <= j < |files| ==> r.rows[j].id == st.rows[j].id && r.rows[j].num == st.rows[j].num)
      && (forall j :: 0 <= j < i ==> r.rows[j] == st.rows[j])
      && (forall j :: CancelPos(i, cancelAt) < j < |files| ==> r.rows[j] == st.rows[j])
    decreases |files| - i
  {
    if i < |files| {
      if cancelAt <= i {
        StatusUpdatedAt(files, st.rows, i, Cancelled, Err, "", "");
      } else {
        var st' := item(st, i);
        assert KeepsRows(st, st', i);
        assert Tracks(files, st'.rows);
        var r := Loop(files, i + 1, st', cancelAt, item);
        assert Loop(files, i, st, cancelAt, item) == r;
        LoopFrame(files, i + 1, st', cancelAt, item);
      }
    }
  }

  /** The item whose stop-flag read sees the flag ends "Cancelled". */
  lemma {:induction false} LoopCancelled(files: seq<Source>, i: nat, st: RunState, cancelAt: nat, item: (RunState, nat) -> RunState)
    requires Tracks(files, st.rows) && Distinct(files) && i <= |files| && ItemKeepsRows(files, item)
    ensures var r := Loop(files, i, st, cancelAt, item);
      var c := CancelPos(i, cancelAt);
      c < |files| ==> |r.rows| == |files| && r.rows[c].status == Cancelled && r.rows[c].tag == Err
    decreases |files| - i
  {
    if i < |files| {
      if cancelAt <= i {
        StatusUpdatedIs(files, st.rows, i, Cancelled, Err, "", "");
        assert Loop(files, i, st, cancelAt, item).rows == st.rows[i := Updated(st.rows[i], Cancelled, Err, "", "")];
      } else {
        var st' := item(st, i);
        assert KeepsRows(st, st', i);
        assert Tracks(files, st'.rows);
        assert Loop(files, i, st, cancelAt, item) == Loop(files, i + 1, st', cancelAt, item);
        assert CancelPos(i, cancelAt) == CancelPos(i + 1, cancelAt);
        LoopCancelled(files, i + 1, st', cancelAt, item);
      }
    }
  }

  /** The items before the cancelled one are processed. */
  lemma {:induction false} LoopProcessed(files: seq<Source>, i: nat, st: RunState, cancelAt: nat, item: (RunState, nat) -> RunState)
    requires Tracks(files, st.rows) && Distinct(files) && i <= |files|
    requires ItemKeepsRows(files, item) && ItemProcesses(files, item)
    ensures var r := Loop(files, i, st, cancelAt, item);
      var c := CancelPos(i, cancelAt);
      && |r.rows| == |files|
      && (forall j :: i <= j < c && j < |files| ==> Processed(r.rows[j].status))
    decreases |files| - i
  {
    if i < |files| {
      if cancelAt <= i {
        assert |Loop(files, i, st, cancelAt, item).rows| == |st.rows|;
      } else {
        var st' := item(st, i);
        assert KeepsRows(st, st', i);
        assert Tracks(files, st'.rows);
        assert LeavesProcessed(st, st', i);
        var r := Loop(files, i + 1, st', cancelAt, item);
        assert Loop(files, i, st, cancelAt, item) == r;
        LoopProcessed(files, i + 1, st', cancelAt, item);
        LoopFrame(files, i + 1, st', cancelAt, item);
        assert r.rows[i] == st'.rows[i];
        assert CancelPos(i, cancelAt) == CancelPos(i + 1, cancelAt);
      }
    }
  }

  lemma {:induction false} LoopProgress(files: seq<Source>, i: nat, st: RunState, cancelAt: nat, item: (RunState, nat) -> RunState)
    requires i <= |files| && ItemCounts(files, item)
    ensures var c := CancelPos(i, cancelAt);
      var stop := if c < |files| then c else |files|;
      Loop(files, i, st, cancelAt, item).progress == (if i < stop then stop else st.progress)
    decreases |files| - i
  {
    if i < |files| && i < cancelAt {
      var st' := item(st, i);
      assert Loop(files, i, st, cancelAt, item) == Loop(files, i + 1, st', cancelAt, item);
      assert st'.progress == i + 1;
      LoopProgress(files, i + 1, st', cancelAt, item);
    }
  }

  lemma {:induction false} LoopProduced(files: seq<Source>, i: nat, st: RunState, cancelAt: nat, item: (RunState, nat) -> RunState)
    requires i <= |files| && ItemGrows(files, item)
    ensures var r := Loop(files, i, st, cancelAt, item);
      && |st.produced| <= |r.produced| <= |st.produced| + 2 * (|files| - i)
      && r.produced[..|st.produced|] == st.produced
      && st.outputs <= r.outputs
      && (ProducedOnDisk(st) ==> ProducedOnDisk(r))
    decreases |files| - i
  {
    if i < |files| && i < cancelAt {
      var st' := item(st, i);
      assert Grows(st, st');
      var r := Loop(files, i + 1, st', cancelAt, item);
      assert Loop(files, i, st, cancelAt, item) == r;
      LoopProduced(files, i + 1, st', cancelAt, item);
      assert r.produced[..|st.produced|] == r.produced[..|st'.produced|][..|st.produced|];
    }
  }

  /** Every step of an item succeeds. */
  predicate Succeeds(a: Attempt)
  {
    a.decodeOk && a.parquetOk && a.csvOk && a.releaseOk
  }

  /** The planned outputs of the queue from item i on, item by item. */
  function AllPlanned(files: seq<Source>, i: nat, lay: Layout): seq<OutFile>
    requires i <= |files|
    decreases |files| - i
  {
    if i == |files| then [] else Planned(PlanOf(files[i], lay)) + AllPlanned(files, i + 1, lay)
  }

  lemma {:induction false} LoopAllProduced(files: seq<Source>, i: nat, st: RunState, cancelAt: nat,
                                           item: (RunState, nat) -> RunState, lay: Layout)
    requires i <= |files| && |files| <= cancelAt
    requires forall s: RunState, j: nat :: i <= j < |files| ==> item(s, j).produced == s.produced + Planned(PlanOf(files[j], lay))
    ensures Loop(files, i, st, cancelAt, item).produced == st.produced + AllPlanned(files, i, lay)
    decreases |files| - i
  {
    if i < |files| {
      var st' := item(st, i);
      var mine, later := Planned(PlanOf(files[i], lay)), AllPlanned(files, i + 1, lay);
      assert st'.produced == st.produced + mine;
      var r := Loop(files, i + 1, st', cancelAt, item);
      assert Loop(files, i, st, cancelAt, item) == r;
      LoopAllProduced(files, i + 1, st', cancelAt, item, lay);
      assert AllPlanned(files, i, lay) == mine + later;
      assert r.produced == (st.produced + mine) + later;
      assert (st.produced + mine) + later == st.produced + (mine + later);
    }
  }

  lemma {:induction false} LoopAllDone(files: seq<Source>, i: nat, st: RunState, cancelAt: nat, item: (RunState, nat) -> RunState)
    requires Tracks(files, st.rows) && Distinct(files) && i <= |files| && |files| <= cancelAt
    requires ItemKeepsRows(files, item)
    requires forall s: RunState, j: nat {:trigger LeavesDone(s, item(s, j), j)} :: i <= j < |files| && Tracks(files, s.rows) ==>
      LeavesDone(s, item(s, j), j)
    ensures var r := Loop(files, i, st, cancelAt, item);
      |r.rows| == |files| && forall j :: i <= j < |files| ==> r.rows[j].status == Done
    decreases |files| - i
  {
    if i < |files| {
      var st' := item(st, i);
      assert KeepsRows(st, st', i);
      assert Tracks(files, st'.rows);
      assert LeavesDone(st, st', i);
      var r := Loop(files, i + 1, st', cancelAt, item);
      assert Loop(files, i, st, cancelAt, item) == r;
      LoopAllDone(files, i + 1, st', cancelAt, item);
      LoopFrame(files, i + 1, st', cancelAt, item);
      assert r.rows[i] == st'.rows[i];
      forall j | i <= j < |files| ensures r.rows[j].status == Done {
        if j == i {
          assert r.rows[j] == st'.rows[i];
        }
      }
    }
  }

  // ---------------------------------------------------------------------
  // The worker loop.
  // ---------------------------------------------------------------------

  /** An item that is not skipped and whose steps all succeed adds all its
      planned outputs to the produced list. */
  lemma ProcessItemSucceeds(st: RunState, src: Source, idx: nat, lay: Layout, a: Attempt)
    requires Succeeds(a)
    ensures ProcessItem(st, src, idx, lay, false, a).produced == st.produced + Planned(PlanOf(src, lay))
  {
    WriteShape(st.produced, st.outputs, PlanOf(src, lay), a);
    var w := Write(st.produced, st.outputs, PlanOf(src, lay), a);
    assert w.produced == st.produced + w.produced[|st.produced|..];
  }

  /** The worker's iteration touches its own row alone. */
  lemma ItemKeepsItsRow(files: seq<Source>, lay: Layout, env: Env)
    requires Distinct(files)
    ensures ItemKeepsRows(files, Item(files, lay, env))
  {
    var item := Item(files, lay, env);
    forall s: RunState, j: nat | j < |files| && Tracks(files, s.rows) ensures KeepsRows(s, item(s, j), j) {
      ProcessItemFrame(files, s, j, lay, env.skipAt(j), env.attempt(j));
    }
  }

  /** The worker's iteration leaves its own row processed. */
  lemma ItemLeavesProcessed(files: seq<Source>, lay: Layout, env: Env)
    requires Distinct(files)
    ensures ItemProcesses(files, Item(files, lay, env))
  {
    var item := Item(files, lay, env);
    forall s: RunState, j: nat | j < |files| && Tracks(files, s.rows)
      ensures LeavesProcessed(s, item(s, j), j)
    {
      ProcessItemAt(files, s, j, lay, env.skipAt(j), env.attempt(j));
    }
  }

  /** The worker's iteration counts the item and grows the produced list. */
  lemma ItemCountsAndGrows(files: seq<Source>, lay: Layout, env: Env)
    ensures ItemCounts(files, Item(files, lay, env)) && ItemGrows(files, Item(files, lay, env))
  {
    var item := Item(files, lay, env);
    forall s: RunState, j: nat | j < |files| ensures item(s, j).progress == j + 1 {
      assert item(s, j) == ProcessItem(s, files[j], j + 1, lay, env.skipAt(j), env.attempt(j));
    }
    forall s: RunState, j: nat | j < |files| ensures Grows(s, item(s, j)) {
      ProcessItemProduced(s, files[j], j + 1, lay, env.skipAt(j), env.attempt(j));
    }
  }

  /** The worker loop from item i: with c the first position at or after i
      whose stop-flag read sees the flag, the items from i up to c are
      processed, item c (when there is one) is "Cancelled" with the error
      tag, and every other row is as it was; no row changes identifier or
      number; the progress value ends at the last processed position. */
  lemma RunFromRows(files: seq<Source>, i: nat, st: RunState, lay: Layout, env: Env)
    requires Tracks(files, st.rows) && Distinct(files) && i <= |files|
    ensures var r := RunFrom(files, i, st, lay, env);
      var c := CancelPos(i, env.cancelAt);
      var stop := if c < |files| then c else |files|;
      && Tracks(files, r.rows)
      && (forall j :: 0 <= j < |files| ==> r.rows[j].id == st.rows[j].id && r.rows[j].num == st.rows[j].num)
      && (forall j :: 0 <= j < i ==> r.rows[j] == st.rows[j])
      && (forall j :: i <= j < stop ==> Processed(r.rows[j].status))
      && (c < |files| ==> r.rows[c].status == Cancelled && r.rows[c].tag == Err)
      && (forall j :: c < j < |files| ==> r.rows[j] == st.rows[j])
      && r.progress == (if i < stop then stop else st.progress)
  {
    ItemKeepsItsRow(files, lay, env);
    ItemLeavesProcessed(files, lay, env);
    ItemCountsAndGrows(files, lay, env);
    var item := Item(files, lay, env);
    LoopFrame(files, i, st, env.cancelAt, item);
    LoopCancelled(files, i, st, env.cancelAt, item);
    LoopProcessed(files, i, st, env.cancelAt, item);
    LoopProgress(files, i, st, env.cancelAt, item);
  }

  /** Over the worker loop the produced list extends the one before, by at
      most two paths per item, and produced paths stay on disk. */
  lemma RunFromProduced(files: seq<Source>, i: nat, st: RunState, lay: Layout, env: Env)
    requires i <= |files| && Distinct(files)
    ensures var r := RunFrom(files, i, st, lay, env);
      && |st.produced| <= |r.produced| <= |st.produced| + 2 * (|files| - i)
      && r.produced[..|st.produced|] == st.produced
      && st.outputs <= r.outputs
      && (ProducedOnDisk(st) ==> ProducedOnDisk(r))
  {
    ItemCountsAndGrows(files, lay, env);
    LoopProduced(files, i, st, env.cancelAt, Item(files, lay, env));
  }

  /** When nothing is cancelled or skipped and every step succeeds, the
      produced list gains all planned outputs, in queue order. */
  lemma RunFromAllProduced(files: seq<Source>, i: nat, st: RunState, lay: Layout, env: Env)
    requires i <= |files| && |files| <= env.cancelAt
    requires forall j :: i <= j < |files| ==> !env.skipAt(j) && Succeeds(env.attempt(j))
    ensures RunFrom(files, i, st, lay, env).produced == st.produced + AllPlanned(files, i, lay)
  {
    var item := Item(files, lay, env);
    forall s: RunState, j: nat | i <= j < |files| ensures item(s, j).produced == s.produced + Planned(PlanOf(files[j], lay)) {
      assert item(s, j) == ProcessItem(s, files[j], j + 1, lay, false, env.attempt(j));
      ProcessItemSucceeds(s, files[j], j + 1, lay, env.attempt(j));
    }
    LoopAllProduced(files, i, st, env.cancelAt, item, lay);
  }

  /** When nothing is cancelled or skipped and every step succeeds, every
      item from i on ends "Done". */
  lemma RunFromAllDone(files: seq<Source>, i: nat, st: RunState, lay: Layout, env: Env)
    requires Tracks(files, st.rows) && Distinct(files) && i <= |files|
    requires |files| <= env.cancelAt
    requires forall j :: i <= j < |files| ==> !env.skipAt(j) && Succeeds(env.attempt(j))
    ensures var r := RunFrom(files, i, st, lay, env);
      && |r.rows| == |files|
      && (forall j :: i <= j < |files| ==> r.rows[j].status == Done)
  {
    ItemKeepsItsRow(files, lay, env);
    var item := Item(files, lay, env);
    forall s: RunState, j: nat | i <= j < |files| && Tracks(files, s.rows)
      ensures LeavesDone(s, item(s, j), j)
    {
      ProcessItemAt(files, s, j, lay, env.skipAt(j), env.attempt(j));
    }
    LoopAllDone(files, i, st, env.cancelAt, item);
  }

  // ---------------------------------------------------------------------
  // Consequences of the run-wide produced list and of the live disk.
  // ---------------------------------------------------------------------

  /** An item whose parquet write succeeds and whose csv write fails ends
      "Error", yet its parquet file is on disk and in the produced list, so
      the archive step bundles it. */
  lemma ErrorItemKeepsParquet(files: seq<Source>, st: RunState, k: nat, lay: Layout)
    requires Tracks(files, st.rows) && Distinct(files) && k < |files|
    requires lay.doParquet && lay.doCsv
    ensures var r := ProcessItem(st, files[k], k + 1, lay, false, Attempt(true, true, false, true));
      var pq := PlanOf(files[k], lay).parquet.value;
      && r.rows[k].status == Error
      && pq in r.produced && pq in r.outputs
  {
    var a := Attempt(true, true, false, true);
    ProcessItemAt(files, st, k, lay, false, a);
    WriteShape(st.produced, st.outputs, PlanOf(files[k], lay), a);
    var w := Write(st.produced, st.outputs, PlanOf(files[k], lay), a);
    var n := w.produced[|st.produced|..];
    assert w.produced == st.produced + n;
  }

  /** Two queued sources with the same stem plan the same outputs.  In skip
      mode the second is skipped, because the first one's outputs now exist. */
  lemma SameStemSecondSkipped(s1: Source, s2: Source, st: RunState, lay: Layout, a: Attempt)
    requires s1 != s2 && s1.stem == s2.stem
    requires Tracks([s1, s2], st.rows)
    requires lay.doParquet && Succeeds(a)
    ensures var r1 := ProcessItem(st, s1, 1, lay, true, a);
      var r2 := ProcessItem(r1, s2, 2, lay, true, a);
      r2.rows[1].status == Skipped
  {
    var files := [s1, s2];
    var r1 := ProcessItem(st, s1, 1, lay, true, a);
    ProcessItemFrame(files, st, 0, lay, true, a);
    assert Tracks(files, r1.rows);
    if !AnyExists(PlanOf(s1, lay), st.outputs) {
      WriteShape(st.produced, st.outputs, PlanOf(s1, lay), a);
      var w := Write(st.produced, st.outputs, PlanOf(s1, lay), a);
      assert w.produced[|st.produced|..] == Planned(PlanOf(s1, lay));
      assert PlanOf(s1, lay).parquet.value in w.outputs;
    }
    assert PlanOf(s2, lay) == PlanOf(s1, lay);
    assert AnyExists(PlanOf(s2, lay), r1.outputs);
    ProcessItemAt(files, r1, 1, lay, true, a);
  }

  /** Without skip mode the second one overwrites the first one's outputs,
      and the produced list holds the same path twice. */
  lemma SameStemProducedTwice(s1: Source, s2: Source, st: RunState, lay: Layout, a: Attempt)
    requires s1.stem == s2.stem && lay.doParquet && Succeeds(a)
    ensures var r1 := ProcessItem(st, s1, 1, lay, false, a);
      var r2 := ProcessItem(r1, s2, 2, lay, false, a);
      var pq := PlanOf(s1, lay).parquet.value;
      r2.produced[|st.produced|] == pq && r2.produced[|r1.produced|] == pq
  {
    ProcessItemSucceeds(st, s1, 1, lay, a);
    var r1 := ProcessItem(st, s1, 1, lay, false, a);
    ProcessItemSucceeds(r1, s2, 2, lay, a);
    assert PlanOf(s2, lay) == PlanOf(s1, lay);
  }

  // ---------------------------------------------------------------------
  // The whole worker: imports, the loop, the archive step.
  // ---------------------------------------------------------------------

  /** The archive written after the loop: its path and its members, in
      order, each stored under the base name of its path. */
  datatype Archive = Archive(path: string, members: seq<FileName>)

  /** What a worker run leaves: the loop state, the archive (if one was
      written) and whether the run ends as stopped. */
  datatype Outcome = Outcome(state: RunState, archive: Option<Archive>, stopped: bool)

  function ArchiveName(stamp: string): string
  {
    "udf_exports_" + stamp + ".zip"
  }

  /** The base names of a list of paths, in order. */
  function Names(ps: seq<OutFile>): (r: seq<FileName>)
    ensures |r| == |ps| && forall k :: 0 <= k < |ps| ==> r[k] == ps[k].name
  {
    seq(|ps|, k requires 0 <= k < |ps| => ps[k].name)
  }

  /** The archive members from produced entry j on: each entry is added
      under its base name, and an entry whose add fails is left out. */
  function MembersFrom(produced: seq<OutFile>, j: nat, addOk: nat -> bool): seq<FileName>
    requires j <= |produced|
    decreases |produced| - j
  {
    if j == |produced| then []
    else (if addOk(j) then [produced[j].name] else []) + MembersFrom(produced, j + 1, addOk)
  }

  /** The run state the worker starts from: the rows as shown, an empty
      produced list and the disk as it is. */
  function Initial(rows: seq<Row>, outputs: set<OutFile>, progress: int): RunState
  {
    RunState(rows, [], outputs, progress)
  }

  /** The archive step after the loop: when the archive option is on at
      the end and something was produced, the archive is created in the
      output folder and each produced path is added; the second component
      says that creating the archive failed. */
  function Bundled(produced: seq<OutFile>, dir: string, env: Env): (Option<Archive>, bool)
  {
    if env.zipLive && produced != [] then
      if env.zipOpenOk then (Some(Archive(Child(dir, ArchiveName(env.zipStamp)), MembersFrom(produced, 0, env.addOk))), false)
      else (None, true)
    else (None, false)
  }

  /** `_worker_run`.  When the decoder or a writer library cannot be
      imported the run ends stopped with nothing done.  Otherwise the loop
      runs, then the archive step.  A failure to create the archive ends
      the run as stopped; otherwise the run is stopped exactly when the
      final read of the stop flag sees it set. */
  function Worker(files: seq<Source>, rows: seq<Row>, outputs: set<OutFile>, progress: int, lay: Layout, env: Env): Outcome
  {
    var start := Initial(rows, outputs, progress);
    if !env.importOk then Outcome(start, None, true)
    else
      var st := RunFrom(files, 0, start, lay, env);
      var b := Bundled(st.produced, lay.dir, env);
      Outcome(st, b.0, env.cancelAt <= |files| || b.1)
  }

  /** Every archive member is the base name of a produced path. */
  lemma {:induction false} MembersFromNames(produced: seq<OutFile>, j: nat, addOk: nat -> bool)
    requires j <= |produced|
    ensures var m := MembersFrom(produced, j, addOk);
      |m| <= |produced| - j && forall x :: x in m ==> x in Names(produced[j..])
    decreases |produced| - j
  {
    if j < |produced| {
      MembersFromNames(produced, j + 1, addOk);
      var head := if addOk(j) then [produced[j].name] else [];
      var rest := MembersFrom(produced, j + 1, addOk);
      assert MembersFrom(produced, j, addOk) == head + rest;
      var names, later := Names(produced[j..]), Names(produced[j + 1..]);
      assert names == [produced[j].name] + later by {
        assert produced[j..][1..] == produced[j + 1..];
      }
      forall x | x in head + rest ensures x in names {
        if x !in head {
          assert x in later;
        }
      }
    }
  }

  /** A failed add leaves out its own entry and no other: the members are
      the base names of exactly the produced entries whose add succeeds. */
  lemma {:induction false} MembersFromAdded(produced: seq<OutFile>, j: nat, addOk: nat -> bool)
    requires j <= |produced|
    ensures forall x :: x in MembersFrom(produced, j, addOk) <==>
      exists k :: j <= k < |produced| && addOk(k) && produced[k].name == x
    decreases |produced| - j
  {
    if j < |produced| {
      MembersFromAdded(produced, j + 1, addOk);
      var head := if addOk(j) then [produced[j].name] else [];
      var rest := MembersFrom(produced, j + 1, addOk);
      assert MembersFrom(produced, j, addOk) == head + rest;
      forall x ensures x in head + rest <==> exists k :: j <= k < |produced| && addOk(k) && produced[k].name == x {
        if x in head {
          assert addOk(j) && produced[j].name == x;
        }
        if exists k :: j <= k < |produced| && addOk(k) && produced[k].name == x {
          var k :| j <= k < |produced| && addOk(k) && produced[k].name == x;
          if k > j {
            assert x in rest;
          }
        }
      }
    }
  }

  /** When every add succeeds the members are exactly the produced base
      names, in order. */
  lemma {:induction false} MembersFromAll(produced: seq<OutFile>, j: nat, addOk: nat -> bool)
    requires j <= |produced|
    requires forall k :: j <= k < |produced| ==> addOk(k)
    ensures MembersFrom(produced, j, addOk) == Names(produced[j..])
    decreases |produced| - j
  {
    if j < |produced| {
      MembersFromAll(produced, j + 1, addOk);
      var names, later := Names(produced[j..]), Names(produced[j + 1..]);
      assert names == [produced[j].name] + later by {
        assert produced[j..][1..] == produced[j + 1..];
      }
    } else {
      assert Names(produced[j..]) == [];
    }
  }

  /** The run ends stopped exactly when an import fails, when some read of
      the stop flag sees it set, or when the archive cannot be created. */
  lemma WorkerStopped(files: seq<Source>, rows: seq<Row>, outputs: set<OutFile>, progress: int, lay: Layout, env: Env)
    ensures var o := Worker(files, rows, outputs, progress, lay, env);
      o.stopped <==> !env.importOk || env.cancelAt <= |files| || (env.zipLive && o.state.produced != [] && !env.zipOpenOk)
  {
  }

  /** An archive exists exactly when the imports work, the archive option
      is on at the end, something was produced and the archive can be
      created; it lies in the output folder under the end-of-run clock
      reading, and its members are the base names of exactly the produced
      paths whose add succeeds, all of them in order when every add
      succeeds. */
  lemma WorkerArchive(files: seq<Source>, rows: seq<Row>, outputs: set<OutFile>, progress: int, lay: Layout, env: Env)
    ensures var o := Worker(files, rows, outputs, progress, lay, env);
      && (o.archive.Some? <==> env.importOk && env.zipLive && o.state.produced != [] && env.zipOpenOk)
      && (o.archive.Some? ==>
           && o.archive.value.path == Child(lay.dir, "udf_exports_" + env.zipStamp + ".zip")
           && |o.archive.value.members| <= |o.state.produced|
           && (forall x :: x in o.archive.value.members ==> x in Names(o.state.produced))
           && (forall x :: x in o.archive.value.members <==>
                exists k :: 0 <= k < |o.state.produced| && env.addOk(k) && o.state.produced[k].name == x)
           && ((forall k :: 0 <= k < |o.state.produced| ==> env.addOk(k)) ==> o.archive.value.members == Names(o.state.produced)))
  {
    var o := Worker(files, rows, outputs, progress, lay, env);
    if o.archive.Some? {
      MembersFromNames(o.state.produced, 0, env.addOk);
      MembersFromAdded(o.state.produced, 0, env.addOk);
      if forall k :: 0 <= k < |o.state.produced| ==> env.addOk(k) {
        MembersFromAll(o.state.produced, 0, env.addOk);
      }
      assert o.state.produced[0..] == o.state.produced;
    }
  }

  /** Without the decoder or a writer library the rows, the disk and the
      progress are as they were and nothing is produced or archived. */
  lemma WorkerWithoutImports(files: seq<Source>, rows: seq<Row>, outputs: set<OutFile>, progress: int, lay: Layout, env: Env)
    requires !env.importOk
    ensures var o := Worker(files, rows, outputs, progress, lay, env);
      o.state.rows == rows && o.state.outputs == outputs && o.state.produced == [] && o.state.progress == progress
      && o.archive.None? && o.stopped
  {
  }

  /** With the imports in place the rows follow the loop: with c the first
      stop-flag read that sees the flag, the items before c are processed,
      item c (when it is an item) is "Cancelled", the later rows are as they
      were, so they keep the statuses of an earlier run; produced paths
      exist on disk. */
  lemma WorkerRows(files: seq<Source>, rows: seq<Row>, outputs: set<OutFile>, progress: int, lay: Layout, env: Env)
    requires Tracks(files, rows) && Distinct(files) && env.importOk
    ensures var o := Worker(files, rows, outputs, progress, lay, env);
      var c := env.cancelAt;
      && Tracks(files, o.state.rows)
      && (forall j :: 0 <= j < c && j < |files| ==> Processed(o.state.rows[j].status))
      && (c < |files| ==> o.state.rows[c].status == Cancelled)
      && (forall j :: c < j < |files| ==> o.state.rows[j] == rows[j])
      && o.state.progress == (if 0 < c && 0 < |files| then (if c < |files| then c else |files|) else progress)
      && |o.state.produced| <= 2 * |files|
      && outputs <= o.state.outputs
      && (forall f :: f in o.state.produced ==> f in o.state.outputs)
  {
    var start := Initial(rows, outputs, progress);
    RunFromRows(files, 0, start, lay, env);
    RunFromProduced(files, 0, start, lay, env);
    assert ProducedOnDisk(start);
  }

  /** A run in which nothing is cancelled or skipped and every step
      succeeds leaves every item "Done" and produces every planned output,
      in queue order. */
  lemma WorkerAllSucceed(files: seq<Source>, rows: seq<Row>, outputs: set<OutFile>, progress: int, lay: Layout, env: Env)
    requires Tracks(files, rows) && Distinct(files) && env.importOk
    requires |files| < env.cancelAt
    requires forall j :: 0 <= j < |files| ==> !env.skipAt(j) && Succeeds(env.attempt(j))
    ensures var o := Worker(files, rows, outputs, progress, lay, env);
      && |o.state.rows| == |files|
      && (forall j :: 0 <= j < |files| ==> o.state.rows[j].status == Done)
      && o.state.produced == AllPlanned(files, 0, lay)
      && (o.stopped <==> env.zipLive && o.state.produced != [] && !env.zipOpenOk)
  {
    var start := Initial(rows, outputs, progress);
    RunFromAllDone(files, 0, start, lay, env);
    RunFromAllProduced(files, 0, start, lay, env);
  }
}
