/**
 * The queue store: the ordered list of source files and the operations that
 * add to it and remove from it.  Adding scans the chosen paths in order and
 * appends each one that exists (and, for a drop, has a `.udf`/`.bin`
 * suffix) and is not queued yet, inserting a "Queued" row for it.
 * Removing pops, for each selected row, the file at the row's displayed
 * number minus one; the numbers are not refreshed until all selected rows
 * are gone.
 */
module Queue {
  import opened Paths
  import opened Rows
  import opened Seqs

  /** Whether an add admits `p`: the path exists, as a file or a folder,
      and, for a drop, has a UDF/BIN suffix. */
  predicate Accepts(p: Source, disk: Disk, dropped: bool)
  {
    PathExists(disk, p.path) && (dropped ==> IsDropSuffix(p.suffix))
  }

  /** The queue after the add loop has scanned `paths`. */
  function Admitted(files: seq<Source>, paths: seq<Source>, disk: Disk, dropped: bool): seq<Source>
  {
    if paths == [] then files
    else
      var before := Admitted(files, paths[..|paths| - 1], disk, dropped);
      var p := paths[|paths| - 1];
      if Accepts(p, disk, dropped) && p !in before then before + [p] else before
  }

  /** Reference definition of what an add appends: the admissible paths not
      already queued, each at its first occurrence, in the order chosen. */
  function Fresh(files: seq<Source>, paths: seq<Source>, disk: Disk, dropped: bool): seq<Source>
  {
    if paths == [] then []
    else
      var init := paths[..|paths| - 1];
      var p := paths[|paths| - 1];
      Fresh(files, init, disk, dropped)
        + (if Accepts(p, disk, dropped) && p !in files && p !in init then [p] else [])
  }

  lemma {:induction false} FreshMembership(files: seq<Source>, paths: seq<Source>, disk: Disk, dropped: bool, x: Source)
    ensures x in Fresh(files, paths, disk, dropped) <==> x in paths && Accepts(x, disk, dropped) && x !in files
  {
    if paths != [] {
      var init := paths[..|paths| - 1];
      FreshMembership(files, init, disk, dropped, x);
      assert paths == init + [paths[|paths| - 1]];
    }
  }

  lemma {:induction false} FreshDistinct(files: seq<Source>, paths: seq<Source>, disk: Disk, dropped: bool)
    ensures Distinct(Fresh(files, paths, disk, dropped))
  {
    if paths != [] {
      var init := paths[..|paths| - 1];
      FreshDistinct(files, init, disk, dropped);
      FreshMembership(files, init, disk, dropped, paths[|paths| - 1]);
    }
  }

  /** The add loop appends exactly the reference list to the queue. */
  lemma {:induction false} AdmittedIsFresh(files: seq<Source>, paths: seq<Source>, disk: Disk, dropped: bool)
    ensures Admitted(files, paths, disk, dropped) == files + Fresh(files, paths, disk, dropped)
  {
    if paths == [] {
      assert files + [] == files;
    } else {
      var init := paths[..|paths| - 1];
      var p := paths[|paths| - 1];
      AdmittedIsFresh(files, init, disk, dropped);
      FreshMembership(files, init, disk, dropped, p);
      assert (files + Fresh(files, init, disk, dropped)) + [p] == files + (Fresh(files, init, disk, dropped) + [p]);
      assert files + Fresh(files, init, disk, dropped) + [] == files + Fresh(files, init, disk, dropped);
    }
  }

  /** Adding keeps the queued files in front, admits exactly the admissible
      chosen paths, and keeps a duplicate-free queue duplicate-free. */
  lemma AdmittedProperties(files: seq<Source>, paths: seq<Source>, disk: Disk, dropped: bool)
    ensures var r := Admitted(files, paths, disk, dropped);
      && |files| <= |r| && r[..|files|] == files
      && (forall x :: x in r <==> x in files || (x in paths && Accepts(x, disk, dropped)))
      && (Distinct(files) ==> Distinct(r))
  {
    AdmittedIsFresh(files, paths, disk, dropped);
    var fr := Fresh(files, paths, disk, dropped);
    forall x ensures x in fr <==> x in paths && Accepts(x, disk, dropped) && x !in files {
      FreshMembership(files, paths, disk, dropped, x);
    }
    FreshDistinct(files, paths, disk, dropped);
    assert (files + fr)[..|files|] == files;
    if Distinct(files) {
      forall i, j | 0 <= i < j < |files + fr| ensures (files + fr)[i] != (files + fr)[j] {
        if j >= |files| && i < |files| {
          assert (files + fr)[j] in fr;
        }
        if i >= |files| {
          assert (files + fr)[i] == fr[i - |files|] && (files + fr)[j] == fr[j - |files|];
        }
      }
    }
  }

  /** `files'`, `rows'` and `nextId'` extend `files`, `rows` and `nextId`
      with one fresh "Queued" row per appended file. */
  predicate Extends(files: seq<Source>, rows: seq<Row>, nextId: nat, files': seq<Source>, rows': seq<Row>, nextId': nat)
  {
    && |files| <= |files'| && nextId' == nextId + (|files'| - |files|)
    && |rows'| == |rows| + (|files'| - |files|) && rows'[..|rows|] == rows
    && (forall k :: |rows| <= k < |rows'| ==>
         rows'[k] == Row(nextId + (k - |rows|), k + 1, files'[|files| + (k - |rows|)], Queued, "", "", Wait))
    && (Mirrors(files, rows) ==> Mirrors(files', rows'))
  }

  /** Appending one file with its row keeps the extension. */
  lemma ExtendsStep(files: seq<Source>, rows: seq<Row>, nextId: nat, files': seq<Source>, rows': seq<Row>, nextId': nat, p: Source)
    requires Extends(files, rows, nextId, files', rows', nextId')
    ensures Extends(files, rows, nextId, files' + [p], Inserted(rows', nextId', p, Queued), nextId' + 1)
  {
    var f, r := files' + [p], Inserted(rows', nextId', p, Queued);
    assert r == rows' + [Row(nextId', |rows'| + 1, p, Queued, "", "", Wait)];
    assert r[..|rows|] == rows'[..|rows|];
    forall k | |rows| <= k < |r|
      ensures r[k] == Row(nextId + (k - |rows|), k + 1, f[|files| + (k - |rows|)], Queued, "", "", Wait)
    {
      if k < |rows'| {
        assert r[k] == rows'[k] && f[|files| + (k - |rows|)] == files'[|files| + (k - |rows|)];
      }
    }
    if Mirrors(files, rows) {
      forall i | 0 <= i < |r| ensures r[i].path == f[i] && r[i].num == i + 1 {
        if i < |rows'| {
          assert r[i] == rows'[i];
        }
      }
    }
  }

  /** The add loop of `_add_files` and `_on_drop_files`: append and insert a
      "Queued" row for each path admitted. */
  method AdmitAll(files: seq<Source>, rows: seq<Row>, nextId: nat, paths: seq<Source>, disk: Disk, dropped: bool)
    returns (files': seq<Source>, rows': seq<Row>, nextId': nat)
    ensures files' == Admitted(files, paths, disk, dropped)
    ensures |files| <= |files'| && nextId' == nextId + (|files'| - |files|)
    ensures |rows'| == |rows| + (|files'| - |files|) && rows'[..|rows|] == rows
    ensures forall k :: |rows| <= k < |rows'| ==>
      rows'[k] == Row(nextId + (k - |rows|), k + 1, files'[|files| + (k - |rows|)], Queued, "", "", Wait)
    ensures Mirrors(files, rows) ==> Mirrors(files', rows')
  {
    files', rows', nextId' := files, rows, nextId;
    var i := 0;
    while i < |paths|
      invariant 0 <= i <= |paths|
      invariant files' == Admitted(files, paths[..i], disk, dropped)
      invariant Extends(files, rows, nextId, files', rows', nextId')
    {
      var p := paths[i];
      assert paths[..i + 1][..i] == paths[..i];
      if PathExists(disk, p.path) && (!dropped || IsDropSuffix(p.suffix)) && p !in files' {
        ExtendsStep(files, rows, nextId, files', rows', nextId', p);
        files' := files' + [p];
        rows' := Inserted(rows', nextId', p, Queued);
        nextId' := nextId' + 1;
      }
      i := i + 1;
    }
    assert paths[..|paths|] == paths;
  }

  // ---------------------------------------------------------------------
  // Removal.
  // ---------------------------------------------------------------------

  /** Index of the row with view identifier `id`, or |rows|. */
  function IdIndex(rows: seq<Row>, id: nat): (k: nat)
    ensures k <= |rows|
    ensures k < |rows| ==> rows[k].id == id
    ensures k == |rows| ==> forall j :: 0 <= j < |rows| ==> rows[j].id != id
  {
    if rows == [] then 0 else if rows[0].id == id then 0 else 1 + IdIndex(rows[1..], id)
  }

  /** The first row with identifier `id` is the one IdIndex finds. */
  lemma {:induction false} IdIndexIs(rows: seq<Row>, id: nat, k: nat)
    requires k <= |rows| && (k < |rows| ==> rows[k].id == id)
    requires forall j :: 0 <= j < k ==> rows[j].id != id
    ensures IdIndex(rows, id) == k
  {
    if rows != [] && k > 0 {
      forall j | 0 <= j < k - 1 ensures rows[1..][j].id != id {
        assert rows[1..][j] == rows[j + 1];
      }
      IdIndexIs(rows[1..], id, k - 1);
    }
  }

  /** Scan of the view for the row with identifier `id`. */
  method FindId(rows: seq<Row>, id: nat) returns (k: nat)
    ensures k == IdIndex(rows, id)
  {
    k := 0;
    while k < |rows| && rows[k].id != id
      invariant 0 <= k <= |rows|
      invariant forall j :: 0 <= j < k ==> rows[j].id != id
    {
      k := k + 1;
    }
    IdIndexIs(rows, id, k);
  }

  /** The view identifiers of the rows. */
  function IdSet(rows: seq<Row>): set<nat>
  {
    set r | r in rows :: r.id
  }

  /** The selection lists rows of the view, each once. */
  predicate SelectionValid(rows: seq<Row>, selection: seq<nat>)
  {
    && (forall i :: 0 <= i < |selection| ==> selection[i] in IdSet(rows))
    && (forall i, j :: 0 <= i < j < |selection| ==> selection[i] != selection[j])
  }

  /** Queue and rows after the removal loop over `selection`: each selected
      row pops the file at its (stale) number minus one, when that index is
      in range, and is then deleted. */
  function Removed(files: seq<Source>, rows: seq<Row>, selection: seq<nat>): (seq<Source>, seq<Row>)
    decreases |selection|
  {
    if selection == [] then (files, rows)
    else
      var k := IdIndex(rows, selection[0]);
      if k == |rows| then Removed(files, rows, selection[1..])
      else
        var idx := rows[k].num - 1;
        var f := if 0 <= idx < |files| then Without(files, idx) else files;
        Removed(f, Without(rows, k), selection[1..])
  }

  /** The removal loop of `_remove_selected`: per selected identifier,
      find its row, pop the file at the row's number minus one when that
      index is in range, and delete the row. */
  method RemoveAll(files: seq<Source>, rows: seq<Row>, selection: seq<nat>)
    returns (files': seq<Source>, rows': seq<Row>)
    ensures (files', rows') == Removed(files, rows, selection)
  {
    files', rows' := files, rows;
    var i := 0;
    while i < |selection|
      invariant 0 <= i <= |selection|
      invariant Removed(files', rows', selection[i..]) == Removed(files, rows, selection)
    {
      var k := FindId(rows', selection[i]);
      assert selection[i..][1..] == selection[i + 1..];
      if k < |rows'| {
        var idx := rows'[k].num - 1;
        if 0 <= idx < |files'| {
          files' := Without(files', idx);
        }
        rows' := Without(rows', k);
      }
      i := i + 1;
    }
    assert selection[i..] == [];
  }

  /** The rows whose identifiers are not selected, in order. */
  function Unselected(rows: seq<Row>, selection: seq<nat>): seq<Row>
  {
    if rows == [] then []
    else Unselected(rows[..|rows| - 1], selection)
         + (if rows[|rows| - 1].id in selection then [] else [rows[|rows| - 1]])
  }

  lemma {:induction false} UnselectedAppend(a: seq<Row>, b: seq<Row>, selection: seq<nat>)
    ensures Unselected(a + b, selection) == Unselected(a, selection) + Unselected(b, selection)
  {
    if b != [] {
      assert (a + b)[..|a + b| - 1] == a + b[..|b| - 1];
      UnselectedAppend(a, b[..|b| - 1], selection);
    } else {
      assert a + b == a;
    }
  }

  lemma {:induction false} UnselectedAgree(rows: seq<Row>, s1: seq<nat>, s2: seq<nat>)
    requires forall j :: 0 <= j < |rows| ==> (rows[j].id in s1 <==> rows[j].id in s2)
    ensures Unselected(rows, s1) == Unselected(rows, s2)
  {
    if rows != [] {
      UnselectedAgree(rows[..|rows| - 1], s1, s2);
    }
  }

  /** The removal loop pops at most one file per selected row and never
      adds one. */
  lemma {:induction false} RemovedShrinks(files: seq<Source>, rows: seq<Row>, selection: seq<nat>)
    ensures var f := Removed(files, rows, selection).0;
      && |files| - |selection| <= |f| <= |files|
      && multiset(f) <= multiset(files)
    decreases |selection|
  {
    if selection != [] {
      var k := IdIndex(rows, selection[0]);
      if k == |rows| {
        RemovedShrinks(files, rows, selection[1..]);
      } else {
        var idx := rows[k].num - 1;
        var f := if 0 <= idx < |files| then Without(files, idx) else files;
        if 0 <= idx < |files| {
          WithoutMultiset(files, idx);
        }
        RemovedShrinks(f, Without(rows, k), selection[1..]);
      }
    }
  }

  lemma UniqueIdsWithout(rows: seq<Row>, k: nat)
    requires UniqueIds(rows) && k < |rows|
    ensures UniqueIds(Without(rows, k))
  {
    var rest := Without(rows, k);
    forall i, j | 0 <= i < j < |rest| ensures rest[i].id != rest[j].id {
      var i' := if i < k then i else i + 1;
      var j' := if j < k then j else j + 1;
      assert rest[i] == rows[i'] && rest[j] == rows[j'];
    }
  }

  /** Deleting a row of a view with unique identifiers deletes exactly its identifier. */
  lemma IdSetWithout(rows: seq<Row>, k: nat)
    requires UniqueIds(rows) && k < |rows|
    ensures IdSet(Without(rows, k)) == IdSet(rows) - {rows[k].id}
  {
    var rest := Without(rows, k);
    forall id | id in IdSet(rows) - {rows[k].id} ensures id in IdSet(rest) {
      var r :| r in rows && r.id == id;
      var m :| 0 <= m < |rows| && rows[m] == r;
      var m' := if m < k then m else m - 1;
      assert rest[m'] == rows[m];
    }
    forall id | id in IdSet(rest) ensures id in IdSet(rows) - {rows[k].id} {
      var r :| r in rest && r.id == id;
      var m :| 0 <= m < |rest| && rest[m] == r;
      var m' := if m < k then m else m + 1;
      assert rows[m'] == r;
    }
  }

  lemma IdIndexOfMember(rows: seq<Row>, id: nat)
    requires id in IdSet(rows)
    ensures IdIndex(rows, id) < |rows|
  {
    var r :| r in rows && r.id == id;
  }

  /** Deleting the first selected row leaves a view and a selection of the
      same kind. */
  lemma RemoveStep(rows: seq<Row>, selection: seq<nat>)
    requires UniqueIds(rows) && SelectionValid(rows, selection) && selection != []
    ensures var k := IdIndex(rows, selection[0]);
      k < |rows| && UniqueIds(Without(rows, k)) && SelectionValid(Without(rows, k), selection[1..])
  {
    IdIndexOfMember(rows, selection[0]);
    var k := IdIndex(rows, selection[0]);
    UniqueIdsWithout(rows, k);
    IdSetWithout(rows, k);
  }

  /** When no row carries the head of the selection, dropping the head
      leaves the same rows unselected. */
  lemma UnselectedDropHead(rows: seq<Row>, selection: seq<nat>)
    requires selection != []
    requires forall j :: 0 <= j < |rows| ==> rows[j].id != selection[0]
    ensures Unselected(rows, selection) == Unselected(rows, selection[1..])
  {
    var tail := selection[1..];
    forall j | 0 <= j < |rows| ensures rows[j].id in selection <==> rows[j].id in tail {
      var x := rows[j].id;
      if x in selection {
        var i :| 0 <= i < |selection| && selection[i] == x;
        assert i != 0;
        assert tail[i - 1] == x;
      }
      if x in tail {
        var i :| 0 <= i < |tail| && tail[i] == x;
        assert selection[i + 1] == x;
      }
    }
    UnselectedAgree(rows, selection, tail);
  }

  /** The unselected rows are unchanged by taking out a row whose identifier
      heads the selection and, identifiers being unique, appears nowhere else. */
  lemma UnselectedWithout(rows: seq<Row>, k: nat, selection: seq<nat>)
    requires UniqueIds(rows) && k < |rows| && selection != [] && rows[k].id == selection[0]
    ensures Unselected(Without(rows, k), selection[1..]) == Unselected(rows, selection)
  {
    var front, mid, back := rows[..k], [rows[k]], rows[k + 1..];
    var tail := selection[1..];
    var fm := front + mid;
    assert rows == fm + back;
    assert Without(rows, k) == front + back;
    UnselectedAppend(fm, back, selection);
    UnselectedAppend(front, mid, selection);
    UnselectedAppend(front, back, tail);
    var uf, um, ub := Unselected(front, selection), Unselected(mid, selection), Unselected(back, selection);
    assert um == [] by {
      assert mid[..0] == [];
      assert selection[0] in selection;
    }
    FrontIds(rows, k, front);
    UnselectedDropHead(front, selection);
    BackIds(rows, k, back);
    UnselectedDropHead(back, selection);
    assert Unselected(fm, selection) == uf;
    assert Unselected(rows, selection) == uf + ub;
  }

  lemma FrontIds(rows: seq<Row>, k: nat, front: seq<Row>)
    requires UniqueIds(rows) && k < |rows| && front == rows[..k]
    ensures forall j :: 0 <= j < |front| ==> front[j].id != rows[k].id
  {
  }

  lemma BackIds(rows: seq<Row>, k: nat, back: seq<Row>)
    requires UniqueIds(rows) && k < |rows| && back == rows[k + 1..]
    ensures forall j :: 0 <= j < |back| ==> back[j].id != rows[k].id
  {
    forall j | 0 <= j < |back| ensures back[j].id != rows[k].id {
      assert back[j] == rows[k + 1 + j];
    }
  }

  /** The removal loop deletes exactly the selected rows, keeping the order
      of the others. */
  lemma {:induction false} RemovedRows(files: seq<Source>, rows: seq<Row>, selection: seq<nat>)
    requires UniqueIds(rows) && SelectionValid(rows, selection)
    ensures Removed(files, rows, selection).1 == Unselected(rows, selection)
    decreases |selection|
  {
    if selection == [] {
      UnselectedNone(rows);
    } else {
      RemoveStep(rows, selection);
      var k := IdIndex(rows, selection[0]);
      var idx := rows[k].num - 1;
      var f := if 0 <= idx < |files| then Without(files, idx) else files;
      RemovedRows(f, Without(rows, k), selection[1..]);
      UnselectedWithout(rows, k, selection);
    }
  }

  lemma {:induction false} UnselectedNone(rows: seq<Row>)
    ensures Unselected(rows, []) == rows
  {
    if rows != [] {
      UnselectedNone(rows[..|rows| - 1]);
    }
  }

  /** Every view identifier is below `n`, the next one to hand out. */
  predicate IdsBelow(rows: seq<Row>, n: nat)
  {
    forall i :: 0 <= i < |rows| ==> rows[i].id < n
  }

  /** Renumbering keeps every view identifier. */
  lemma RenumberedIds(rows: seq<Row>, n: nat)
    requires UniqueIds(rows) && IdsBelow(rows, n)
    ensures UniqueIds(Renumbered(rows)) && IdsBelow(Renumbered(rows), n)
  {
  }

  lemma DistinctWithout(files: seq<Source>, k: nat)
    requires Distinct(files) && k < |files|
    ensures Distinct(Without(files, k))
  {
    var rest := Without(files, k);
    forall i, j | 0 <= i < j < |rest| ensures rest[i] != rest[j] {
      var i', j' := if i < k then i else i + 1, if j < k then j else j + 1;
      assert rest[i] == files[i'] && rest[j] == files[j'];
    }
  }

  /** The removal loop keeps the view identifiers distinct and below the
      next one, and keeps a duplicate-free queue duplicate-free. */
  lemma {:induction false} RemovedKeeps(files: seq<Source>, rows: seq<Row>, selection: seq<nat>, n: nat)
    requires UniqueIds(rows) && IdsBelow(rows, n) && Distinct(files)
    ensures var (f, r) := Removed(files, rows, selection);
      UniqueIds(r) && IdsBelow(r, n) && Distinct(f)
    decreases |selection|
  {
    if selection != [] {
      var k := IdIndex(rows, selection[0]);
      if k == |rows| {
        RemovedKeeps(files, rows, selection[1..], n);
      } else {
        var idx := rows[k].num - 1;
        var f := if 0 <= idx < |files| then Without(files, idx) else files;
        if 0 <= idx < |files| {
          DistinctWithout(files, idx);
        }
        UniqueIdsWithout(rows, k);
        var r := Without(rows, k);
        assert IdsBelow(r, n) by {
          forall i | 0 <= i < |r| ensures r[i].id < n {
            assert r[i] == rows[if i < k then i else i + 1];
          }
        }
        assert Removed(files, rows, selection) == Removed(f, r, selection[1..]);
        RemovedKeeps(f, r, selection[1..], n);
      }
    }
  }

  /** A single selected row of a view that shows the queue removes exactly
      its own file, and the renumbered rows show the queue again. */
  lemma RemoveOneRow(files: seq<Source>, rows: seq<Row>, k: nat)
    requires Mirrors(files, rows) && k < |rows| && UniqueIds(rows)
    ensures var (f, r) := Removed(files, rows, [rows[k].id]);
      f == Without(files, k) && Mirrors(f, Renumbered(r))
  {
    assert IdIndex(rows, rows[k].id) == k;
    var f := Without(files, k);
    var r := Without(rows, k);
    assert Removed(files, rows, [rows[k].id]) == Removed(f, r, []);
    forall i | 0 <= i < |r| ensures r[i].path == f[i] {
      if i < k { assert r[i] == rows[i] && f[i] == files[i]; }
      else { assert r[i] == rows[i + 1] && f[i] == files[i + 1]; }
    }
    RenumberedMirrors(f, r);
  }

  /** `Path.exists()` holds for a folder too, so a dropped folder named
      `d.udf` is queued like a file. */
  lemma DroppedFolderQueued()
    ensures
      var d := Source("in/d.udf", "d", ".udf");
      Admitted([], [d], Disk({}, {"in/d.udf"}, {}), true) == [d]
  {
    var d := Source("in/d.udf", "d", ".udf");
    assert Lower(".udf") == ".udf";
    assert [d][..0] == [];
  }

  /** Removing two rows at once pops by the numbers shown before either
      removal: with files a, b, c and the first two rows selected, the
      second pop takes c, so b stays queued while the remaining row shows c. */
  lemma RemoveDriftExample()
    ensures
      var a := Source("a.udf", "a", ".udf");
      var b := Source("b.udf", "b", ".udf");
      var c := Source("c.udf", "c", ".udf");
      var rows := [Row(1, 1, a, Queued, "", "", Wait), Row(2, 2, b, Queued, "", "", Wait), Row(3, 3, c, Queued, "", "", Wait)];
      var (f, r) := Removed([a, b, c], rows, [1, 2]);
      f == [b] && |r| == 1 && r[0].path == c
  {
    var a := Source("a.udf", "a", ".udf");
    var b := Source("b.udf", "b", ".udf");
    var c := Source("c.udf", "c", ".udf");
    var rows := [Row(1, 1, a, Queued, "", "", Wait), Row(2, 2, b, Queued, "", "", Wait), Row(3, 3, c, Queued, "", "", Wait)];
    assert IdIndex(rows, 1) == 0;
    var rows1 := rows[1..];
    assert IdIndex(rows1, 2) == 0;
    assert Without([a, b, c], 0) == [b, c];
    assert Without([b, c], 1) == [b];
    assert Removed([a, b, c], rows, [1, 2]) == Removed([b, c], rows1, [2]);
    assert rows1[0].num == 2;
    assert Without(rows1, 0) == rows1[1..];
    assert Removed([b, c], rows1, [2]) == Removed([b], rows1[1..], []);
  }

  /** Every row shows its 1-based position in the `#` column. */
  predicate Numbered(rows: seq<Row>)
  {
    forall i :: 0 <= i < |rows| ==> rows[i].num == i + 1
  }

  /** Rows with the same identifiers and numbers keep the view invariants. */
  lemma SameFrameKeeps(a: seq<Row>, b: seq<Row>, n: nat)
    requires SameFrame(a, b) && UniqueIds(a) && IdsBelow(a, n) && Numbered(a)
    ensures UniqueIds(b) && IdsBelow(b, n) && Numbered(b)
  {
  }

  /** Renumbering rows that are numbered already changes nothing. */
  lemma RenumberedNumbered(rows: seq<Row>)
    requires Numbered(rows)
    ensures Renumbered(rows) == rows
  {
  }

  /** The removal loop followed by renumbering deletes exactly the selected
      rows and keeps the view consistent: identifiers distinct and below
      the next one, rows numbered, the queue duplicate-free. */
  lemma RemovalKeepsValid(files: seq<Source>, rows: seq<Row>, selection: seq<nat>, n: nat)
    requires UniqueIds(rows) && IdsBelow(rows, n) && Distinct(files) && SelectionValid(rows, selection)
    ensures Removed(files, rows, selection).1 == Unselected(rows, selection)
    ensures var r := Renumbered(Unselected(rows, selection));
      UniqueIds(r) && IdsBelow(r, n) && Numbered(r)
    ensures Distinct(Removed(files, rows, selection).0)
  {
    RemovedRows(files, rows, selection);
    RemovedKeeps(files, rows, selection, n);
    RenumberedIds(Removed(files, rows, selection).1, n);
  }

  /** The admission loop, then the renumbering. */
  method AdmitRenumber(files: seq<Source>, rows: seq<Row>, nextId: nat, paths: seq<Source>, disk: Disk, dropped: bool)
    returns (files': seq<Source>, rows': seq<Row>, nextId': nat)
    requires UniqueIds(rows) && IdsBelow(rows, nextId) && Numbered(rows) && Distinct(files)
    ensures UniqueIds(rows') && IdsBelow(rows', nextId') && Numbered(rows') && Distinct(files')
    ensures files' == Admitted(files, paths, disk, dropped)
    ensures |files| <= |files'| && |rows'| == |rows| + (|files'| - |files|)
    ensures rows'[..|rows|] == rows
    ensures forall k :: |rows| <= k < |rows'| ==>
      rows'[k] == Row(nextId + (k - |rows|), k + 1, files'[|files| + (k - |rows|)], Queued, "", "", Wait)
    ensures nextId' == nextId + (|files'| - |files|)
    ensures Tracks(files, rows) ==> Tracks(files', rows')
  {
    var r;
    files', r, nextId' := AdmitAll(files, rows, nextId, paths, disk, dropped);
    AdmittedProperties(files, paths, disk, dropped);
    assert Numbered(r) by {
      forall k | 0 <= k < |r| ensures r[k].num == k + 1 {
        if k < |rows| {
          assert r[k] == r[..|rows|][k];
        }
      }
    }
    assert Mirrors(files, rows) <==> Tracks(files, rows);
    rows' := Renumber(r);
    RenumberedNumbered(r);
  }

  /** The removal loop, then the renumbering. */
  method RemoveRenumber(files: seq<Source>, rows: seq<Row>, selection: seq<nat>, n: nat)
    returns (files': seq<Source>, rows': seq<Row>)
    requires UniqueIds(rows) && IdsBelow(rows, n) && Distinct(files) && SelectionValid(rows, selection)
    ensures files' == Removed(files, rows, selection).0 && rows' == Renumbered(Unselected(rows, selection))
    ensures UniqueIds(rows') && IdsBelow(rows', n) && Numbered(rows') && Distinct(files')
  {
    RemovalKeepsValid(files, rows, selection, n);
    var r;
    files', r := RemoveAll(files, rows, selection);
    rows' := Renumber(r);
  }
}
