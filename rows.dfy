/**
 * The queue view: one row per queued file, with the columns
 * `#`, file, status, parquet and csv, a colour tag and the view's own
 * item identifier.  Both program versions share these operations.
 */
module Rows {
  import opened Paths

  datatype Status = Queued | Running | Done | Skipped | Error | Cancelled

  /** The colour tags of a row. */
  datatype Tag = Ok | Run | Err | Wait

  datatype Row = Row(id: nat, num: int, path: Source, status: Status, parquet: string, csv: string, tag: Tag)

  /** The parquet/csv column text of a written format. */
  const CheckMark: string := "\U{2714}"
  /** The parquet/csv column text of a skipped item's existing output. */
  const ExistingMark: string := "\U{2714} (existing)"

  predicate Terminal(s: Status)
  {
    s == Done || s == Skipped || s == Error || s == Cancelled
  }

  /** Every row has its own view identifier. */
  predicate UniqueIds(rows: seq<Row>)
  {
    forall i, j :: 0 <= i < j < |rows| ==> rows[i].id != rows[j].id
  }

  /** Appends a row for `path`, numbered one past the current row count,
      with empty format columns and the "wait" tag. */
  function Inserted(rows: seq<Row>, id: nat, path: Source, status: Status): (r: seq<Row>)
    ensures |r| == |rows| + 1 && r[..|rows|] == rows
    ensures r[|rows|].path == path && r[|rows|].status == status && r[|rows|].num == |r|
    ensures r[|rows|].parquet == "" && r[|rows|].csv == ""
  {
    rows + [Row(id, |rows| + 1, path, status, "", "", Wait)]
  }

  /** Index of the first row showing `path`, or |rows| when none does. */
  function FirstMatch(rows: seq<Row>, path: Source): (k: nat)
    ensures k <= |rows|
  {
    if rows == [] then 0
    else if rows[0].path == path then 0
    else 1 + FirstMatch(rows[1..], path)
  }

  /** The index found is the first row showing `path`, and |rows| exactly
      when no row shows it. */
  lemma {:induction false} FirstMatchSpec(rows: seq<Row>, path: Source)
    ensures var k := FirstMatch(rows, path);
      && (k < |rows| ==> rows[k].path == path)
      && (forall j :: 0 <= j < k ==> rows[j].path != path)
  {
    if rows != [] && rows[0].path != path {
      FirstMatchSpec(rows[1..], path);
      var k := FirstMatch(rows, path);
      forall j | 0 <= j < k ensures rows[j].path != path {
        if j > 0 {
          assert rows[j] == rows[1..][j - 1];
        }
      }
    }
  }

  /** The first row showing `path` is the one FirstMatch finds. */
  lemma FirstMatchIs(rows: seq<Row>, path: Source, k: nat)
    requires k <= |rows| && (k < |rows| ==> rows[k].path == path)
    requires forall j :: 0 <= j < k ==> rows[j].path != path
    ensures FirstMatch(rows, path) == k
  {
    FirstMatchSpec(rows, path);
  }

  /** The new values of a row: status and tag always, a format column only
      when its argument is non-empty. */
  function Updated(row: Row, status: Status, tag: Tag, parquet: string, csv: string): Row
  {
    row.(status := status, tag := tag,
         parquet := if parquet != "" then parquet else row.parquet,
         csv := if csv != "" then csv else row.csv)
  }

  /** The rows after a status update of `path`. */
  function StatusUpdated(rows: seq<Row>, path: Source, status: Status, tag: Tag, parquet: string, csv: string): (r: seq<Row>)
    ensures |r| == |rows|
  {
    var k := FirstMatch(rows, path);
    if k < |rows| then rows[k := Updated(rows[k], status, tag, parquet, csv)] else rows
  }

  /** A status update rewrites the first row showing `path` (status and tag,
      and each format column whose new text is non-empty) and no other row;
      no row changes its identifier, number or path. */
  lemma StatusUpdatedSpec(rows: seq<Row>, path: Source, status: Status, tag: Tag, parquet: string, csv: string)
    ensures var r := StatusUpdated(rows, path, status, tag, parquet, csv);
      && (forall j :: 0 <= j < |rows| ==>
           r[j].id == rows[j].id && r[j].num == rows[j].num && r[j].path == rows[j].path)
      && (forall j :: 0 <= j < |rows| && rows[j].path == path && (forall i :: 0 <= i < j ==> rows[i].path != path) ==>
           && r[j].status == status && r[j].tag == tag
           && r[j].parquet == (if parquet != "" then parquet else rows[j].parquet)
           && r[j].csv == (if csv != "" then csv else rows[j].csv))
      && (forall j :: 0 <= j < |rows| && (rows[j].path != path || exists i :: 0 <= i < j && rows[i].path == path) ==>
           r[j] == rows[j])
  {
    FirstMatchSpec(rows, path);
  }

  /** `b` has the rows of `a`, each with its identifier, number and path. */
  predicate SameFrame(a: seq<Row>, b: seq<Row>)
  {
    |b| == |a| && forall j :: 0 <= j < |a| ==> b[j].id == a[j].id && b[j].num == a[j].num && b[j].path == a[j].path
  }

  /** A status update keeps every row's identifier, number and path. */
  lemma StatusUpdatedFrame(rows: seq<Row>, path: Source, status: Status, tag: Tag, parquet: string, csv: string)
    ensures SameFrame(rows, StatusUpdated(rows, path, status, tag, parquet, csv))
  {
    StatusUpdatedSpec(rows, path, status, tag, parquet, csv);
  }

  /** `_set_status`: scan the rows, update the first one showing `path`, stop. */
  method SetStatus(rows: seq<Row>, path: Source, status: Status, tag: Tag, parquet: string, csv: string)
    returns (r: seq<Row>)
    ensures r == StatusUpdated(rows, path, status, tag, parquet, csv)
  {
    var i := 0;
    while i < |rows| && rows[i].path != path
      invariant 0 <= i <= |rows|
      invariant forall j :: 0 <= j < i ==> rows[j].path != path
    {
      i := i + 1;
    }
    r := rows;
    if i < |rows| {
      r := rows[i := Updated(rows[i], status, tag, parquet, csv)];
    }
    FirstMatchIs(rows, path, i);
  }

  /** The rows with the `#` column rewritten to the 1-based position. */
  function Renumbered(rows: seq<Row>): (r: seq<Row>)
    ensures |r| == |rows|
    ensures forall i :: 0 <= i < |rows| ==> r[i].num == i + 1 && r[i] == rows[i].(num := i + 1)
  {
    seq(|rows|, i requires 0 <= i < |rows| => rows[i].(num := i + 1))
  }

  /** `_renumber`: walk the rows in order, rewriting each number. */
  method Renumber(rows: seq<Row>) returns (r: seq<Row>)
    ensures r == Renumbered(rows)
  {
    r := rows;
    var i := 0;
    while i < |r|
      invariant 0 <= i <= |r| == |rows|
      invariant forall j :: 0 <= j < i ==> r[j] == rows[j].(num := j + 1)
      invariant forall j :: i <= j < |r| ==> r[j] == rows[j]
    {
      r := r[i := r[i].(num := i + 1)];
      i := i + 1;
    }
  }

  /** The rows show the queue's files, one row per file, in queue order. */
  predicate Tracks(files: seq<Source>, rows: seq<Row>)
  {
    |rows| == |files| && forall i :: 0 <= i < |rows| ==> rows[i].path == files[i]
  }

  /** The rows show the queue: one row per queued file, in queue order,
      numbered from 1. */
  predicate Mirrors(files: seq<Source>, rows: seq<Row>)
  {
    |rows| == |files| && forall i :: 0 <= i < |rows| ==> rows[i].path == files[i] && rows[i].num == i + 1
  }

  predicate Distinct(files: seq<Source>)
  {
    forall i, j :: 0 <= i < j < |files| ==> files[i] != files[j]
  }

  /** Renumbering keeps the row order and makes the numbers positional. */
  lemma RenumberedMirrors(files: seq<Source>, rows: seq<Row>)
    requires |rows| == |files|
    requires forall i :: 0 <= i < |rows| ==> rows[i].path == files[i]
    ensures Mirrors(files, Renumbered(rows))
  {
  }

  /** When the rows show a duplicate-free queue, a status update of the
      k-th file rewrites the k-th row in place. */
  lemma StatusUpdatedIs(files: seq<Source>, rows: seq<Row>, k: nat, status: Status, tag: Tag, parquet: string, csv: string)
    requires Distinct(files) && Tracks(files, rows) && k < |files|
    ensures StatusUpdated(rows, files[k], status, tag, parquet, csv) == rows[k := Updated(rows[k], status, tag, parquet, csv)]
  {
    FirstMatchIs(rows, files[k], k);
  }

  /** When the rows show a duplicate-free queue, a status update of the
      k-th file changes the k-th row alone. */
  lemma StatusUpdatedAt(files: seq<Source>, rows: seq<Row>, k: nat, status: Status, tag: Tag, parquet: string, csv: string)
    requires Distinct(files) && |rows| == |files|
    requires forall i :: 0 <= i < |rows| ==> rows[i].path == files[i]
    requires k < |files|
    ensures var r := StatusUpdated(rows, files[k], status, tag, parquet, csv);
      && r[k] == Updated(rows[k], status, tag, parquet, csv)
      && (forall j :: 0 <= j < |rows| && j != k ==> r[j] == rows[j])
  {
    FirstMatchIs(rows, files[k], k);
  }
}
