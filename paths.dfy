/** A small failure-compatible option type for planned outputs and archives. */
module Wrappers {
  datatype Option<T> = None | Some(value: T)
}

/**
 * Paths and output planning of the UDF/BIN converter.
 *
 * The filesystem is a value: the set of existing source paths, the set of
 * existing directories and the set of existing output files.  A source path
 * carries the two parts of it that the engine uses (stem and suffix), as the
 * path library would compute them.  An output file is a directory and a base
 * name, so the base name used for archive entries is a field.
 */
module Paths {
  import opened Wrappers

  /** A queued source file; `path` is what identifies it in the queue. */
  datatype Source = Source(path: string, stem: string, suffix: string)

  /** The two output formats. */
  datatype Format = Parquet | Csv

  /** An output base name: the stem part and the format, whose extension
      completes it; `Text` spells it out. */
  datatype FileName = FileName(base: string, format: Format)

  /** An output file: its parent directory and its base name. */
  datatype OutFile = OutFile(dir: string, name: FileName)

  /** What exists on disk. */
  datatype Disk = Disk(sources: set<string>, dirs: set<string>, outputs: set<OutFile>)

  /** `Path.exists()`: the path names a file or a directory. */
  predicate PathExists(disk: Disk, p: string)
  {
    p in disk.sources || p in disk.dirs
  }

  const ExportsFolder: string := "UDF_Exports"

  /** The extension of a format. */
  function Ext(f: Format): string
  {
    match f
    case Parquet => ".parquet"
    case Csv => ".csv"
  }

  /** The base name as a string: `base + extension`. */
  function Text(n: FileName): string
  {
    n.base + Ext(n.format)
  }

  /** `dir / name` for a directory. */
  function Child(dir: string, name: string): string
  {
    dir + "/" + name
  }

  // ---------------------------------------------------------------------
  // String helpers: Python's str.strip() and ASCII lower-casing.
  // ---------------------------------------------------------------------

  /** The characters Python's str.strip() removes: those whose `isspace()`
      holds (tab to carriage return, the four ASCII separators, space, and
      the Unicode line, paragraph and space separators). */
  predicate IsWhitespace(c: char)
  {
    || c == ' ' || ('\t' <= c <= '\r') || ('\U{001C}' <= c <= '\U{001F}')
    || c == '\U{0085}' || c == '\U{00A0}' || c == '\U{1680}' || ('\U{2000}' <= c <= '\U{200A}')
    || c == '\U{2028}' || c == '\U{2029}' || c == '\U{202F}' || c == '\U{205F}' || c == '\U{3000}'
  }

  /** Drops leading whitespace. */
  function StripLeft(s: string): string
  {
    if s != [] && IsWhitespace(s[0]) then StripLeft(s[1..]) else s
  }

  /** Drops trailing whitespace. */
  function StripRight(s: string): string
  {
    if s != [] && IsWhitespace(s[|s| - 1]) then StripRight(s[..|s| - 1]) else s
  }

  /** Python's `s.strip()`: drop leading and trailing whitespace. */
  function Strip(s: string): string
  {
    StripRight(StripLeft(s))
  }

  /** StripLeft drops exactly the longest whitespace prefix. */
  lemma {:induction false} StripLeftSpec(s: string)
    ensures var r := StripLeft(s);
      && |r| <= |s| && r == s[|s| - |r|..]
      && (r != [] ==> !IsWhitespace(r[0]))
      && (forall i :: 0 <= i < |s| - |r| ==> IsWhitespace(s[i]))
  {
    if s != [] && IsWhitespace(s[0]) {
      StripLeftSpec(s[1..]);
      var r := StripLeft(s);
      forall i | 0 <= i < |s| - |r| ensures IsWhitespace(s[i]) {
        if i > 0 {
          assert s[i] == s[1..][i - 1];
        }
      }
    }
  }

  /** StripRight drops exactly the longest whitespace suffix. */
  lemma {:induction false} StripRightSpec(s: string)
    ensures var r := StripRight(s);
      && |r| <= |s| && r == s[..|r|]
      && (r != [] ==> !IsWhitespace(r[|r| - 1]))
      && (forall i :: |r| <= i < |s| ==> IsWhitespace(s[i]))
  {
    if s != [] && IsWhitespace(s[|s| - 1]) {
      StripRightSpec(s[..|s| - 1]);
      var r := StripRight(s);
      forall i | |r| <= i < |s| ensures IsWhitespace(s[i]) {
        if i < |s| - 1 {
          assert s[i] == s[..|s| - 1][i];
        }
      }
    }
  }

  /** The stripped string is the piece of `s` between a whitespace prefix
      and a whitespace suffix, and neither starts nor ends with whitespace;
      it is empty exactly when `s` is all whitespace. */
  lemma StripSpec(s: string)
    ensures var r := Strip(s);
      var lead := |s| - |StripLeft(s)|;
      && 0 <= lead && lead + |r| <= |s| && r == s[lead..lead + |r|]
      && (forall i :: 0 <= i < |s| && (i < lead || lead + |r| <= i) ==> IsWhitespace(s[i]))
      && (r != [] ==> !IsWhitespace(r[0]) && !IsWhitespace(r[|r| - 1]))
      && (r == [] <==> forall i :: 0 <= i < |s| ==> IsWhitespace(s[i]))
  {
    var l := StripLeft(s);
    StripLeftSpec(s);
    StripRightSpec(l);
    var r := Strip(s);
    var lead := |s| - |l|;
    assert l == s[lead..];
    assert r == l[..|r|];
    assert r == s[lead..lead + |r|];
    forall i | lead + |r| <= i < |s| ensures IsWhitespace(s[i]) {
      assert s[i] == l[i - lead];
    }
  }

  function LowerChar(c: char): char
  {
    if 'A' <= c <= 'Z' then (c as int + 32) as char else c
  }

  /** ASCII lower-casing of `s`, character by character. */
  function Lower(s: string): (r: string)
    ensures |r| == |s|
    ensures forall i :: 0 <= i < |s| ==> r[i] == LowerChar(s[i])
  {
    if s == [] then [] else [LowerChar(s[0])] + Lower(s[1..])
  }

  /** The drop handler only admits `.udf` and `.bin` files, in any letter case. */
  predicate IsDropSuffix(suffix: string)
  {
    Lower(suffix) == ".udf" || Lower(suffix) == ".bin"
  }

  /** Suffixes that agree up to ASCII letter case are admitted alike. */
  lemma DropSuffixIgnoresCase(s: string, t: string)
    requires |s| == |t|
    requires forall i :: 0 <= i < |s| ==> LowerChar(s[i]) == LowerChar(t[i])
    ensures IsDropSuffix(s) == IsDropSuffix(t)
  {
    assert Lower(s) == Lower(t);
  }

  // ---------------------------------------------------------------------
  // Path planner.
  // ---------------------------------------------------------------------

  /** The file-name suffix: `"_" + stamp` when the timestamp option is on. */
  function NameSuffix(timestampSuffix: bool, stamp: string): string
  {
    if timestampSuffix then "_" + stamp else ""
  }

  /** The base output directory, with the optional export subfolder. */
  function BaseDir(outputDir: string, subfolder: bool): string
  {
    if subfolder then Child(outputDir, ExportsFolder) else outputDir
  }

  /** One planned path per enabled format. */
  datatype Plan = Plan(parquet: Option<OutFile>, csv: Option<OutFile>)

  function PlanFor(src: Source, dir: string, suffix: string, doParquet: bool, doCsv: bool): Plan
  {
    var base := src.stem + suffix;
    Plan(if doParquet then Some(OutFile(dir, FileName(base, Parquet))) else None,
         if doCsv then Some(OutFile(dir, FileName(base, Csv))) else None)
  }

  /** The planned paths in the order the worker writes them: parquet, then csv. */
  function Planned(p: Plan): seq<OutFile>
  {
    (if p.parquet.Some? then [p.parquet.value] else []) + (if p.csv.Some? then [p.csv.value] else [])
  }

  /** True when some planned output already exists. */
  predicate AnyExists(p: Plan, outputs: set<OutFile>)
  {
    (p.parquet.Some? && p.parquet.value in outputs) || (p.csv.Some? && p.csv.value in outputs)
  }

  /** The planned outputs of a source: one per enabled format, in the base
      directory, named stem + suffix + extension. */
  lemma PlanShape(src: Source, outputDir: string, subfolder: bool, timestampSuffix: bool,
                  stamp: string, doParquet: bool, doCsv: bool)
    ensures var p := PlanFor(src, BaseDir(outputDir, subfolder), NameSuffix(timestampSuffix, stamp), doParquet, doCsv);
      && |Planned(p)| == (if doParquet then 1 else 0) + (if doCsv then 1 else 0)
      && (forall f :: f in Planned(p) ==> f.dir == (if subfolder then outputDir + "/" + ExportsFolder else outputDir))
      && (doParquet ==> Text(Planned(p)[0].name) == src.stem + (if timestampSuffix then "_" + stamp else "") + ".parquet")
      && (doCsv ==> Text(Planned(p)[|Planned(p)| - 1].name) == src.stem + (if timestampSuffix then "_" + stamp else "") + ".csv")
  {
  }

  lemma CancelSuffix(a: string, b: string, c: string)
    requires a + c == b + c
    ensures a == b
  {
    assert |a| == |b|;
    assert a == (a + c)[..|a|];
    assert b == (b + c)[..|b|];
  }

  /** Spelling out base names loses nothing: two names with the same text
      are the same name, so modelling names as (base, format) pairs agrees
      with comparing the strings the program builds. */
  lemma TextInjective(m: FileName, n: FileName)
    requires Text(m) == Text(n)
    ensures m == n
  {
    var s := Text(m);
    assert s[|s| - 1] == Ext(m.format)[|Ext(m.format)| - 1];
    assert s[|s| - 1] == Ext(n.format)[|Ext(n.format)| - 1];
    assert m.format == n.format;
    CancelSuffix(m.base, n.base, Ext(m.format));
  }

  /** Under one suffix, distinct stems never share a planned output, so a
      planned output determines the source stem. */
  lemma PlannedNameDeterminesStem(s1: Source, s2: Source, dir: string, suffix: string,
                                  doParquet: bool, doCsv: bool, f: OutFile)
    requires f in Planned(PlanFor(s1, dir, suffix, doParquet, doCsv))
    requires f in Planned(PlanFor(s2, dir, suffix, doParquet, doCsv))
    ensures s1.stem == s2.stem
  {
    CancelSuffix(s1.stem, s2.stem, suffix);
  }

  /** The collision check and the worker each read the clock: with the
      timestamp option on, two different readings plan different names. */
  lemma SuffixReadingsDiffer(src: Source, dir: string, stamp1: string, stamp2: string)
    requires stamp1 != stamp2
    ensures PlanFor(src, dir, NameSuffix(true, stamp1), true, true)
         != PlanFor(src, dir, NameSuffix(true, stamp2), true, true)
  {
    assert stamp1 == (src.stem + ("_" + stamp1))[|src.stem| + 1..];
    assert stamp2 == (src.stem + ("_" + stamp2))[|src.stem| + 1..];
  }
}

/** Concatenation of per-element lists over a sequence, and its algebra. */
module Seqs {
  /** `s` with the element at index `k` taken out (a list `pop`). */
  function Without<T>(s: seq<T>, k: nat): (r: seq<T>)
    requires k < |s|
    ensures |r| == |s| - 1
    ensures forall i :: 0 <= i < k ==> r[i] == s[i]
    ensures forall i :: k <= i < |r| ==> r[i] == s[i + 1]
  {
    s[..k] + s[k + 1..]
  }

  /** Popping an element takes exactly that one out of the multiset. */
  lemma WithoutMultiset<T>(s: seq<T>, k: nat)
    requires k < |s|
    ensures multiset(Without(s, k)) + multiset{s[k]} == multiset(s)
  {
    assert s == s[..k] + [s[k]] + s[k + 1..];
  }

  function ConcatMap<T, U>(xs: seq<T>, f: T -> seq<U>): seq<U>
  {
    if xs == [] then [] else ConcatMap(xs[..|xs| - 1], f) + f(xs[|xs| - 1])
  }

  lemma {:induction false} ConcatMapAppend<T, U>(a: seq<T>, b: seq<T>, f: T -> seq<U>)
    ensures ConcatMap(a + b, f) == ConcatMap(a, f) + ConcatMap(b, f)
  {
    if b == [] {
      assert a + b == a;
    } else {
      assert (a + b)[..|a + b| - 1] == a + b[..|b| - 1];
      ConcatMapAppend(a, b[..|b| - 1], f);
    }
  }

  lemma {:induction false} ConcatMapMembership<T, U>(xs: seq<T>, f: T -> seq<U>, u: U)
    ensures u in ConcatMap(xs, f) <==> exists k :: 0 <= k < |xs| && u in f(xs[k])
  {
    if xs != [] {
      var init := xs[..|xs| - 1];
      ConcatMapMembership(init, f, u);
      forall k | 0 <= k < |init| ensures init[k] == xs[k] { }
      if u in f(xs[|xs| - 1]) {
        assert exists k :: 0 <= k < |xs| && u in f(xs[k]);
      }
    }
  }

  lemma {:induction false} ConcatMapEmpty<T, U>(xs: seq<T>, f: T -> seq<U>)
    ensures ConcatMap(xs, f) == [] <==> forall k :: 0 <= k < |xs| ==> f(xs[k]) == []
  {
    if xs != [] {
      var init := xs[..|xs| - 1];
      ConcatMapEmpty(init, f);
      forall k | 0 <= k < |init| ensures init[k] == xs[k] { }
    }
  }
}

/** The pre-flight collision detector. */
module Planner {
  import opened Wrappers
  import opened Paths
  import opened Seqs

  /** What the planner needs: base directory, name suffix, enabled formats. */
  datatype Layout = Layout(dir: string, suffix: string, doParquet: bool, doCsv: bool)

  function PlanOf(src: Source, lay: Layout): Plan
  {
    PlanFor(src, lay.dir, lay.suffix, lay.doParquet, lay.doCsv)
  }

  /** The colliding names of one planned output. */
  function Hit(f: Option<OutFile>, outputs: set<OutFile>): seq<FileName>
  {
    if f.Some? && f.value in outputs then [f.value.name] else []
  }

  /** The colliding names of one source: parquet first, then csv. */
  function ItemCollisions(src: Source, lay: Layout, outputs: set<OutFile>): seq<FileName>
  {
    var p := PlanOf(src, lay);
    Hit(p.parquet, outputs) + Hit(p.csv, outputs)
  }

  /** All colliding names, in queue order. */
  function Collisions(files: seq<Source>, lay: Layout, outputs: set<OutFile>): seq<FileName>
  {
    ConcatMap(files, (src: Source) => ItemCollisions(src, lay, outputs))
  }

  /** The scan of the queue, appending hits as it goes. */
  method FindCollisions(files: seq<Source>, lay: Layout, outputs: set<OutFile>) returns (hits: seq<FileName>)
    ensures hits == Collisions(files, lay, outputs)
  {
    hits := [];
    var i := 0;
    while i < |files|
      invariant 0 <= i <= |files|
      invariant hits == Collisions(files[..i], lay, outputs)
    {
      var f := files[i];
      var base := f.stem + lay.suffix;
      if lay.doParquet && OutFile(lay.dir, FileName(base, Parquet)) in outputs {
        hits := hits + [FileName(base, Parquet)];
      }
      if lay.doCsv && OutFile(lay.dir, FileName(base, Csv)) in outputs {
        hits := hits + [FileName(base, Csv)];
      }
      assert files[..i + 1][..i] == files[..i];
      i := i + 1;
    }
    assert files[..|files|] == files;
  }

  /** Collisions of a concatenated queue are the collisions of its parts, in
      order: the scan reports the queue front to back. */
  lemma CollisionsAppend(a: seq<Source>, b: seq<Source>, lay: Layout, outputs: set<OutFile>)
    ensures Collisions(a + b, lay, outputs) == Collisions(a, lay, outputs) + Collisions(b, lay, outputs)
  {
    ConcatMapAppend(a, b, (src: Source) => ItemCollisions(src, lay, outputs));
  }

  /** The names one source contributes: its planned outputs for enabled
      formats that exist, parquet before csv. */
  lemma ItemCollisionsShape(src: Source, lay: Layout, outputs: set<OutFile>, name: FileName)
    ensures name in ItemCollisions(src, lay, outputs) <==>
      OutFile(lay.dir, name) in Planned(PlanOf(src, lay)) && OutFile(lay.dir, name) in outputs
    ensures ItemCollisions(src, lay, outputs) == [] <==> !AnyExists(PlanOf(src, lay), outputs)
  {
  }

  /** A name is reported iff some queued source contributes it. */
  lemma CollisionsMembership(files: seq<Source>, lay: Layout, outputs: set<OutFile>, name: FileName)
    ensures name in Collisions(files, lay, outputs) <==>
      exists k :: 0 <= k < |files| && name in ItemCollisions(files[k], lay, outputs)
  {
    ConcatMapMembership(files, (src: Source) => ItemCollisions(src, lay, outputs), name);
  }

  /** No collision is reported iff no queued source has an existing planned
      output: the same test the worker's skip mode applies per item. */
  lemma CollisionsEmptyIff(files: seq<Source>, lay: Layout, outputs: set<OutFile>)
    ensures Collisions(files, lay, outputs) == [] <==>
      forall k :: 0 <= k < |files| ==> !AnyExists(PlanOf(files[k], lay), outputs)
  {
    ConcatMapEmpty(files, (src: Source) => ItemCollisions(src, lay, outputs));
  }
}
