/**
 * Pre-flight of a conversion run: an ordered chain of refusal checks, the
 * creation of the export subfolder, and the overwrite prompt.  The prompt's
 * answer, the missing-dependency list and the clock reading are inputs.
 *
 * The subfolder is created before the prompt, so a run the user then
 * declines still leaves the folder behind.  The collision check uses its
 * own clock reading; the worker reads the clock again for its names.
 */
module Preflight {
  import opened Wrappers
  import opened Paths
  import opened Planner

  /** Why a conversion does not start. */
  datatype Refusal =
    | NoFiles
    | NoFormats
    | NoOutputDir
    | OutputDirMissing
    | MissingDeps(missing: seq<string>)
    | FolderFailed
    | Declined

  /** The decision: refuse, or start the worker on a base directory. */
  datatype Verdict = Refused(reason: Refusal) | Proceed(outDir: string)

  /** The options the pre-flight reads. */
  datatype Options = Options(outputDir: string, writeParquet: bool, writeCsv: bool,
                             subfolder: bool, timestampSuffix: bool, skipExisting: bool)

  /** Creating `out/UDF_Exports`, parents included, an existing folder
      accepted: it fails when `out` is a file or a file holds the name. */
  function MakeExportsDir(disk: Disk, out: string): Option<Disk>
  {
    var child := Child(out, ExportsFolder);
    if out in disk.dirs && child !in disk.sources then Some(disk.(dirs := disk.dirs + {child}))
    else None
  }

  /** The layout the collision check plans with. */
  function CheckLayout(opts: Options, stamp: string): Layout
  {
    Layout(BaseDir(Strip(opts.outputDir), opts.subfolder), NameSuffix(opts.timestampSuffix, stamp),
           opts.writeParquet, opts.writeCsv)
  }

  /** The checks of `_on_convert`, in order, with the disk they leave. */
  function Check(files: seq<Source>, opts: Options, disk: Disk, missing: seq<string>,
                 stamp: string, confirm: bool): (Verdict, Disk)
  {
    var out := Strip(opts.outputDir);
    if files == [] then (Refused(NoFiles), disk)
    else if !(opts.writeParquet || opts.writeCsv) then (Refused(NoFormats), disk)
    else if out == "" then (Refused(NoOutputDir), disk)
    else if !PathExists(disk, out) then (Refused(OutputDirMissing), disk)
    else if missing != [] then (Refused(MissingDeps(missing)), disk)
    else
      var made := if opts.subfolder then MakeExportsDir(disk, out) else Some(disk);
      if made.None? then (Refused(FolderFailed), disk)
      else
        var lay := CheckLayout(opts, stamp);
        if !opts.skipExisting && Collisions(files, lay, made.value.outputs) != [] && !confirm then
          (Refused(Declined), made.value)
        else (Proceed(lay.dir), made.value)
  }

  /** The checks of `_on_convert` one after the other, each refusal
      returning at once. */
  method RunChecks(files: seq<Source>, opts: Options, disk: Disk, missing: seq<string>, stamp: string, confirm: bool)
    returns (verdict: Verdict, disk': Disk)
    ensures (verdict, disk') == Check(files, opts, disk, missing, stamp, confirm)
  {
    verdict, disk' := Refused(NoFiles), disk;
    if files == [] {
      return;
    }
    if !(opts.writeParquet || opts.writeCsv) {
      verdict := Refused(NoFormats);
      return;
    }
    var out := Strip(opts.outputDir);
    if out == "" {
      verdict := Refused(NoOutputDir);
      return;
    }
    if !PathExists(disk, out) {
      verdict := Refused(OutputDirMissing);
      return;
    }
    if missing != [] {
      verdict := Refused(MissingDeps(missing));
      return;
    }
    if opts.subfolder {
      var made := MakeExportsDir(disk, out);
      if made.None? {
        verdict := Refused(FolderFailed);
        return;
      }
      disk' := made.value;
    }
    var lay := CheckLayout(opts, stamp);
    if !opts.skipExisting {
      var hits := FindCollisions(files, lay, disk'.outputs);
      if hits != [] && !confirm {
        verdict := Refused(Declined);
        return;
      }
    }
    verdict := Proceed(lay.dir);
  }

  /** The checks the run needs before the prompt. */
  predicate Admissible(files: seq<Source>, opts: Options, disk: Disk, missing: seq<string>)
  {
    && files != []
    && (opts.writeParquet || opts.writeCsv)
    && Strip(opts.outputDir) != ""
    && PathExists(disk, Strip(opts.outputDir))
    && missing == []
    && (opts.subfolder ==> MakeExportsDir(disk, Strip(opts.outputDir)).Some?)
  }

  /** The outcome of the chain, case by case. */
  lemma CheckCases(files: seq<Source>, opts: Options, disk: Disk, missing: seq<string>, stamp: string, confirm: bool)
    ensures var r := Check(files, opts, disk, missing, stamp, confirm);
      var out := Strip(opts.outputDir);
      var made := MakeExportsDir(disk, out);
      var after := if opts.subfolder && made.Some? then made.value else disk;
      && (files == [] ==> r == (Refused(NoFiles), disk))
      && (files != [] && !(opts.writeParquet || opts.writeCsv) ==> r == (Refused(NoFormats), disk))
      && (files != [] && (opts.writeParquet || opts.writeCsv) && out == "" ==> r == (Refused(NoOutputDir), disk))
      && (files != [] && (opts.writeParquet || opts.writeCsv) && out != "" && !PathExists(disk, out) ==>
           r == (Refused(OutputDirMissing), disk))
      && (files != [] && (opts.writeParquet || opts.writeCsv) && out != "" && PathExists(disk, out) && missing != [] ==>
           r == (Refused(MissingDeps(missing)), disk))
      && ((files != [] && (opts.writeParquet || opts.writeCsv) && out != "" && PathExists(disk, out) && missing == []
           && opts.subfolder && made.None?) ==> r == (Refused(FolderFailed), disk))
      && (Admissible(files, opts, disk, missing) ==>
           r.1 == after && (r.0 == Refused(Declined) || r.0 == Proceed(CheckLayout(opts, stamp).dir)))
      && (Admissible(files, opts, disk, missing) && !opts.skipExisting && !confirm ==>
           (r.0 == Refused(Declined) <==> Collisions(files, CheckLayout(opts, stamp), after.outputs) != []))
      && (Admissible(files, opts, disk, missing) && (opts.skipExisting || confirm) ==> r.0.Proceed?)
  {
    var out := Strip(opts.outputDir);
    if files != [] && (opts.writeParquet || opts.writeCsv) && out != "" && PathExists(disk, out) && missing == [] {
      var made := if opts.subfolder then MakeExportsDir(disk, out) else Some(disk);
      if made.Some? {
        var lay := CheckLayout(opts, stamp);
        var hits := Collisions(files, lay, made.value.outputs);
        assert Check(files, opts, disk, missing, stamp, confirm)
          == if !opts.skipExisting && hits != [] && !confirm then (Refused(Declined), made.value) else (Proceed(lay.dir), made.value);
      }
    }
  }

  /** A run starts exactly when every check passes and, unless skip mode is
      on, either no planned output exists or the user confirms; it starts on
      the stripped output folder, inside the export subfolder when that
      option is on. */
  lemma CheckRunsIff(files: seq<Source>, opts: Options, disk: Disk, missing: seq<string>, stamp: string, confirm: bool)
    ensures var (v, d) := Check(files, opts, disk, missing, stamp, confirm);
      var lay := CheckLayout(opts, stamp);
      && (v.Proceed? <==>
           && Admissible(files, opts, disk, missing)
           && (opts.skipExisting || confirm ||
               forall k :: 0 <= k < |files| ==> !AnyExists(PlanOf(files[k], lay), d.outputs)))
      && (v.Proceed? ==> v.outDir == BaseDir(Strip(opts.outputDir), opts.subfolder))
  {
    CheckCases(files, opts, disk, missing, stamp, confirm);
    var (v, d) := Check(files, opts, disk, missing, stamp, confirm);
    var lay := CheckLayout(opts, stamp);
    CollisionsEmptyIff(files, lay, d.outputs);
    if Admissible(files, opts, disk, missing) {
      var out := Strip(opts.outputDir);
      assert d == if opts.subfolder then MakeExportsDir(disk, out).value else disk;
      assert lay.dir == BaseDir(out, opts.subfolder);
    }
  }

  /** Each refusal names the first check that fails. */
  lemma CheckRefusalOrder(files: seq<Source>, opts: Options, disk: Disk, missing: seq<string>, stamp: string, confirm: bool)
    ensures var v := Check(files, opts, disk, missing, stamp, confirm).0;
      var out := Strip(opts.outputDir);
      && (v == Refused(NoFiles) <==> files == [])
      && (v == Refused(NoFormats) <==> files != [] && !opts.writeParquet && !opts.writeCsv)
      && (v == Refused(NoOutputDir) <==> files != [] && (opts.writeParquet || opts.writeCsv) && out == "")
      && (v == Refused(OutputDirMissing) <==>
           files != [] && (opts.writeParquet || opts.writeCsv) && out != "" && !PathExists(disk, out))
      && (v.Refused? && v.reason.MissingDeps? <==>
           files != [] && (opts.writeParquet || opts.writeCsv) && out != "" && PathExists(disk, out) && missing != [])
      && (v == Refused(Declined) ==> Admissible(files, opts, disk, missing) && !opts.skipExisting && !confirm)
  {
    CheckCases(files, opts, disk, missing, stamp, confirm);
  }

  /** The pre-flight changes the disk by the export subfolder alone, and
      only once every earlier check passed, whatever the prompt's answer. */
  lemma CheckDisk(files: seq<Source>, opts: Options, disk: Disk, missing: seq<string>, stamp: string, confirm: bool)
    ensures var (v, d) := Check(files, opts, disk, missing, stamp, confirm);
      var out := Strip(opts.outputDir);
      && d.sources == disk.sources && d.outputs == disk.outputs
      && (d.dirs == disk.dirs || (opts.subfolder && d.dirs == disk.dirs + {Child(out, ExportsFolder)}))
      && (Admissible(files, opts, disk, missing) && opts.subfolder ==> Child(out, ExportsFolder) in d.dirs)
  {
    CheckCases(files, opts, disk, missing, stamp, confirm);
  }

  /** A run the user declines still leaves the export subfolder created. */
  lemma DeclinedKeepsFolder(files: seq<Source>, opts: Options, disk: Disk, missing: seq<string>, stamp: string)
    requires Admissible(files, opts, disk, missing) && opts.subfolder && !opts.skipExisting
    requires Collisions(files, CheckLayout(opts, stamp), MakeExportsDir(disk, Strip(opts.outputDir)).value.outputs) != []
    ensures var (v, d) := Check(files, opts, disk, missing, stamp, false);
      v == Refused(Declined) && Child(Strip(opts.outputDir), ExportsFolder) in d.dirs
  {
  }
}
