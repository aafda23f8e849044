/**
 * The rest of `main_bin` in uncompile.py: after the option loop, the optional recursive
 * expansion of directories (lines 165-174), the common-prefix reduction and the "No files
 * given" check (lines 176-188), the choice between stdout, a single output file and an
 * output directory (lines 190-197), and the dispatch of the per-file work to the
 * workers (lines 208-300). The file system (`os.path.isdir`, `os.walk`) and the
 * per-file decompiler `main` are parameters.
 */
module Uncompile {
  import opened Wrappers
  import Paths
  import opened CommandLine
  import opened Workers

  /** One triple `(root, dirs, files)` that `os.walk` yields. */
  datatype WalkEntry = WalkEntry(root: string, dirs: seq<string>, files: seq<string>)

  /** Python's `str.endswith`. */
  predicate EndsWith(s: string, suffix: string) {
    |suffix| <= |s| && s[|s| - |suffix|..] == suffix
  }

  /** Line 172: the file names `-r` keeps. */
  predicate IsBytecodeName(name: string) {
    EndsWith(name, ".pyc") || EndsWith(name, ".pyo")
  }

  // Lines 170-173 as three nested folds: over the files of one walk entry, over the
  // entries of one walk, over the command-line arguments.

  function FilesUnder(e: WalkEntry, k: nat): seq<string>
    requires k <= |e.files|
  {
    if k == 0 then []
    else
      var df := e.files[k - 1];
      FilesUnder(e, k - 1) + (if IsBytecodeName(df) then [Paths.Join(e.root, df)] else [])
  }

  function WalkFiles(entries: seq<WalkEntry>): seq<string> {
    if entries == [] then []
    else
      var e := entries[|entries| - 1];
      WalkFiles(entries[..|entries| - 1]) + FilesUnder(e, |e.files|)
  }

  /** The list `expanded_files` that lines 167-173 build. */
  function Expanded(paths: seq<string>, isDir: string -> bool, walk: string -> seq<WalkEntry>)
    : seq<string>
  {
    if paths == [] then []
    else
      var f := paths[|paths| - 1];
      Expanded(paths[..|paths| - 1], isDir, walk) + (if isDir(f) then WalkFiles(walk(f)) else [])
  }

  /** Lines 171-173 for one walk entry: append the joined path of every `.pyc` or `.pyo`
      file it lists to `expanded`. */
  method AppendBytecodeFiles(expanded: seq<string>, e: WalkEntry) returns (r: seq<string>)
    ensures r == expanded + FilesUnder(e, |e.files|)
  {
    r := expanded;
    for k := 0 to |e.files|
      invariant r == expanded + FilesUnder(e, k)
    {
      var df := e.files[k];
      if IsBytecodeName(df) {
        r := r + [Paths.Join(e.root, df)];
      }
    }
  }

  /** Lines 170-173 for one directory: the entries of its walk in order. */
  method AppendWalk(expanded: seq<string>, entries: seq<WalkEntry>) returns (r: seq<string>)
    ensures r == expanded + WalkFiles(entries)
  {
    r := expanded;
    for j := 0 to |entries|
      invariant r == expanded + WalkFiles(entries[..j])
    {
      r := AppendBytecodeFiles(r, entries[j]);
      assert entries[..j + 1][..j] == entries[..j];
    }
    assert entries[..|entries|] == entries;
  }

  /** Lines 166-174 when `-r` was given: every `.pyc` or `.pyo` file found by walking each
      argument that is a directory, in walk order. An argument that is not a directory
      contributes nothing. */
  method ExpandDirs(paths: seq<string>, isDir: string -> bool, walk: string -> seq<WalkEntry>)
    returns (expanded: seq<string>)
    ensures expanded == Expanded(paths, isDir, walk)
  {
    expanded := [];
    for i := 0 to |paths|
      invariant expanded == Expanded(paths[..i], isDir, walk)
    {
      var f := paths[i];
      assert paths[..i + 1][..i] == paths[..i];
      if isDir(f) {
        expanded := AppendWalk(expanded, walk(f));
      }
    }
    assert paths[..|paths|] == paths;
  }

  // What `-r` finds, stated without the folds.

  lemma EndsWithJoin(root: string, name: string, suffix: string)
    requires EndsWith(name, suffix)
    ensures EndsWith(Paths.Join(root, name), suffix)
  {
    var r := Paths.Join(root, name);
    assert r[|r| - |name|..] == name;
    assert r[|r| - |suffix|..] == name[|name| - |suffix|..];
  }

  lemma JoinKeepsBytecode(root: string, name: string)
    requires IsBytecodeName(name)
    ensures IsBytecodeName(Paths.Join(root, name))
  {
    if EndsWith(name, ".pyc") {
      EndsWithJoin(root, name, ".pyc");
    } else {
      EndsWithJoin(root, name, ".pyo");
    }
  }

  lemma {:induction false} FilesUnderBytecode(e: WalkEntry, k: nat)
    requires k <= |e.files|
    ensures forall x :: x in FilesUnder(e, k) ==> IsBytecodeName(x)
  {
    if k > 0 {
      FilesUnderBytecode(e, k - 1);
      var df := e.files[k - 1];
      if IsBytecodeName(df) {
        JoinKeepsBytecode(e.root, df);
        assert FilesUnder(e, k) == FilesUnder(e, k - 1) + [Paths.Join(e.root, df)];
      } else {
        assert FilesUnder(e, k) == FilesUnder(e, k - 1);
      }
    }
  }

  lemma {:induction false} WalkFilesBytecode(entries: seq<WalkEntry>)
    ensures forall x :: x in WalkFiles(entries) ==> IsBytecodeName(x)
  {
    if entries != [] {
      var e := entries[|entries| - 1];
      WalkFilesBytecode(entries[..|entries| - 1]);
      FilesUnderBytecode(e, |e.files|);
    }
  }

  /** Line 172: with `-r` only `.pyc` and `.pyo` files are decompiled. */
  lemma {:induction false} ExpandedAreBytecode(paths: seq<string>, isDir: string -> bool,
                                               walk: string -> seq<WalkEntry>)
    ensures forall x :: x in Expanded(paths, isDir, walk) ==> IsBytecodeName(x)
  {
    if paths != [] {
      ExpandedAreBytecode(paths[..|paths| - 1], isDir, walk);
      WalkFilesBytecode(walk(paths[|paths| - 1]));
    }
  }

  lemma {:induction false} FilesUnderComplete(e: WalkEntry, k: nat, d: nat)
    requires d < k <= |e.files| && IsBytecodeName(e.files[d])
    ensures Paths.Join(e.root, e.files[d]) in FilesUnder(e, k)
  {
    if d < k - 1 {
      FilesUnderComplete(e, k - 1, d);
    }
  }

  lemma {:induction false} WalkFilesComplete(entries: seq<WalkEntry>, j: nat, d: nat)
    requires j < |entries| && d < |entries[j].files| && IsBytecodeName(entries[j].files[d])
    ensures Paths.Join(entries[j].root, entries[j].files[d]) in WalkFiles(entries)
  {
    var init := entries[..|entries| - 1];
    if j < |init| {
      assert init[j] == entries[j];
      WalkFilesComplete(init, j, d);
    } else {
      FilesUnderComplete(entries[j], |entries[j].files|, d);
    }
  }

  /** Lines 168-173: every `.pyc` or `.pyo` file listed while walking an argument that is a
      directory is decompiled. */
  lemma {:induction false} ExpandedComplete(paths: seq<string>, isDir: string -> bool,
                                            walk: string -> seq<WalkEntry>, i: nat, j: nat, d: nat)
    requires i < |paths| && isDir(paths[i])
    requires j < |walk(paths[i])|
    requires d < |walk(paths[i])[j].files| && IsBytecodeName(walk(paths[i])[j].files[d])
    ensures Paths.Join(walk(paths[i])[j].root, walk(paths[i])[j].files[d]) in Expanded(paths, isDir, walk)
  {
    var init := paths[..|paths| - 1];
    if i < |init| {
      assert init[i] == paths[i];
      ExpandedComplete(init, isDir, walk, i, j, d);
    } else {
      WalkFilesComplete(walk(paths[i]), j, d);
    }
  }

  /** Line 169: with `-r`, arguments that are plain files are dropped, not decompiled. */
  lemma {:induction false} PlainFilesDropped(paths: seq<string>, isDir: string -> bool,
                                             walk: string -> seq<WalkEntry>)
    requires forall i :: 0 <= i < |paths| ==> !isDir(paths[i])
    ensures Expanded(paths, isDir, walk) == []
  {
    if paths != [] {
      PlainFilesDropped(paths[..|paths| - 1], isDir, walk);
    }
  }

  // Lines 176-197: the plan the workers are given.

  /** Where the decompiled text goes (lines 190-197): `outfile` names a single output
      file (None: stdout), `outBase` a directory under which each input's relative path
      is recreated. */
  datatype Target = Target(outfile: Option<string>, outBase: Option<string>)

  /** Python truthiness of the `outfile` local: None and the empty string are false. */
  predicate Given(outfile: Option<string>) {
    outfile.Some? && outfile.value != ""
  }

  /** Lines 190-197. `isDir` stands for `os.path.isdir`, `count` for `len(pyc_paths)`. */
  function ResolveOutput(outfile: Option<string>, isDir: string -> bool, count: nat): (t: Target)
    ensures !(t.outfile.Some? && t.outBase.Some?)
    ensures t.outBase.Some? <==>
      Given(outfile) && outfile.value != "-" && (isDir(outfile.value) || count > 1)
    ensures t.outBase.Some? ==> t.outBase == outfile
    ensures t.outfile == (if outfile == Some("-") || t.outBase.Some? then None else outfile)
  {
    if outfile == Some("-") then Target(None, None)
    else if Given(outfile) && isDir(outfile.value) then Target(None, outfile)
    else if Given(outfile) && count > 1 then Target(None, outfile)
    else Target(outfile, None)
  }

  /** What `main_bin` hands to the workers: the settings of the option loop, `src_base`,
      the reduced `pyc_paths` and the output target. */
  datatype Plan = Plan(settings: Settings, srcBase: string, files: seq<string>, target: Target)

  /** `pyc_paths` before the reduction: the arguments, or what `-r` found under them. */
  function Inputs(s: Settings, args: seq<string>, isDir: string -> bool, walk: string -> seq<WalkEntry>)
    : seq<string>
  {
    if s.recurseDirs then Expanded(args, isDir, walk) else args
  }

  /** Lines 165-197 after a successful option loop. */
  function MakePlan(s: Settings, args: seq<string>, isDir: string -> bool, walk: string -> seq<WalkEntry>)
    : (r: Result<Plan, Stop>)
    ensures var paths := Inputs(s, args, isDir, walk);
      && (r.Failure? <==> paths == [])
      && (r.Failure? ==> r.error == NoFilesGiven)
      && (r.Success? ==>
            && r.value.settings == s
            && r.value.srcBase == Paths.SrcBase(paths)
            && |r.value.files| == |paths|
            && (forall i :: 0 <= i < |paths| ==>
                  Paths.Join(r.value.srcBase, []) + r.value.files[i] == paths[i])
            && r.value.target == ResolveOutput(s.outfile, isDir, |paths|))
  {
    var red := Paths.Reduce(Inputs(s, args, isDir, walk));
    if red.relative == [] then Failure(NoFilesGiven)
    else Success(Plan(s, red.srcBase, red.relative, ResolveOutput(s.outfile, isDir, |red.relative|)))
  }

  /** The arguments of the per-file call at line 266: `src_base`, `out_base`, the one file,
      no source paths, `outfile` and the `options` dictionary. */
  datatype Job = Job(srcBase: string, outBase: Option<string>, files: seq<string>,
                     sourcePaths: seq<string>, outfile: Option<string>, options: Options)

  function FileJob(plan: Plan, f: string): Job {
    Job(plan.srcBase, plan.target.outBase, [f], [], plan.target.outfile, plan.settings.options)
  }

  /** The per-file `main` of one worker (line 266), seen through the counters it returns. */
  function PerFile(plan: Plan, decompile: Job -> Counters): string -> Counters {
    f => decompile(FileJob(plan, f))
  }

  /** How `main_bin` ends: stopped before any file was processed, in the serial branch
      (lines 208-235, not modelled further), or with the totals of the parallel branch. */
  datatype Outcome = Stopped(stop: Stop) | Serial(plan: Plan) | Parallel(plan: Plan, totals: Counters)

  /** Lines 165-300, once the option loop has produced the settings `s`. */
  function AfterOptions(s: Settings, args: seq<string>, isDir: string -> bool,
                        walk: string -> seq<WalkEntry>, decompile: Job -> Counters): Outcome
  {
    match MakePlan(s, args, isDir, walk)
    case Failure(stop) => Stopped(stop)
    case Success(plan) =>
      if s.numproc <= 1 then Serial(plan)
      else Parallel(plan, SumFiles(plan.files, PerFile(plan, decompile)))
  }

  /** `main_bin` as a whole. `decompile` is the per-file `main` of `uncompyle6.main`. */
  function Run(opts: seq<OptPair>, args: seq<string>, parseInt: string -> Option<int>,
               isDir: string -> bool, walk: string -> seq<WalkEntry>, decompile: Job -> Counters)
    : Outcome
  {
    match ParseAll(opts, parseInt)
    case Failure(stop) => Stopped(stop)
    case Success(s) => AfterOptions(s, args, isDir, walk, decompile)
  }

  /** Lines 105-300: parse the options, expand and reduce the paths, resolve the output
      target, and with more than one process run the workers and drain their totals. */
  method MainBin(opts: seq<OptPair>, args: seq<string>, parseInt: string -> Option<int>,
                 isDir: string -> bool, walk: string -> seq<WalkEntry>, decompile: Job -> Counters)
    returns (outcome: Outcome)
    ensures outcome == Run(opts, args, parseInt, isDir, walk, decompile)
  {
    var parsed := ParseOptions(opts, parseInt);
    if parsed.Failure? {
      return Stopped(parsed.error);
    }
    var s := parsed.value;
    var paths := args;
    if s.recurseDirs {
      paths := ExpandDirs(args, isDir, walk);
    }
    var red := Paths.Reduce(paths);
    if red.relative == [] {
      return Stopped(NoFilesGiven);
    }
    var plan := Plan(s, red.srcBase, red.relative, ResolveOutput(s.outfile, isDir, |red.relative|));
    if s.numproc <= 1 {
      return Serial(plan);
    }
    var totals, _ := RunParallel(plan.files, s.numproc, PerFile(plan, decompile));
    return Parallel(plan, totals);
  }

  // Properties of `main_bin` as a whole.

  /** Lines 186-188: the program stops with "No files given" (exit status 1) exactly when
      the options were accepted and no path is left to decompile. */
  lemma NoFilesGivenExactly(opts: seq<OptPair>, args: seq<string>, parseInt: string -> Option<int>,
                            isDir: string -> bool, walk: string -> seq<WalkEntry>,
                            decompile: Job -> Counters)
    ensures Run(opts, args, parseInt, isDir, walk, decompile) == Stopped(NoFilesGiven) <==>
      ParseAll(opts, parseInt).Success? && Inputs(ParseAll(opts, parseInt).value, args, isDir, walk) == []
    ensures ExitCode(NoFilesGiven) == 1
  {
    LoopNeverReportsNoFiles(opts, parseInt);
  }

  /** Lines 166-169 and 186-188: with `-r`, arguments none of which is a directory leave
      nothing to decompile. */
  lemma RecursingOverPlainFiles(opts: seq<OptPair>, args: seq<string>, parseInt: string -> Option<int>,
                                isDir: string -> bool, walk: string -> seq<WalkEntry>,
                                decompile: Job -> Counters)
    requires ParseAll(opts, parseInt).Success? && ParseAll(opts, parseInt).value.recurseDirs
    requires forall i :: 0 <= i < |args| ==> !isDir(args[i])
    ensures Run(opts, args, parseInt, isDir, walk, decompile) == Stopped(NoFilesGiven)
  {
    PlainFilesDropped(args, isDir, walk);
  }

  /** Lines 252-300: the totals printed by the parallel branch are the sum over all files,
      however the workers happen to share the files out between them. */
  lemma ParallelTotalsAnySharing(s: Settings, args: seq<string>, isDir: string -> bool,
                                 walk: string -> seq<WalkEntry>, decompile: Job -> Counters,
                                 parts: seq<seq<string>>)
    requires AfterOptions(s, args, isDir, walk, decompile).Parallel?
    requires multiset(Concat(parts)) == multiset(AfterOptions(s, args, isDir, walk, decompile).plan.files)
    ensures var r := AfterOptions(s, args, isDir, walk, decompile);
      Total(Shares(parts, PerFile(r.plan, decompile))) == r.totals
  {
    var r := AfterOptions(s, args, isDir, walk, decompile);
    ParallelTotals(s, args, isDir, walk, decompile);
    SharedOutWork(r.plan.files, parts, PerFile(r.plan, decompile));
  }

  lemma ParallelTotals(s: Settings, args: seq<string>, isDir: string -> bool,
                       walk: string -> seq<WalkEntry>, decompile: Job -> Counters)
    ensures var r := AfterOptions(s, args, isDir, walk, decompile);
      r.Parallel? ==> r.totals == SumFiles(r.plan.files, PerFile(r.plan, decompile))
  {
  }

  /** The usage text's example `-o /tmp bla/fasel.pyc bla/foo.pyc` (lines 40-41): with two
      inputs the value of `-o` becomes the output directory, and the files are decompiled
      as `fasel.pyc` and `foo.pyc` under it. */
  lemma OutputDirectoryExample(s: Settings, isDir: string -> bool, walk: string -> seq<WalkEntry>)
    requires s.outfile == Some("/tmp") && !s.recurseDirs
    ensures MakePlan(s, ["bla/fasel.pyc", "bla/foo.pyc"], isDir, walk)
      == Success(Plan(s, "bla", ["fasel.pyc", "foo.pyc"], Target(None, Some("/tmp"))))
  {
    Paths.SameDirectoryExample();
  }
}
