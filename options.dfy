/**
 * The option loop of `main_bin` (uncompile.py lines 105-163): a state machine over the
 * `(opt, val)` pairs that `getopt` produced. It updates the `options` dictionary that is
 * later handed to every worker, and the locals `outfile`, `timestamp`, `source_paths`,
 * `numproc` and `recurse_dirs`; `--help`, `--version` and an unhandled option end the
 * program instead.
 */
module CommandLine {
  import opened Wrappers

  type OptPair = (string, string)

  /** `options["showasm"]`: None, "after" or "both". */
  datatype AsmMode = AsmNone | AsmAfter | AsmBoth

  /** `options["do_verify"]`: the key absent, None, "strong", "weak" or "verify-run". */
  datatype VerifyMode = VerifyUnset | VerifyOff | VerifyStrong | VerifyWeak | VerifyRun

  /** The `options["showast"]` dictionary: which of the keys "before" and "after" it holds
      (each key, once present, maps to True). */
  datatype AstFlags = AstFlags(before: bool, after: bool)

  /** The `options` dictionary. A boolean field stands for a key that is either absent
      or maps to True; `showast` is None while the key is absent. */
  datatype Options = Options(
    showasm: AsmMode,
    doVerify: VerifyMode,
    doFragments: bool,
    doLinemaps: bool,
    showast: Option<AstFlags>,
    showgrammar: bool,
    sourceEncoding: Option<string>)

  /** The dictionary and the locals the loop assigns. */
  datatype Settings = Settings(
    options: Options,
    outfile: Option<string>,
    timestamp: bool,
    sourcePaths: seq<string>,
    numproc: int,
    recurseDirs: bool)

  /** Ways `main_bin` ends before any file is processed. */
  datatype Stop =
    | HelpShown                   // lines 109-111: usage printed, exit 0
    | VersionShown                // lines 112-114: version printed, exit 0
    | UnknownOption(opt: string)  // lines 161-163: option echoed, usage, exit 1
    | NotAnInteger(val: string)   // line 156: `int(val)` raises ValueError
    | NoFilesGiven                // lines 186-188: usage, exit 1

  /** The process exit status for each way of stopping; an uncaught `ValueError` makes
      the interpreter exit with status 1. */
  function ExitCode(stop: Stop): (code: int)
    ensures code == 0 <==> stop.HelpShown? || stop.VersionShown?
    ensures code == 0 || code == 1
  {
    match stop
    case HelpShown => 0
    case VersionShown => 0
    case UnknownOption(_) => 1
    case NotAnInteger(_) => 1
    case NoFilesGiven => 1
  }

  /** Lines 105-107 and the locals' starting values (lines 81-86; `outfile` and
      `recurse_dirs` start as None and False). */
  const InitialOptions: Options :=
    Options(AsmNone, VerifyUnset, false, false, None, false, None)
  const Initial: Settings := Settings(InitialOptions, None, false, [], 0, false)

  /** The branch of the loop body an option takes. */
  datatype Branch =
    | Help | Version | Verify | SyntaxVerify | Fragments | VerifyRunBranch | Linemaps
    | Asm | Tree | TreePlus | Grammar | Output | Timestamp | Compile | Procs | Recurse
    | Encoding | Unhandled

  /** The number of option strings the `if`/`elif` chain of lines 109-161 tests. */
  const RowCount: nat := 26

  /** Row `i` of that chain: an option string and the branch it selects, in the order
      the chain tries them. */
  function Row(i: nat): (string, Branch)
    requires i < RowCount
  {
    match i
    case 0 => ("-h", Help)
    case 1 => ("--help", Help)
    case 2 => ("-V", Version)
    case 3 => ("--version", Version)
    case 4 => ("--verify", Verify)
    case 5 => ("--syntax-verify", SyntaxVerify)
    case 6 => ("--fragments", Fragments)
    case 7 => ("--verify-run", VerifyRunBranch)
    case 8 => ("--linemaps", Linemaps)
    case 9 => ("--asm", Asm)
    case 10 => ("-a", Asm)
    case 11 => ("--tree", Tree)
    case 12 => ("-t", Tree)
    case 13 => ("--tree+", TreePlus)
    case 14 => ("-T", TreePlus)
    case 15 => ("--grammar", Grammar)
    case 16 => ("-g", Grammar)
    case 17 => ("-o", Output)
    case 18 => ("--timestamp", Timestamp)
    case 19 => ("-d", Timestamp)
    case 20 => ("--compile", Compile)
    case 21 => ("-c", Compile)
    case 22 => ("-p", Procs)
    case 23 => ("--recurse", Recurse)
    case 24 => ("-r", Recurse)
    case 25 => ("--encoding", Encoding)
    case _ => ("--encoding", Encoding)
  }

  /** The branch of the first row from `i` on that names `opt`; the final `else`
      (lines 161-163) when none does. */
  function LookupFrom(opt: string, i: nat): Branch
    decreases RowCount - i
  {
    if i >= RowCount then Unhandled
    else if Row(i).0 == opt then Row(i).1
    else LookupFrom(opt, i + 1)
  }

  function BranchOf(opt: string): Branch {
    LookupFrom(opt, 0)
  }

  /** The `showast` dictionary after `--tree` with value `val` (lines 132-139). */
  function TreeUpdate(showast: Option<AstFlags>, val: string): AstFlags {
    var flags := if showast.Some? then showast.value else AstFlags(false, false);
    if val == "before" then flags.(before := true)
    else if val == "after" then flags.(after := true)
    else flags.(before := true)
  }

  /** How the program ends at the pair `(opt, val)`, if it does: lines 109-114, the
      `ValueError` of `int(val)` at line 156, and the final `else` at lines 161-163.
      `parseInt` is Python's `int`, None where it raises. */
  function StopAt(b: Branch, opt: string, val: string, parseInt: string -> Option<int>): Option<Stop> {
    match b
    case Help => Some(HelpShown)
    case Version => Some(VersionShown)
    case Procs => if parseInt(val).None? then Some(NotAnInteger(val)) else None
    case Unhandled => Some(UnknownOption(opt))
    case _ => None
  }

  /** The effect a branch has on `options["do_verify"]`, if any: the three verify
      options set their mode (lines 115-122) and `-a`, `-t` and `-T` reset it to None
      (lines 130, 140, 146). */
  function VerifyEffect(b: Branch): Option<VerifyMode> {
    match b
    case Verify => Some(VerifyStrong)
    case SyntaxVerify => Some(VerifyWeak)
    case VerifyRunBranch => Some(VerifyRun)
    case Asm => Some(VerifyOff)
    case Tree => Some(VerifyOff)
    case TreePlus => Some(VerifyOff)
    case _ => None
  }

  /** Branch `b` of the loop body (lines 109-163) for the pair `(opt, val)`, written key
      by key: each entry of the dictionary and each local is changed by its own branches
      only, and the pass either stops the program or yields the new values. */
  function ApplyBranch(s: Settings, b: Branch, opt: string, val: string, parseInt: string -> Option<int>)
    : Result<Settings, Stop>
  {
    var o := s.options;
    match StopAt(b, opt, val, parseInt)
    case Some(stop) => Failure(stop)
    case None =>
      Success(Settings(
        Options(
          if b != Asm then o.showasm else if o.showasm == AsmNone then AsmAfter else AsmBoth,
          if VerifyEffect(b).Some? then VerifyEffect(b).value else o.doVerify,
          o.doFragments || b == Fragments,
          o.doLinemaps || b == Linemaps,
          if b == Tree then Some(TreeUpdate(o.showast, val))
          else if b == TreePlus then Some(AstFlags(true, true))
          else o.showast,
          o.showgrammar || b == Grammar,
          if b == Encoding then Some(val) else o.sourceEncoding),
        if b == Output then Some(val) else s.outfile,
        s.timestamp || b == Timestamp,
        if b == Compile then s.sourcePaths + [val] else s.sourcePaths,
        if b == Procs && parseInt(val).Some? then parseInt(val).value else s.numproc,
        s.recurseDirs || b == Recurse))
  }

  /** One pass through the loop body (lines 109-163) for the pair `(opt, val)`. */
  function ApplyOption(s: Settings, opt: string, val: string, parseInt: string -> Option<int>)
    : Result<Settings, Stop>
  {
    ApplyBranch(s, BranchOf(opt), opt, val, parseInt)
  }

  /** How the program ends at the pair `p`, if it does. */
  function StopOf(p: OptPair, parseInt: string -> Option<int>): Option<Stop> {
    StopAt(BranchOf(p.0), p.0, p.1, parseInt)
  }

  // Each branch of lines 109-163 as the source writes it: the keys and locals that one
  // branch assigns, everything else left as it was.

  /** Lines 109-114, 155-156 and 161-163: the branches that can end the program. */
  lemma StopBranches(s: Settings, b: Branch, opt: string, val: string, parseInt: string -> Option<int>)
    ensures var r, o := ApplyBranch(s, b, opt, val, parseInt), s.options;
      && (b == Help ==> r == Failure(HelpShown))
      && (b == Version ==> r == Failure(VersionShown))
      && (b == Procs ==> r == (if parseInt(val).None? then Failure(NotAnInteger(val))
                               else Success(s.(numproc := parseInt(val).value))))
      && (b == Unhandled ==> r == Failure(UnknownOption(opt)))
  {
  }

  /** Lines 115-146: the branches that assign `options["do_verify"]`. */
  lemma VerifyBranches(s: Settings, b: Branch, opt: string, val: string, parseInt: string -> Option<int>)
    ensures var r, o := ApplyBranch(s, b, opt, val, parseInt), s.options;
      && (b == Verify ==> r == Success(s.(options := o.(doVerify := VerifyStrong))))
      && (b == SyntaxVerify ==> r == Success(s.(options := o.(doVerify := VerifyWeak))))
      && (b == VerifyRunBranch ==> r == Success(s.(options := o.(doVerify := VerifyRun))))
      && (b == Asm ==> r == Success(s.(options := o.(
            showasm := if o.showasm == AsmNone then AsmAfter else AsmBoth, doVerify := VerifyOff))))
      && (b == Tree ==> r == Success(s.(options := o.(
            showast := Some(TreeUpdate(o.showast, val)), doVerify := VerifyOff))))
      && (b == TreePlus ==> r == Success(s.(options := o.(
            showast := Some(AstFlags(true, true)), doVerify := VerifyOff))))
  {
  }

  /** Lines 119-124, 147-148 and 159-160: the other branches that write the dictionary. */
  lemma FlagBranches(s: Settings, b: Branch, opt: string, val: string, parseInt: string -> Option<int>)
    ensures var r, o := ApplyBranch(s, b, opt, val, parseInt), s.options;
      && (b == Fragments ==> r == Success(s.(options := o.(doFragments := true))))
      && (b == Linemaps ==> r == Success(s.(options := o.(doLinemaps := true))))
      && (b == Grammar ==> r == Success(s.(options := o.(showgrammar := true))))
      && (b == Encoding ==> r == Success(s.(options := o.(sourceEncoding := Some(val)))))
  {
  }

  /** Lines 149-158: the branches that assign a local. */
  lemma LocalBranches(s: Settings, b: Branch, opt: string, val: string, parseInt: string -> Option<int>)
    ensures var r, o := ApplyBranch(s, b, opt, val, parseInt), s.options;
      && (b == Output ==> r == Success(s.(outfile := Some(val))))
      && (b == Timestamp ==> r == Success(s.(timestamp := true)))
      && (b == Compile ==> r == Success(s.(sourcePaths := s.sourcePaths + [val])))
      && (b == Recurse ==> r == Success(s.(recurseDirs := true)))
  {
  }

  /** The whole loop: the pairs in order from `Initial`, stopping at the first pair that
      ends the program. */
  function ParseAll(opts: seq<OptPair>, parseInt: string -> Option<int>): Result<Settings, Stop>
  {
    if opts == [] then Success(Initial)
    else
      match ParseAll(opts[..|opts| - 1], parseInt)
      case Failure(e) => Failure(e)
      case Success(s) => ApplyOption(s, opts[|opts| - 1].0, opts[|opts| - 1].1, parseInt)
  }

  /** The loop itself never reports missing files: that check comes after it. */
  lemma {:induction false} LoopNeverReportsNoFiles(opts: seq<OptPair>, parseInt: string -> Option<int>)
    ensures ParseAll(opts, parseInt) != Failure(NoFilesGiven)
  {
    if opts != [] {
      LoopNeverReportsNoFiles(opts[..|opts| - 1], parseInt);
    }
  }

  /** Once the loop has stopped, later pairs are never looked at. */
  lemma {:induction false} StopIsFinal(opts: seq<OptPair>, i: nat, parseInt: string -> Option<int>)
    requires i <= |opts|
    requires ParseAll(opts[..i], parseInt).Failure?
    ensures ParseAll(opts, parseInt) == ParseAll(opts[..i], parseInt)
    decreases |opts| - i
  {
    if i < |opts| {
      assert opts[..i + 1][..i] == opts[..i];
      StopIsFinal(opts, i + 1, parseInt);
    } else {
      assert opts[..i] == opts;
    }
  }

  /** The body of the loop (lines 109-163) as the program runs it: the branch for `opt`
      updates the dictionary or a local in place, or the program ends. */
  method Dispatch(s: Settings, opt: string, val: string, parseInt: string -> Option<int>)
    returns (r: Result<Settings, Stop>)
    ensures r == ApplyOption(s, opt, val, parseInt)
  {
    var b := BranchOf(opt);
    var options := s.options;
    var next := s;
    match b {
      case Help =>
        StopBranches(s, b, opt, val, parseInt);
        return Failure(HelpShown);
      case Version =>
        StopBranches(s, b, opt, val, parseInt);
        return Failure(VersionShown);
      case Verify =>
        VerifyBranches(s, b, opt, val, parseInt);
        options := options.(doVerify := VerifyStrong);
      case SyntaxVerify =>
        VerifyBranches(s, b, opt, val, parseInt);
        options := options.(doVerify := VerifyWeak);
      case Fragments =>
        FlagBranches(s, b, opt, val, parseInt);
        options := options.(doFragments := true);
      case VerifyRunBranch =>
        VerifyBranches(s, b, opt, val, parseInt);
        options := options.(doVerify := VerifyRun);
      case Linemaps =>
        FlagBranches(s, b, opt, val, parseInt);
        options := options.(doLinemaps := true);
      case Asm =>
        VerifyBranches(s, b, opt, val, parseInt);
        if options.showasm == AsmNone {
          options := options.(showasm := AsmAfter);
        } else {
          options := options.(showasm := AsmBoth);
        }
        options := options.(doVerify := VerifyOff);
      case Tree =>
        VerifyBranches(s, b, opt, val, parseInt);
        if options.showast.None? {
          options := options.(showast := Some(AstFlags(false, false)));
        }
        var flags := options.showast.value;
        if val == "before" {
          flags := flags.(before := true);
        } else if val == "after" {
          flags := flags.(after := true);
        } else {
          flags := flags.(before := true);
        }
        options := options.(showast := Some(flags), doVerify := VerifyOff);
      case TreePlus =>
        VerifyBranches(s, b, opt, val, parseInt);
        if options.showast.None? {
          options := options.(showast := Some(AstFlags(false, false)));
        }
        var flags := options.showast.value.(after := true);
        flags := flags.(before := true);
        options := options.(showast := Some(flags), doVerify := VerifyOff);
      case Grammar =>
        FlagBranches(s, b, opt, val, parseInt);
        options := options.(showgrammar := true);
      case Output =>
        LocalBranches(s, b, opt, val, parseInt);
        next := next.(outfile := Some(val));
      case Timestamp =>
        LocalBranches(s, b, opt, val, parseInt);
        next := next.(timestamp := true);
      case Compile =>
        LocalBranches(s, b, opt, val, parseInt);
        next := next.(sourcePaths := next.sourcePaths + [val]);
      case Procs =>
        StopBranches(s, b, opt, val, parseInt);
        var n := parseInt(val);
        if n.None? {
          return Failure(NotAnInteger(val));
        }
        next := next.(numproc := n.value);
      case Recurse =>
        LocalBranches(s, b, opt, val, parseInt);
        next := next.(recurseDirs := true);
      case Encoding =>
        FlagBranches(s, b, opt, val, parseInt);
        options := options.(sourceEncoding := Some(val));
      case Unhandled =>
        StopBranches(s, b, opt, val, parseInt);
        return Failure(UnknownOption(opt));
    }
    r := Success(next.(options := options));
  }

  /** Lines 105-163: the pairs are dispatched in order, starting from the initial
      dictionary and locals, until one ends the program. */
  method ParseOptions(opts: seq<OptPair>, parseInt: string -> Option<int>)
    returns (r: Result<Settings, Stop>)
    ensures r == ParseAll(opts, parseInt)
  {
    var s := Initial;
    var i := 0;
    while i < |opts|
      invariant 0 <= i <= |opts|
      invariant ParseAll(opts[..i], parseInt) == Success(s)
    {
      var (opt, val) := opts[i];
      assert opts[..i + 1][..i] == opts[..i];
      var step := Dispatch(s, opt, val, parseInt);
      if step.Failure? {
        StopIsFinal(opts, i + 1, parseInt);
        return step;
      }
      s := step.value;
      i := i + 1;
    }
    assert opts[..i] == opts;
    r := Success(s);
  }

  // ---------------------------------------------------------------------------
  // What the loop leaves behind, stated without reference to the loop itself.

  /** Some pair takes branch `b`. */
  predicate AnyOf(opts: seq<OptPair>, b: Branch) {
    exists k :: 0 <= k < |opts| && BranchOf(opts[k].0) == b
  }

  /** How many pairs take branch `b`. */
  function CountOf(opts: seq<OptPair>, b: Branch): nat {
    if opts == [] then 0
    else CountOf(opts[..|opts| - 1], b) + (if BranchOf(opts[|opts| - 1].0) == b then 1 else 0)
  }

  /** The values of the pairs that take branch `b`, in order. */
  function ValuesOf(opts: seq<OptPair>, b: Branch): seq<string> {
    if opts == [] then []
    else
      ValuesOf(opts[..|opts| - 1], b)
      + (if BranchOf(opts[|opts| - 1].0) == b then [opts[|opts| - 1].1] else [])
  }

  /** The value of the last pair that takes branch `b`. */
  function LastValueOf(opts: seq<OptPair>, b: Branch): Option<string> {
    var vs := ValuesOf(opts, b);
    if vs == [] then None else Some(vs[|vs| - 1])
  }

  lemma AnyOfSplit(opts: seq<OptPair>, b: Branch)
    requires opts != []
    ensures AnyOf(opts, b) <==> AnyOf(opts[..|opts| - 1], b) || BranchOf(opts[|opts| - 1].0) == b
  {
    var init := opts[..|opts| - 1];
    assert forall k :: 0 <= k < |init| ==> init[k] == opts[k];
  }

  /** Lines 125-129: no `-a` leaves `showasm` None, the first makes it "after" and every
      later one "both". */
  lemma {:induction false} AsmEscalates(opts: seq<OptPair>, parseInt: string -> Option<int>, s: Settings)
    requires ParseAll(opts, parseInt) == Success(s)
    ensures var n := CountOf(opts, Asm);
      s.options.showasm == (if n == 0 then AsmNone else if n == 1 then AsmAfter else AsmBoth)
  {
    if opts != [] {
      var init := opts[..|opts| - 1];
      AsmEscalates(init, parseInt, ParseAll(init, parseInt).value);
    }
  }

  /** The effect of the last option that has one; the key stays absent otherwise. */
  function LastVerifyEffect(opts: seq<OptPair>): VerifyMode {
    if opts == [] then VerifyUnset
    else
      match VerifyEffect(BranchOf(opts[|opts| - 1].0))
      case Some(m) => m
      case None => LastVerifyEffect(opts[..|opts| - 1])
  }

  /** Lines 115-146: the last of `--verify`, `--syntax-verify`, `--verify-run`, `-a`,
      `-t` and `-T` decides `do_verify`. */
  lemma {:induction false} VerifyLastWins(opts: seq<OptPair>, parseInt: string -> Option<int>, s: Settings)
    requires ParseAll(opts, parseInt) == Success(s)
    ensures s.options.doVerify == LastVerifyEffect(opts)
  {
    if opts != [] {
      var init := opts[..|opts| - 1];
      VerifyLastWins(init, parseInt, ParseAll(init, parseInt).value);
    }
  }

  /** `-T`, or `-t`/`--tree` with any value but "after" (which includes "before"). */
  predicate AsksBefore(p: OptPair) {
    BranchOf(p.0) == TreePlus || (BranchOf(p.0) == Tree && p.1 != "after")
  }

  /** `-T`, or `-t`/`--tree` with the value "after". */
  predicate AsksAfter(p: OptPair) {
    BranchOf(p.0) == TreePlus || (BranchOf(p.0) == Tree && p.1 == "after")
  }

  predicate AnyAsksBefore(opts: seq<OptPair>) {
    exists k :: 0 <= k < |opts| && AsksBefore(opts[k])
  }

  predicate AnyAsksAfter(opts: seq<OptPair>) {
    exists k :: 0 <= k < |opts| && AsksAfter(opts[k])
  }

  lemma AsksSplit(opts: seq<OptPair>)
    requires opts != []
    ensures AnyAsksBefore(opts) <==> AnyAsksBefore(opts[..|opts| - 1]) || AsksBefore(opts[|opts| - 1])
    ensures AnyAsksAfter(opts) <==> AnyAsksAfter(opts[..|opts| - 1]) || AsksAfter(opts[|opts| - 1])
  {
    var init := opts[..|opts| - 1];
    assert forall k :: 0 <= k < |init| ==> init[k] == opts[k];
  }

  /** Asking for either key takes a tree option. */
  lemma AsksNeedTreeOption(opts: seq<OptPair>)
    ensures AnyAsksBefore(opts) || AnyAsksAfter(opts) ==> AnyOf(opts, Tree) || AnyOf(opts, TreePlus)
  {
    if AnyAsksBefore(opts) {
      var k :| 0 <= k < |opts| && AsksBefore(opts[k]);
      assert AnyOf(opts, BranchOf(opts[k].0));
    }
    if AnyAsksAfter(opts) {
      var k :| 0 <= k < |opts| && AsksAfter(opts[k]);
      assert AnyOf(opts, BranchOf(opts[k].0));
    }
  }

  /** Lines 131-146: `showast` exists once a tree option was given; its "before" key is
      set by `-T` or a `--tree` value other than "after", its "after" key by `-T` or
      `--tree=after`. */
  lemma {:induction false} TreeFlagsCollect(opts: seq<OptPair>, parseInt: string -> Option<int>, s: Settings)
    requires ParseAll(opts, parseInt) == Success(s)
    ensures s.options.showast.None? <==> !AnyOf(opts, Tree) && !AnyOf(opts, TreePlus)
    ensures s.options.showast.Some? ==>
      s.options.showast.value == AstFlags(AnyAsksBefore(opts), AnyAsksAfter(opts))
  {
    if opts != [] {
      var init := opts[..|opts| - 1];
      TreeFlagsCollect(init, parseInt, ParseAll(init, parseInt).value);
      AnyOfSplit(opts, Tree);
      AnyOfSplit(opts, TreePlus);
      AsksSplit(opts);
      AsksNeedTreeOption(init);
    }
  }

  /** The flag options: each key or local is set exactly when its option was given. */
  lemma {:induction false} SwitchesRecorded(opts: seq<OptPair>, parseInt: string -> Option<int>, s: Settings)
    requires ParseAll(opts, parseInt) == Success(s)
    ensures s.options.doFragments <==> AnyOf(opts, Fragments)
    ensures s.options.doLinemaps <==> AnyOf(opts, Linemaps)
    ensures s.options.showgrammar <==> AnyOf(opts, Grammar)
    ensures s.timestamp <==> AnyOf(opts, Timestamp)
    ensures s.recurseDirs <==> AnyOf(opts, Recurse)
  {
    if opts != [] {
      var init := opts[..|opts| - 1];
      SwitchesRecorded(init, parseInt, ParseAll(init, parseInt).value);
      AnyOfSplit(opts, Fragments);
      AnyOfSplit(opts, Linemaps);
      AnyOfSplit(opts, Grammar);
      AnyOfSplit(opts, Timestamp);
      AnyOfSplit(opts, Recurse);
    }
  }

  /** Line 149: the last `-o` value is `outfile`, which stays None without one. */
  lemma {:induction false} LastOutputWins(opts: seq<OptPair>, parseInt: string -> Option<int>, s: Settings)
    requires ParseAll(opts, parseInt) == Success(s)
    ensures s.outfile == LastValueOf(opts, Output)
  {
    if opts != [] {
      var init, p := opts[..|opts| - 1], opts[|opts| - 1];
      var s0 := ParseAll(init, parseInt).value;
      LastOutputWins(init, parseInt, s0);
      LastValueSplit(opts, Output);
      OutputStep(s0, p, parseInt, s);
    }
  }

  /** Line 160: the last `--encoding` value is `options["source_encoding"]`, absent
      without one. */
  lemma {:induction false} LastEncodingWins(opts: seq<OptPair>, parseInt: string -> Option<int>, s: Settings)
    requires ParseAll(opts, parseInt) == Success(s)
    ensures s.options.sourceEncoding == LastValueOf(opts, Encoding)
  {
    if opts != [] {
      var init, p := opts[..|opts| - 1], opts[|opts| - 1];
      var s0 := ParseAll(init, parseInt).value;
      LastEncodingWins(init, parseInt, s0);
      LastValueSplit(opts, Encoding);
      EncodingStep(s0, p, parseInt, s);
    }
  }

  /** Line 156: `numproc` is the integer the last `-p` value reads as, and stays 0
      without one. */
  lemma {:induction false} LastProcsWins(opts: seq<OptPair>, parseInt: string -> Option<int>, s: Settings)
    requires ParseAll(opts, parseInt) == Success(s)
    ensures LastValueOf(opts, Procs).None? ==> s.numproc == 0
    ensures LastValueOf(opts, Procs).Some? ==>
      parseInt(LastValueOf(opts, Procs).value) == Some(s.numproc)
  {
    if opts != [] {
      var init, p := opts[..|opts| - 1], opts[|opts| - 1];
      var s0 := ParseAll(init, parseInt).value;
      LastProcsWins(init, parseInt, s0);
      LastValueSplit(opts, Procs);
      ProcsStep(s0, p, parseInt, s);
    }
  }

  lemma LastValueSplit(opts: seq<OptPair>, b: Branch)
    requires opts != []
    ensures var p := opts[|opts| - 1];
      LastValueOf(opts, b) == if BranchOf(p.0) == b then Some(p.1) else LastValueOf(opts[..|opts| - 1], b)
  {
  }

  lemma ProcsStep(s0: Settings, p: OptPair, parseInt: string -> Option<int>, s: Settings)
    requires ApplyOption(s0, p.0, p.1, parseInt) == Success(s)
    ensures BranchOf(p.0) == Procs ==> parseInt(p.1) == Some(s.numproc)
    ensures BranchOf(p.0) != Procs ==> s.numproc == s0.numproc
  {
  }

  lemma OutputStep(s0: Settings, p: OptPair, parseInt: string -> Option<int>, s: Settings)
    requires ApplyOption(s0, p.0, p.1, parseInt) == Success(s)
    ensures s.outfile == if BranchOf(p.0) == Output then Some(p.1) else s0.outfile
  {
  }

  lemma EncodingStep(s0: Settings, p: OptPair, parseInt: string -> Option<int>, s: Settings)
    requires ApplyOption(s0, p.0, p.1, parseInt) == Success(s)
    ensures s.options.sourceEncoding ==
      if BranchOf(p.0) == Encoding then Some(p.1) else s0.options.sourceEncoding
  {
  }

  /** Lines 153-154: every `-c` value is appended to `source_paths`, in order. */
  lemma {:induction false} CompiledPathsCollect(opts: seq<OptPair>, parseInt: string -> Option<int>, s: Settings)
    requires ParseAll(opts, parseInt) == Success(s)
    ensures s.sourcePaths == ValuesOf(opts, Compile)
  {
    if opts != [] {
      var init := opts[..|opts| - 1];
      CompiledPathsCollect(init, parseInt, ParseAll(init, parseInt).value);
    }
  }

  /** Without a stopping pair the loop runs to the end. */
  lemma {:induction false} NoStopRunsThrough(opts: seq<OptPair>, parseInt: string -> Option<int>)
    requires forall k :: 0 <= k < |opts| ==> StopOf(opts[k], parseInt).None?
    ensures ParseAll(opts, parseInt).Success?
  {
    if opts != [] {
      var init := opts[..|opts| - 1];
      assert forall k :: 0 <= k < |init| ==> init[k] == opts[k];
      NoStopRunsThrough(init, parseInt);
    }
  }

  /** The first stopping pair decides how the program ends (lines 109-114, 156, 161-163),
      whatever follows it. */
  lemma FirstStopWins(opts: seq<OptPair>, k: nat, parseInt: string -> Option<int>)
    requires k < |opts| && StopOf(opts[k], parseInt).Some?
    requires forall j :: 0 <= j < k ==> StopOf(opts[j], parseInt).None?
    ensures ParseAll(opts, parseInt) == Failure(StopOf(opts[k], parseInt).value)
  {
    assert forall j :: 0 <= j < k ==> opts[..k][j] == opts[j];
    NoStopRunsThrough(opts[..k], parseInt);
    assert opts[..k + 1][..k] == opts[..k];
    StopIsFinal(opts, k + 1, parseInt);
  }

  /** An option named in no row from `i` on reaches the final `else`. */
  lemma {:induction false} LookupMisses(opt: string, i: nat)
    requires forall j :: i <= j < RowCount ==> Row(j).0 != opt
    ensures LookupFrom(opt, i) == Unhandled
    decreases RowCount - i
  {
    if i < RowCount {
      LookupMisses(opt, i + 1);
    }
  }

  /** `showgrammar` is among the long options handed to `getopt` (line 98), but the loop
      has no branch for it, so `--showgrammar` is answered with the usage text. */
  lemma ShowGrammarLongFormRejected(s: Settings, val: string, parseInt: string -> Option<int>)
    ensures ApplyOption(s, "--showgrammar", val, parseInt) == Failure(UnknownOption("--showgrammar"))
  {
    ShowGrammarUnhandled();
  }

  /** No row of the chain is 13 characters long, as `--showgrammar` is. */
  lemma ShowGrammarUnhandled()
    ensures BranchOf("--showgrammar") == Unhandled
  {
    forall j | 0 <= j < RowCount
      ensures Row(j).0 != "--showgrammar"
    {
      assert |Row(j).0| != 13;
    }
    LookupMisses("--showgrammar", 0);
  }
}
