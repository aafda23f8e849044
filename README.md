# uncompyle6 command-line front end, modelled in Dafny

This project models `main_bin`, the command-line front end of the uncompyle6
decompiler (`uncompyle6/bin/uncompile.py`). The front end does four things before and
after the actual decompilation work:

- It folds the `(opt, val)` pairs produced by `getopt` into the `options` dictionary and
  the locals `outfile`, `timestamp`, `source_paths`, `numproc` and `recurse_dirs`.
  `--help`, `--version`, a non-integer `-p` and an unknown option stop the program
  instead.
- With `-r`, it replaces the arguments by the `.pyc`/`.pyo` files found by walking the
  arguments that are directories. It then strips a common directory prefix `src_base`
  from all paths, and stops with "No files given" when none are left. For paths without
  doubled separators that prefix is the longest common directory
  (`Paths.StrippedPrefixIsLongestCommonDirectory`). When the common prefix does not end
  in a separator and its last component follows a run of two or three separators that
  itself follows a non-separator character, the relative paths keep all but one of that
  run and so come out absolute (`Paths.DoubledSeparatorExample`,
  `Paths.TripleSeparatorExample`). A run at the very start of the path
  (`Paths.LeadingRunExample`), or a common prefix that ends in a separator
  (`Paths.SeparatorEndingPrefixExample`), keeps the run inside `src_base`.
- It decides whether output goes to stdout, to one literal file (`outfile`) or under a
  directory (`out_base`).
- With more than one process, it fills a bounded work queue with the paths and one
  `None` sentinel per worker. Each worker adds up the four counters the per-file
  decompiler returns until it meets a sentinel, then publishes its sum. The controller
  drains the published sums into the totals it prints.

The project has five modules:

- `Wrappers`: Option and Result.
- `Paths`: POSIX `commonprefix`, `dirname` and `join`, and the reduction.
- `CommandLine`: the option loop. `ParseAll` is the fold that specifies it, `Dispatch`
  and `ParseOptions` are the loop body and the loop.
- `Workers`: the queues as a class, the fill, the worker, the drain, and the sum laws.
- `Uncompile`: directory expansion, output resolution, the plan and `main_bin` as a
  whole.

The loops of the source are methods proved against the fold functions. The path
reduction and output resolution are pure functions.

These parts of the outside world become parameters:

- the file system (`os.path.isdir`, `os.walk`);
- `int()` on the `-p` value (`parseInt`, where None stands for `ValueError`);
- the per-file decompiler `main` (`decompile`, seen only through the counters it
  returns).

Points where the code's behaviour may surprise a reader:

- A single input `a/b/c.pyc` gives `src_base = "a/b"` and the relative path `c.pyc`, not
  an empty relative path: `commonprefix` of one path is the path itself, and `dirname`
  cuts it back (`Paths.SingleInputKeepsBaseName`). A bare `c.pyc` gives `src_base = ""`
  and is left unchanged.
- `showgrammar` is in the long-option list given to `getopt` (line 98), but the loop has
  no branch for it, so `--showgrammar` ends in the usage text with exit status 1
  (`CommandLine.ShowGrammarLongFormRejected`).
- `-t` and `--tree` with a value other than "before" or "after" set the "before" key
  (line 139).
- With `-r`, arguments that are plain files are dropped, not decompiled (line 169). So
  `-r` over plain files alone stops with "No files given"
  (`Uncompile.RecursingOverPlainFiles`).

## Model

| member | source | states |
|---|---|---|
| `Paths.Join` | uncompyle6/bin/uncompile.py:183 | `os.path.join(a, b)` ends with `b`, extends `a` when `b` is not absolute, and `join(a, "")` of a non-empty `a` ends with the separator |
| `Paths.CommonPrefix` | uncompyle6/bin/uncompile.py:179 | `os.path.commonprefix` is a character-wise prefix of every path, and empty for no paths |
| `Paths.CommonPrefixLongest` | uncompyle6/bin/uncompile.py:179 | every string that prefixes all paths prefixes the common prefix, so it is the longest one |
| `Paths.DirNameSpec` | uncompyle6/bin/uncompile.py:180-181 | `dirname` is a prefix of its argument, is empty exactly when there is no separator, and after `join(dirname, "")` at most one path component (after leading separators) remains |
| `Paths.SrcBase` | uncompyle6/bin/uncompile.py:179-181 | `join(src_base, "")` prefixes every path and the common prefix, ends on a separator when non-empty, and leaves no whole path component of the common prefix unstripped; `src_base` is empty exactly when the common prefix holds no separator |
| `Paths.Reduce` | uncompyle6/bin/uncompile.py:179-184 | `src_base` is the directory part of the common prefix that `Paths.SrcBase` characterises; same number of paths in the same order; `join(src_base, "")` followed by each relative path gives back the original path exactly; with no separator in the common prefix the paths are unchanged |
| `Paths.StrippedPrefixIsLongestCommonDirectory` | uncompyle6/bin/uncompile.py:176-184 | with single separators, every common prefix ending on a separator is a prefix of what is stripped, so the stripped prefix is the longest common directory and no component is split |
| `Paths.SingleInputKeepsBaseName` | uncompyle6/bin/uncompile.py:179-184 | one input path `p` without doubled separators gives `src_base = dirname(p)` (or `p` itself when it ends in a separator) and the single relative path `basename(p)` |
| `Paths.SameDirectoryExample` | uncompyle6/bin/uncompile.py:40-41 | `bla/fasel.pyc bla/foo.pyc` reduces to base `bla` and `fasel.pyc`, `foo.pyc` |
| `Paths.DifferentDirectoriesExample` | uncompyle6/bin/uncompile.py:42-43 | `bla/fasel.pyc bar/foo.pyc` keeps both paths whole, base empty |
| `Paths.SplitComponentExample` | uncompyle6/bin/uncompile.py:176-178 | `some/classes/x some/cmds/y` gives base `some` and `classes/x`, `cmds/y`, not the split component `c` |
| `Paths.DoubledSeparatorExample` | uncompyle6/bin/uncompile.py:179-184 | `a//bx a//by` gives base `a` and the absolute relative paths `/bx`, `/by`: one separator of the doubled run stays in front of each relative path |
| `Paths.TripleSeparatorExample` | uncompyle6/bin/uncompile.py:179-184 | `a///bx a///by` gives base `a` and the relative paths `//bx`, `//by`: two of the three separators stay in front of each relative path |
| `Paths.SeparatorEndingPrefixExample` | uncompyle6/bin/uncompile.py:179-184 | `a//b/x a//b/y` has the common prefix `a//b/`, which ends in a separator, so it is kept whole as the base (line 180 skips `dirname`) and the relative paths are `x`, `y` |
| `Paths.LeadingRunExample` | uncompyle6/bin/uncompile.py:179-184 | `//bx //by` has the common prefix `//b`, whose directory part `//` consists of separators only and is kept by `dirname`, so the base is `//` and the relative paths `bx`, `by` |
| `Paths.SingleFileExamples` | uncompyle6/bin/uncompile.py:179-184 | `a/b/c.pyc` gives base `a/b` and `c.pyc`; a bare `c.pyc` gives an empty base and stays as it is |
| `CommandLine.ExitCode` | uncompyle6/bin/uncompile.py:109-163 | the program exits with status 0 exactly when it stops for `--help` or `--version` (lines 111, 114); every other stop (the usage exit of line 22 reached from lines 163 and 188, and the uncaught `ValueError` of line 156) exits with status 1 |
| `CommandLine.Dispatch` | uncompyle6/bin/uncompile.py:109-163 | one pass of the `if`/`elif` chain on `(opt, val)` yields exactly the step of the loop's specification fold |
| `CommandLine.ParseOptions` | uncompyle6/bin/uncompile.py:105-163 | the loop over all pairs from the initial dictionary yields exactly the fold `ParseAll`, stopping at the first pair that ends the program |
| `CommandLine.StopBranches` | uncompyle6/bin/uncompile.py:109-163 | `-h`/`--help` and `-V`/`--version` stop the program (help or version shown); `-p` stores the integer or stops when `int()` fails; an unhandled option stops with the usage text |
| `CommandLine.VerifyBranches` | uncompyle6/bin/uncompile.py:115-146 | `--verify`, `--syntax-verify` and `--verify-run` set `do_verify` to their mode; `-a` escalates `showasm` and `-a`, `-t`, `-T` reset `do_verify` to None, with the `showast` updates; nothing else changes |
| `CommandLine.FlagBranches` | uncompyle6/bin/uncompile.py:119-160 | `--fragments`, `--linemaps`, `-g` set their key to True and `--encoding` stores its value; nothing else changes |
| `CommandLine.LocalBranches` | uncompyle6/bin/uncompile.py:149-158 | `-o` sets `outfile`, `-d` sets `timestamp`, `-c` appends to `source_paths`, `-r` sets `recurse_dirs`; nothing else changes |
| `CommandLine.LoopNeverReportsNoFiles` | uncompyle6/bin/uncompile.py:108-163 | the option loop never ends with "No files given"; that check comes later |
| `CommandLine.StopIsFinal` | uncompyle6/bin/uncompile.py:108-114 | once a prefix of the pairs has stopped the program, the later pairs change nothing |
| `CommandLine.AsmEscalates` | uncompyle6/bin/uncompile.py:125-129 | with no `-a` `showasm` stays None, one `-a` makes it "after", two or more make it "both" |
| `CommandLine.VerifyLastWins` | uncompyle6/bin/uncompile.py:115-146 | `do_verify` is decided by the last of the verify options, `-a`, `-t` and `-T`, and stays absent without one |
| `CommandLine.TreeFlagsCollect` | uncompyle6/bin/uncompile.py:131-146 | `showast` exists exactly when a tree option was given; its "before" key is set exactly by `-T` or a tree value other than "after", its "after" key exactly by `-T` or `--tree=after` |
| `CommandLine.SwitchesRecorded` | uncompyle6/bin/uncompile.py:119-158 | `do_fragments`, `do_linemaps`, `showgrammar`, `timestamp` and `recurse_dirs` are set exactly when their option appears |
| `CommandLine.LastOutputWins` | uncompyle6/bin/uncompile.py:149-150 | `outfile` is the value of the last `-o`, None without one |
| `CommandLine.LastEncodingWins` | uncompyle6/bin/uncompile.py:159-160 | `source_encoding` is the value of the last `--encoding`, absent without one |
| `CommandLine.LastProcsWins` | uncompyle6/bin/uncompile.py:155-156 | `numproc` is the integer the last `-p` value reads as, 0 without one |
| `CommandLine.CompiledPathsCollect` | uncompyle6/bin/uncompile.py:153-154 | `source_paths` lists every `-c` value in order |
| `CommandLine.NoStopRunsThrough` | uncompyle6/bin/uncompile.py:108-163 | with no stopping pair the loop runs to the end |
| `CommandLine.FirstStopWins` | uncompyle6/bin/uncompile.py:108-163 | the first stopping pair decides how the program ends, whatever follows it |
| `CommandLine.ShowGrammarLongFormRejected` | uncompyle6/bin/uncompile.py:161-163 | `--showgrammar` reaches the final `else` and stops with the usage text |
| `Workers.TotalPermutation` | uncompyle6/bin/uncompile.py:289-294 | the drained total does not depend on the order the tuples are added in |
| `Workers.SumFilesPermutation` | uncompyle6/bin/uncompile.py:262-270 | the sum of the per-file counters does not depend on the order of the files |
| `Workers.SharedOutWork` | uncompyle6/bin/uncompile.py:262-294 | however the files are shared out among the workers, the totals of their published sums add up to the counters of all files |
| `Workers.BoundedQueue.constructor` | uncompyle6/bin/uncompile.py:244 | a new queue has the given capacity and is empty |
| `Workers.BoundedQueue.Put` | uncompyle6/bin/uncompile.py:246 | a `put` appends at the back exactly when the queue is not full |
| `Workers.BoundedQueue.Get` | uncompyle6/bin/uncompile.py:263 | a `get` removes and returns the front item, or None on an empty queue |
| `Workers.FillWorkQueue` | uncompyle6/bin/uncompile.py:244-248 | the queue holds exactly the paths in order followed by `numproc` sentinels, its length equals its capacity `len(pyc_paths) + numproc`, and no `put` is refused |
| `Workers.ProcessFunc` | uncompyle6/bin/uncompile.py:254-274 | a worker takes exactly the paths before the first sentinel plus that sentinel, and publishes the sum of the counters of those paths |
| `Workers.Drain` | uncompyle6/bin/uncompile.py:289-296 | the drain empties the result queue and returns the component-wise sum of everything published |
| `Workers.RunWorker` | uncompyle6/bin/uncompile.py:276-281 | a worker started on a queue of paths and `m` sentinels takes all the paths and leaves `m - 1` sentinels |
| `Workers.RunParallel` | uncompyle6/bin/uncompile.py:244-296 | one tuple is published per worker, and the drained totals are their sum and equal the sum over all paths |
| `Uncompile.AppendBytecodeFiles` | uncompyle6/bin/uncompile.py:171-173 | appends the joined path of every `.pyc`/`.pyo` file of one walk entry, in order |
| `Uncompile.AppendWalk` | uncompyle6/bin/uncompile.py:170-173 | appends what every entry of one directory walk yields, in walk order |
| `Uncompile.ExpandDirs` | uncompyle6/bin/uncompile.py:165-174 | the expansion loop builds exactly the fold `Expanded` over the arguments |
| `Uncompile.ExpandedAreBytecode` | uncompyle6/bin/uncompile.py:172 | every expanded path ends in `.pyc` or `.pyo` |
| `Uncompile.ExpandedComplete` | uncompyle6/bin/uncompile.py:168-173 | every `.pyc`/`.pyo` file listed while walking a directory argument is among the expanded paths |
| `Uncompile.PlainFilesDropped` | uncompyle6/bin/uncompile.py:168-169 | arguments none of which is a directory expand to nothing |
| `Uncompile.ResolveOutput` | uncompyle6/bin/uncompile.py:190-197 | `outfile` and `out_base` are never both set; `out_base` is set exactly for a non-empty value other than "-" that is a directory or comes with more than one input, and then equals it; "-" means stdout; otherwise `outfile` is kept as a literal file |
| `Uncompile.MakePlan` | uncompyle6/bin/uncompile.py:165-197 | it stops with "No files given" exactly when no input is left; otherwise `src_base` is the one `Paths.SrcBase` computes for the inputs (the longest common directory, for single separators), every input round-trips through `src_base` and its relative path, and the target is resolved for that many inputs |
| `Uncompile.MainBin` | uncompyle6/bin/uncompile.py:105-300 | the whole front end yields exactly the outcome `Run` specifies: a stop, the serial plan, or the plan with the totals over all files |
| `Uncompile.NoFilesGivenExactly` | uncompyle6/bin/uncompile.py:186-188 | the program stops with "No files given" (exit 1) exactly when the options are accepted and no input path is left |
| `Uncompile.RecursingOverPlainFiles` | uncompyle6/bin/uncompile.py:166-188 | with `-r` and no directory among the arguments, the program stops with "No files given" |
| `Uncompile.ParallelTotalsAnySharing` | uncompyle6/bin/uncompile.py:252-300 | the totals of the parallel branch equal the sum of the worker tuples for any way of sharing the files among the workers |
| `Uncompile.OutputDirectoryExample` | uncompyle6/bin/uncompile.py:40-41 | `-o /tmp bla/fasel.pyc bla/foo.pyc` decompiles `fasel.pyc` and `foo.pyc` from base `bla` under the output directory `/tmp` |

## Left out

- Lines 1-104 are not modelled, apart from the starting values of lines 81-86
  (`CommandLine.Initial`): the imports, the usage text, the Python version check
  whose opening line is missing (line 77) and the `getopt` call with its Python 2
  `except` clause (line 100). The `(opt, val)` pairs and the remaining arguments are
  inputs. With the short-option string `"hac:gtTdrVo:p:"`, `-t` takes no value; the
  model accepts whatever pairs it is given.
- `outfile` and `recurse_dirs` are never bound in the source unless `-o` or `-r` is
  given, so the source raises `NameError` at lines 166 and 190. The model starts them
  at None and False.
- Concurrency: `Process`, `start` and `join` are not modelled.
  - `Workers.RunParallel` runs the workers one after another, so the first worker takes
    every path.
  - Other schedules are covered only under a hypothesis: `Workers.SharedOutWork` and
    `Uncompile.ParallelTotalsAnySharing` assume that the workers' shares together are a
    permutation of the paths, and `Workers.TotalPermutation` that the published tuples
    may come in any order. That interleaved `get`s on the shared FIFO queue always
    produce such shares is not proved.
- Workers.BoundedQueue.Put: a `put` on a full queue would block; the model refuses it
  instead. The fill is proved never to reach that case.
- Workers.BoundedQueue.Get: a blocking `get` on an empty queue would wait forever. The
  model returns None, which is also how it models `get(False)` raising `Empty`.
  `Workers.ProcessFunc` requires a sentinel in the queue, which the fill guarantees.
- Exceptions are not modelled: `Empty` and `KeyboardInterrupt` in a worker,
  `KeyboardInterrupt` and `OSError` in the controller, `ImportError` and
  `VerifyCmpError`. The same goes for `rqueue.close()`.
- Lines 199-203 compute `asm_opt` from `asm_plus` and `asm`, which the source never
  binds, so they raise `NameError` on every run, including the parallel one the model
  keeps. The model skips them, because `asm_opt` only feeds the serial call.
- The serial branch (lines 208-235) passes `asm_opt` and locals the source never binds
  (`tree`, `tree_plus`, `show_grammar`, `verify`, `linemaps`, `start_offset`,
  `stop_offset`) to `main`. Its outcome is only the plan.
- Runs of separators: when the common prefix does not end in a separator and its last
  component follows a run of separators that itself follows a non-separator character,
  lines 179-184 leave all but one separator of that run in front of every relative
  path. The model proves this for runs of two and
  three (`Paths.DoubledSeparatorExample`, `Paths.TripleSeparatorExample`), not for a
  general run length. A run earlier in the prefix, a run at the very start of the path
  (`Paths.LeadingRunExample`), where `dirname` keeps the all-separator head, or a common
  prefix ending in a separator (`Paths.SeparatorEndingPrefixExample`), leaves the paths
  relative. What
  the per-file `main` does with a relative path that starts with a separator is not
  modelled. The longest-directory
  property (`Paths.StrippedPrefixIsLongestCommonDirectory`) is proved only for paths
  without doubled separators.
- I/O is not modelled: `print`, the timestamps (lines 205-206 and 304-305), the
  `sys.stderr` messages and the text of the summary line (lines 297-300). The summary's
  four numbers are the totals. `sys.exit` becomes a `Stop` value with its exit status.
- `main` and `status_msg` of `uncompyle6.main` are foreign code. The per-file `main` is
  the parameter `decompile`, and `status_msg` is not modelled.
- `decompile` is a total function: the per-file `main` is assumed never to raise inside
  a worker. In the source, such an exception ends the worker before line 273, so its
  files are missing from the printed totals; `Workers.Drain` sums whatever was
  published and so would still describe that case, but `Workers.RunParallel` and
  `Uncompile.MainBin` promise the totals over all files only under this assumption.
- `os.path.isdir` and `os.walk` are parameters, so the walk order and its `dirs` lists
  are taken as given. `int()` is the parameter `parseInt`.
- POSIX only: the separator is `/`, and Windows drive letters and `\` are not modelled.
