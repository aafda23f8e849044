/**
 * The parallel branch of `main_bin` (uncompile.py lines 237-304), run sequentially: the
 * controller fills a bounded work queue with the paths and one `None` sentinel per
 * worker, each worker takes paths until it meets a sentinel and publishes the sum of the
 * counters `main` returned for them, and the controller drains the published sums into
 * one total.
 */
module Workers {
  import opened Wrappers

  /** The four numbers `main` returns for the files it was given: files tried, decompiled,
      failed and failing verification. */
  datatype Counters = Counters(tot: int, okay: int, failed: int, verifyFailed: int) {
    /** Component-wise sum, as the `+=` lines of the worker and drain loops add them. */
    function Plus(other: Counters): Counters {
      Counters(tot + other.tot, okay + other.okay, failed + other.failed,
               verifyFailed + other.verifyFailed)
    }
  }

  /** The four counters set to 0 (lines 256-261, 283-288). */
  const Zero := Counters(0, 0, 0, 0)

  lemma PlusAssociative(x: Counters, y: Counters, z: Counters)
    ensures x.Plus(y).Plus(z) == x.Plus(y.Plus(z))
  {
  }

  lemma PlusCommutative(x: Counters, y: Counters)
    ensures x.Plus(y) == y.Plus(x)
  {
  }

  lemma TotalSnoc(cs: seq<Counters>, x: Counters)
    ensures Total(cs + [x]) == Total(cs).Plus(x)
  {
    assert (cs + [x])[..|cs|] == cs;
  }

  lemma EmptySum(main: string -> Counters)
    ensures SumFiles([], main) == Zero
  {
    assert Results([], main) == [];
  }

  lemma PlusZero(x: Counters)
    ensures x.Plus(Zero) == x && Zero.Plus(x) == x
  {
  }

  /** The component-wise sum of a sequence of counters, added in order. */
  function Total(cs: seq<Counters>): Counters {
    if cs == [] then Zero else Total(cs[..|cs| - 1]).Plus(cs[|cs| - 1])
  }

  /** The counters `main` returns for each path, in order. */
  function Results(paths: seq<string>, main: string -> Counters): (r: seq<Counters>)
    ensures |r| == |paths|
    ensures forall i :: 0 <= i < |paths| ==> r[i] == main(paths[i])
  {
    if paths == [] then [] else Results(paths[..|paths| - 1], main) + [main(paths[|paths| - 1])]
  }

  /** What decompiling `paths` one by one adds up to. */
  function SumFiles(paths: seq<string>, main: string -> Counters): Counters {
    Total(Results(paths, main))
  }

  // ---------------------------------------------------------------------------
  // Sums.

  lemma {:induction false} TotalAppend(a: seq<Counters>, b: seq<Counters>)
    ensures Total(a + b) == Total(a).Plus(Total(b))
    decreases |b|
  {
    if b == [] {
      assert a + b == a;
      PlusZero(Total(a));
    } else {
      var b', x := b[..|b| - 1], b[|b| - 1];
      assert a + b == (a + b') + [x];
      assert (a + b)[..|a + b| - 1] == a + b';
      TotalAppend(a, b');
      calc {
        Total(a + b);
        Total(a + b').Plus(x);
        Total(a).Plus(Total(b')).Plus(x);
        { PlusAssociative(Total(a), Total(b'), x); }
        Total(a).Plus(Total(b').Plus(x));
        Total(a).Plus(Total(b));
      }
    }
  }

  /** Taking one element out and adding it last gives the same total. */
  lemma {:induction false} TotalRemove(cs: seq<Counters>, k: nat)
    requires k < |cs|
    ensures Total(cs) == Total(cs[..k] + cs[k + 1..]).Plus(cs[k])
  {
    var x, front, back := cs[k], cs[..k], cs[k + 1..];
    assert cs == front + ([x] + back);
    assert Total([x]) == x by {
      assert [x][..0] == [];
      PlusZero(x);
    }
    TotalAppend(front, [x] + back);
    assert Total(cs) == Total(front).Plus(Total([x] + back));
    TotalAppend([x], back);
    assert Total([x] + back) == x.Plus(Total(back));
    PlusCommutative(x, Total(back));
    PlusAssociative(Total(front), Total(back), x);
    TotalAppend(front, back);
  }

  lemma MultisetSplit<T>(s: seq<T>, k: nat)
    requires k < |s|
    ensures multiset(s[..k] + s[k + 1..]) == multiset(s) - multiset{s[k]}
  {
    assert s == s[..k] + [s[k]] + s[k + 1..];
    assert multiset(s) == multiset(s[..k] + s[k + 1..]) + multiset{s[k]};
  }

  /** Where the last element of `a` sits in its permutation `b`, and what is left of both
      without it. */
  lemma MatchLast<T>(a: seq<T>, b: seq<T>) returns (k: nat)
    requires a != [] && multiset(a) == multiset(b)
    ensures k < |b| && b[k] == a[|a| - 1]
    ensures multiset(a[..|a| - 1]) == multiset(b[..k] + b[k + 1..])
  {
    var n := |a| - 1;
    assert a[n] in multiset(a);
    k :| 0 <= k < |b| && b[k] == a[n];
    MultisetSplit(a, n);
    MultisetSplit(b, k);
    assert a[..n] + a[n + 1..] == a[..n];
  }

  /** The order the counters are added in does not change the total (lines 289-294 drain
      the result queue in whatever order the workers published). */
  lemma {:induction false} TotalPermutation(a: seq<Counters>, b: seq<Counters>)
    requires multiset(a) == multiset(b)
    ensures Total(a) == Total(b)
    decreases |a|
  {
    if a != [] {
      var n := |a| - 1;
      var x := a[n];
      var k := MatchLast(a, b);
      var a', b' := a[..n], b[..k] + b[k + 1..];
      TotalPermutation(a', b');
      TotalRemove(b, k);
    }
  }

  lemma ResultsAppend(a: seq<string>, b: seq<string>, main: string -> Counters)
    ensures Results(a + b, main) == Results(a, main) + Results(b, main)
  {
    var r, ra, rb := Results(a + b, main), Results(a, main), Results(b, main);
    forall i | 0 <= i < |r|
      ensures r[i] == (ra + rb)[i]
    {
      if i < |a| {
        assert (a + b)[i] == a[i];
      } else {
        assert (a + b)[i] == b[i - |a|];
      }
    }
  }

  lemma SumFilesAppend(a: seq<string>, b: seq<string>, main: string -> Counters)
    ensures SumFiles(a + b, main) == SumFiles(a, main).Plus(SumFiles(b, main))
  {
    ResultsAppend(a, b, main);
    TotalAppend(Results(a, main), Results(b, main));
  }

  /** The paths one after another. */
  function Concat(parts: seq<seq<string>>): seq<string> {
    if parts == [] then [] else Concat(parts[..|parts| - 1]) + parts[|parts| - 1]
  }

  /** What each worker publishes when it was handed `parts[w]`. */
  function Shares(parts: seq<seq<string>>, main: string -> Counters): (r: seq<Counters>)
    ensures |r| == |parts|
    ensures forall w :: 0 <= w < |parts| ==> r[w] == SumFiles(parts[w], main)
  {
    if parts == [] then [] else Shares(parts[..|parts| - 1], main) + [SumFiles(parts[|parts| - 1], main)]
  }

  lemma {:induction false} SharesConcat(parts: seq<seq<string>>, main: string -> Counters)
    ensures Total(Shares(parts, main)) == SumFiles(Concat(parts), main)
    decreases |parts|
  {
    if parts != [] {
      var init := parts[..|parts| - 1];
      SharesConcat(init, main);
      assert Shares(parts, main)[..|parts| - 1] == Shares(init, main);
      SumFilesAppend(Concat(init), parts[|parts| - 1], main);
    }
  }

  lemma {:induction false} SumFilesPermutation(a: seq<string>, b: seq<string>, main: string -> Counters)
    requires multiset(a) == multiset(b)
    ensures SumFiles(a, main) == SumFiles(b, main)
    decreases |a|
  {
    if a != [] {
      var n := |a| - 1;
      var x := a[n];
      var k := MatchLast(a, b);
      var a', b' := a[..n], b[..k] + b[k + 1..];
      SumFilesPermutation(a', b', main);
      assert Results(a, main) == Results(a', main) + [main(x)];
      assert Results(a, main)[..n] == Results(a', main);
      assert Results(b', main) == Results(b, main)[..k] + Results(b, main)[k + 1..];
      TotalRemove(Results(b, main), k);
    }
  }

  /** However the paths were shared out among the workers, in whatever order, the totals
      of their published counters add up to the counters of all paths (lines 262-273,
      289-294). */
  lemma SharedOutWork(paths: seq<string>, parts: seq<seq<string>>, main: string -> Counters)
    requires multiset(Concat(parts)) == multiset(paths)
    ensures Total(Shares(parts, main)) == SumFiles(paths, main)
  {
    SharesConcat(parts, main);
    SumFilesPermutation(Concat(parts), paths, main);
  }

  // ---------------------------------------------------------------------------
  // The queues.

  /** A `multiprocessing.Queue(maxsize)`, first in first out. A `put` on a full queue,
      which would block, is refused instead; a `get` on an empty queue yields None. */
  class BoundedQueue<T> {
    const capacity: nat
    var items: seq<T>

    ghost predicate Valid()
      reads this
    {
      |items| <= capacity
    }

    constructor(capacity: nat)
      ensures this.capacity == capacity && items == [] && Valid()
    {
      this.capacity := capacity;
      items := [];
    }

    method Put(x: T) returns (accepted: bool)
      requires Valid()
      modifies this
      ensures Valid()
      ensures accepted <==> |old(items)| < capacity
      ensures items == if accepted then old(items) + [x] else old(items)
    {
      accepted := |items| < capacity;
      if accepted {
        items := items + [x];
      }
    }

    method Get() returns (r: Option<T>)
      requires Valid()
      modifies this
      ensures Valid()
      ensures old(items) == [] ==> r == None && items == []
      ensures old(items) != [] ==> r == Some(old(items)[0]) && items == old(items)[1..]
    {
      if items == [] {
        r := None;
      } else {
        r := Some(items[0]);
        items := items[1..];
      }
    }
  }

  /** The paths, each as a queue entry. */
  function Wrapped(paths: seq<string>): (r: seq<Option<string>>)
    ensures |r| == |paths|
    ensures forall i :: 0 <= i < |paths| ==> r[i] == Some(paths[i])
  {
    if paths == [] then [] else Wrapped(paths[..|paths| - 1]) + [Some(paths[|paths| - 1])]
  }

  /** `n` sentinels. */
  function Sentinels(n: nat): (r: seq<Option<string>>)
    ensures |r| == n
    ensures forall i :: 0 <= i < n ==> r[i] == None
  {
    if n == 0 then [] else Sentinels(n - 1) + [None]
  }

  /** The work queue a full fill leaves behind: every path in order, then one sentinel
      per worker. */
  function Filled(paths: seq<string>, numproc: nat): seq<Option<string>> {
    Wrapped(paths) + Sentinels(numproc)
  }

  /** Lines 244-248: a queue of capacity `len(pyc_paths) + numproc`, then a `put` for each
      path and for each sentinel. The queue ends up exactly full, so no `put` ever has to
      wait. */
  method FillWorkQueue(paths: seq<string>, numproc: nat)
    returns (fq: BoundedQueue<Option<string>>, allAccepted: bool)
    ensures fresh(fq) && fq.Valid()
    ensures fq.capacity == |paths| + numproc
    ensures fq.items == Filled(paths, numproc)
    ensures |fq.items| == fq.capacity
    ensures allAccepted
  {
    fq := new BoundedQueue(|paths| + numproc);
    allAccepted := true;
    for i := 0 to |paths|
      invariant fq.Valid() && fq.capacity == |paths| + numproc
      invariant fq.items == Wrapped(paths[..i])
      invariant allAccepted
    {
      var ok := fq.Put(Some(paths[i]));
      allAccepted := allAccepted && ok;
      assert paths[..i + 1] == paths[..i] + [paths[i]];
    }
    assert paths[..|paths|] == paths;
    for i := 0 to numproc
      invariant fq.Valid() && fq.capacity == |paths| + numproc
      invariant fq.items == Wrapped(paths) + Sentinels(i)
      invariant allAccepted
    {
      var ok := fq.Put(None);
      allAccepted := allAccepted && ok;
      assert Sentinels(i + 1) == Sentinels(i) + [None];
    }
  }

  /** The paths ahead of the first sentinel: what one worker takes. */
  function Before(items: seq<Option<string>>): seq<string> {
    if items == [] || items[0].None? then [] else [items[0].value] + Before(items[1..])
  }

  lemma {:induction false} BeforeSentinel(taken: seq<string>, rest: seq<Option<string>>)
    ensures Before(Wrapped(taken) + [None] + rest) == taken
    decreases |taken|
  {
    if taken != [] {
      var q := Wrapped(taken) + [None] + rest;
      assert q[1..] == Wrapped(taken[1..]) + [None] + rest;
      BeforeSentinel(taken[1..], rest);
      assert taken == [taken[0]] + taken[1..];
    }
  }

  /** A queue of paths and `m > 0` sentinels: a worker takes all the paths and one
      sentinel. */
  lemma TakeFromShaped(rest: seq<string>, m: nat)
    requires m > 0
    ensures Filled(rest, m) == Wrapped(rest) + [None] + Sentinels(m - 1)
    ensures Filled(rest, m)[|rest|] == None
    ensures Before(Filled(rest, m)) == rest
  {
    assert Sentinels(m) == [None] + Sentinels(m - 1);
    BeforeSentinel(rest, Sentinels(m - 1));
  }

  lemma CancelPrefix<T>(p: seq<T>, x: seq<T>, y: seq<T>)
    requires p + x == p + y
    ensures x == y
  {
    assert x == (p + x)[|p|..];
    assert y == (p + y)[|p|..];
  }

  /** A worker that takes path `f` off the front of what is left moves `f` over to
      what it has taken. */
  lemma TakePath(all: seq<Option<string>>, taken: seq<string>, queued: seq<Option<string>>, f: string)
    requires all == Wrapped(taken) + queued
    requires queued != [] && queued[0] == Some(f) && None in queued
    ensures all == Wrapped(taken + [f]) + queued[1..]
    ensures None in queued[1..]
  {
    assert (taken + [f])[..|taken|] == taken;
    assert queued == [Some(f)] + queued[1..];
  }

  lemma DropSentinel(all: seq<Option<string>>, taken: seq<string>, queued: seq<Option<string>>)
    requires all == Wrapped(taken) + queued
    requires queued != [] && queued[0] == None
    ensures all == Wrapped(taken) + [None] + queued[1..]
  {
    assert queued == [None] + queued[1..];
  }

  lemma TakenBeforeSentinel(all: seq<Option<string>>, taken: seq<string>, rest: seq<Option<string>>)
    requires all == Wrapped(taken) + [None] + rest
    ensures Before(all) == taken && |taken| < |all|
  {
    BeforeSentinel(taken, rest);
  }

  /** A worker that meets a sentinel has taken exactly the paths before it. */
  lemma SentinelNext(all: seq<Option<string>>, taken: seq<string>, queued: seq<Option<string>>)
    requires all == Wrapped(taken) + queued
    requires queued != [] && queued[0] == None
    ensures all == Wrapped(taken) + [None] + queued[1..]
    ensures Before(all) == taken && |taken| < |all|
  {
    DropSentinel(all, taken, queued);
    TakenBeforeSentinel(all, taken, queued[1..]);
  }

  lemma SumFilesSnoc(paths: seq<string>, f: string, main: string -> Counters)
    ensures SumFiles(paths + [f], main) == SumFiles(paths, main).Plus(main(f))
  {
    assert Results(paths + [f], main) == Results(paths, main) + [main(f)];
    TotalSnoc(Results(paths, main), main(f));
  }

  /** `process_func` (lines 255-273) for one worker: take paths until a sentinel, add up
      what `main` returns for each, then publish the sum. `main` is the per-file
      decompilation, seen only through the counters it returns. */
  method ProcessFunc(fq: BoundedQueue<Option<string>>, rq: BoundedQueue<Counters>,
                     main: string -> Counters)
    requires fq.Valid() && rq.Valid()
    requires None in fq.items
    requires |rq.items| < rq.capacity
    modifies fq, rq
    ensures fq.Valid() && rq.Valid()
    ensures var taken := Before(old(fq.items));
      && |taken| < |old(fq.items)|
      && old(fq.items) == Wrapped(taken) + [None] + fq.items
      && rq.items == old(rq.items) + [SumFiles(taken, main)]
  {
    ghost var taken: seq<string> := [];
    var acc := Zero;
    while true
      invariant fq.Valid() && rq.Valid() && rq.items == old(rq.items)
      invariant old(fq.items) == Wrapped(taken) + fq.items
      invariant None in fq.items
      invariant acc == SumFiles(taken, main)
      decreases |fq.items|
    {
      ghost var queued := fq.items;
      var got := fq.Get();
      var entry := got.value;
      if entry.None? {
        SentinelNext(old(fq.items), taken, queued);
        break;
      }
      var f := entry.value;
      acc := acc.Plus(main(f));
      TakePath(old(fq.items), taken, queued, f);
      SumFilesSnoc(taken, f, main);
      taken := taken + [f];
    }
    var ok := rq.Put(acc);
  }

  /** Lines 289-294: `get(False)` until the queue is empty, adding each published tuple
      to the running total. */
  method Drain(rq: BoundedQueue<Counters>) returns (totals: Counters)
    requires rq.Valid()
    modifies rq
    ensures rq.Valid() && rq.items == []
    ensures totals == Total(old(rq.items))
  {
    ghost var drained: seq<Counters> := [];
    totals := Zero;
    while true
      invariant rq.Valid()
      invariant old(rq.items) == drained + rq.items
      invariant totals == Total(drained)
      decreases |rq.items|
    {
      var next := rq.Get();
      if next.None? {
        break;
      }
      assert (drained + [next.value])[..|drained|] == drained;
      totals := totals.Plus(next.value);
      drained := drained + [next.value];
    }
    assert drained + [] == drained;
  }

  /**
   * One worker run on a queue shaped like a filled one: it takes all of `rest`,
   * stops at the first of the `m` sentinels and publishes the sum of its files.
   */
  method RunWorker(fq: BoundedQueue<Option<string>>, rq: BoundedQueue<Counters>, main: string -> Counters,
                   ghost rest: seq<string>, ghost m: nat)
    requires fq.Valid() && rq.Valid()
    requires m > 0 && fq.items == Filled(rest, m)
    requires |rq.items| < rq.capacity
    modifies fq, rq
    ensures fq.Valid() && rq.Valid()
    ensures fq.items == Sentinels(m - 1)
    ensures rq.items == old(rq.items) + [SumFiles(rest, main)]
  {
    TakeFromShaped(rest, m);
    ProcessFunc(fq, rq, main);
    CancelPrefix(Wrapped(rest) + [None], fq.items, Sentinels(m - 1));
  }

  /** A worker that finds a sentinel straight away publishes zeros, which add nothing. */
  lemma IdleWorker(before: seq<Counters>, main: string -> Counters)
    ensures Total(before + [SumFiles([], main)]) == Total(before)
  {
    TotalSnoc(before, SumFiles([], main));
    EmptySum(main);
    PlusZero(Total(before));
  }

  lemma SingleTotal(x: Counters)
    ensures Total([x]) == x
  {
    TotalSnoc([], x);
    assert [] + [x] == [x];
    PlusZero(x);
  }

  lemma NoPathsFilled(m: nat)
    ensures Filled([], m) == Sentinels(m)
  {
    assert Wrapped([]) == [];
  }

  /** Lines 244-294 with `numproc` workers run one after another: the result queue holds
      one tuple per worker, and the drained total is the sum over all paths. */
  method RunParallel(paths: seq<string>, numproc: nat, main: string -> Counters)
    returns (totals: Counters, published: seq<Counters>)
    requires numproc > 1
    ensures |published| == numproc
    ensures totals == Total(published)
    ensures totals == SumFiles(paths, main)
  {
    var fq, _ := FillWorkQueue(paths, numproc);
    var rq := new BoundedQueue<Counters>(numproc);
    // The first worker takes every path and the first sentinel.
    RunWorker(fq, rq, main, paths, numproc);
    SingleTotal(SumFiles(paths, main));
    for i := 1 to numproc
      invariant fq.Valid() && rq.Valid() && rq.capacity == numproc && |rq.items| == i
      invariant fq.items == Sentinels(numproc - i)
      invariant Total(rq.items) == SumFiles(paths, main)
    {
      // The others find a sentinel straight away.
      ghost var before := rq.items;
      NoPathsFilled(numproc - i);
      RunWorker(fq, rq, main, [], numproc - i);
      IdleWorker(before, main);
    }
    published := rq.items;
    totals := Drain(rq);
  }
}
