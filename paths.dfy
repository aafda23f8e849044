/**
 * The POSIX path-string operations `uncompile.py` relies on (`os.path.commonprefix`,
 * `os.path.dirname`, `os.path.join`) and the common-prefix reduction that turns the
 * input paths into paths relative to a shared source directory `src_base`.
 */
module Paths {

  /** `os.sep` on a POSIX system. */
  const Sep: char := '/'

  predicate EndsWithSep(p: string) {
    |p| > 0 && p[|p| - 1] == Sep
  }

  predicate AllSeps(p: string) {
    forall k :: 0 <= k < |p| ==> p[k] == Sep
  }

  /** Every separator of `s` belongs to a run of separators at its very start:
      `s` is some separators followed by at most one path component. */
  predicate LeadingSepsOnly(s: string) {
    forall k :: 0 <= k < |s| && s[k] == Sep ==> AllSeps(s[..k])
  }

  /** `os.path.join(a, b)` on POSIX: an absolute `b` replaces `a`; otherwise `b` is
      appended, with a separator in between unless `a` is empty or already ends in one. */
  function Join(a: string, b: string): (r: string)
    ensures |b| <= |r| && r[|r| - |b|..] == b
    ensures (b == [] || b[0] != Sep) ==> a <= r
    ensures (b == [] && a != []) ==> EndsWithSep(r)
  {
    if b != [] && b[0] == Sep then b
    else if a == [] || EndsWithSep(a) then a + b
    else a + [Sep] + b
  }

  /** The longest common leading substring of two strings, character by character. */
  function CommonPrefix2(a: string, b: string): (r: string)
    ensures r <= a && r <= b
    ensures |r| == |a| || |r| == |b| || a[|r|] != b[|r|]
  {
    if a == [] || b == [] || a[0] != b[0] then []
    else [a[0]] + CommonPrefix2(a[1..], b[1..])
  }

  /** `os.path.commonprefix(paths)`: the empty string for an empty list. Python computes
      it from the lexicographic minimum and maximum; the longest common prefix of all
      elements is the same string (see CommonPrefixLongest). */
  function CommonPrefix(paths: seq<string>): (r: string)
    ensures forall i :: 0 <= i < |paths| ==> r <= paths[i]
    ensures paths == [] ==> r == []
  {
    if |paths| == 0 then []
    else if |paths| == 1 then paths[0]
    else CommonPrefix2(paths[0], CommonPrefix(paths[1..]))
  }

  lemma PrefixOfCommonPrefix2(a: string, b: string, q: string)
    requires q <= a && q <= b
    ensures q <= CommonPrefix2(a, b)
  {
  }

  /** No common prefix of all the paths is longer than `CommonPrefix(paths)`. */
  lemma {:induction false} CommonPrefixLongest(paths: seq<string>, q: string)
    requires paths != []
    requires forall i :: 0 <= i < |paths| ==> q <= paths[i]
    ensures q <= CommonPrefix(paths)
  {
    if |paths| > 1 {
      assert forall i :: 0 <= i < |paths[1..]| ==> q <= paths[1..][i] by {
        forall i | 0 <= i < |paths[1..]| ensures q <= paths[1..][i] {
          assert paths[1..][i] == paths[i + 1];
        }
      }
      CommonPrefixLongest(paths[1..], q);
      assert q <= paths[0];
      PrefixOfCommonPrefix2(paths[0], CommonPrefix(paths[1..]), q);
    }
  }

  /** `p.rfind(os.sep) + 1`: the length of `p` up to and including its last separator. */
  function SepEnd(p: string): (i: nat)
    ensures i <= |p|
    ensures i > 0 ==> p[i - 1] == Sep
    ensures forall k :: i <= k < |p| ==> p[k] != Sep
  {
    if p == [] then 0
    else if p[|p| - 1] == Sep then |p|
    else SepEnd(p[..|p| - 1])
  }

  /** `h.rstrip(os.sep)`. */
  function TrimTrailingSeps(h: string): (r: string)
    ensures r <= h
    ensures r == [] || r[|r| - 1] != Sep
    ensures forall k :: |r| <= k < |h| ==> h[k] == Sep
  {
    if h != [] && h[|h| - 1] == Sep then TrimTrailingSeps(h[..|h| - 1]) else h
  }

  /** `posixpath.dirname(p)`: everything up to the last separator, with the trailing
      run of separators removed unless the head consists of separators only. */
  function DirName(p: string): string
  {
    var head := p[..SepEnd(p)];
    if head != [] && !AllSeps(head) then TrimTrailingSeps(head) else head
  }

  /** What `dirname` keeps: a prefix of `p`, empty exactly when `p` has no separator;
      the directory part with one separator appended is a prefix of `p` after which
      only a run of separators and the final name follow; trailing separators are
      dropped unless the directory is the root. */
  lemma DirNameSpec(p: string)
    ensures DirName(p) <= p
    ensures DirName(p) == [] <==> Sep !in p
    ensures Join(DirName(p), []) <= p
    ensures LeadingSepsOnly(p[|Join(DirName(p), [])|..])
    ensures DirName(p) == [] || AllSeps(DirName(p)) || !EndsWithSep(DirName(p))
  {
    var e := SepEnd(p);
    var head := p[..e];
    if e > 0 {
      assert Sep in p by { assert p[e - 1] == Sep; }
    } else {
      assert Sep !in p;
    }
    if head != [] && !AllSeps(head) {
      var h := TrimTrailingSeps(head);
      var k :| 0 <= k < |head| && head[k] != Sep;
      assert k < |h|;
      assert |h| < |head|;
      assert Join(h, []) == head[..|h| + 1];
      var rest := p[|h| + 1..];
      forall j | 0 <= j < |rest| && rest[j] == Sep
        ensures AllSeps(rest[..j])
      {
        assert j + |h| + 1 < e;
      }
    } else if head != [] {
      assert Join(head, []) == head;
    }
  }

  /** `posixpath.basename(p)`: everything after the last separator. */
  function BaseName(p: string): (r: string)
    ensures Sep !in r
    ensures |r| <= |p| && r == p[|p| - |r|..]
  {
    p[SepEnd(p)..]
  }

  /** Lines 179-181: the common prefix, cut back to a directory with `dirname`
      unless it already ends in `os.sep`. `Join(r, [])` is what line 183 strips. */
  function SrcBase(paths: seq<string>): (r: string)
    ensures forall i :: 0 <= i < |paths| ==> Join(r, []) <= paths[i]
    ensures Join(r, []) <= CommonPrefix(paths)
    ensures Join(r, []) == [] || EndsWithSep(Join(r, []))
    ensures r == [] <==> Sep !in CommonPrefix(paths)
    ensures LeadingSepsOnly(CommonPrefix(paths)[|Join(r, [])|..])
  {
    var cp := CommonPrefix(paths);
    DirNameSpec(cp);
    if EndsWithSep(cp) then
      assert cp[|cp| - 1] == Sep;
      assert cp[|cp|..] == [];
      cp
    else
      DirName(cp)
  }

  datatype Reduction = Reduction(srcBase: string, relative: seq<string>)

  /** Lines 179-184: `src_base` and every path with `len(join(src_base, ""))` leading
      characters removed, or the paths unchanged when `src_base` is empty. */
  function Reduce(paths: seq<string>): (r: Reduction)
    ensures r.srcBase == SrcBase(paths)
    ensures |r.relative| == |paths|
    ensures forall i :: 0 <= i < |paths| ==> Join(r.srcBase, []) + r.relative[i] == paths[i]
    ensures r.srcBase == [] <==> Sep !in CommonPrefix(paths)
    ensures r.srcBase == [] ==> r.relative == paths
  {
    var srcBase := SrcBase(paths);
    if srcBase != [] then
      var sbLen := |Join(srcBase, [])|;
      Reduction(srcBase, seq(|paths|, i requires 0 <= i < |paths| => paths[i][sbLen..]))
    else
      Reduction(srcBase, paths)
  }

  /** No two separators in a row (POSIX `dirname` collapses such runs). */
  predicate NoDoubleSep(p: string) {
    forall k :: 0 < k < |p| && p[k] == Sep ==> p[k - 1] != Sep
  }

  /** With single separators, what line 183 strips is the longest common prefix of the
      paths that ends on a separator: no common directory is left in the relative paths. */
  lemma StrippedPrefixIsLongestCommonDirectory(paths: seq<string>, q: string)
    requires paths != []
    requires forall i :: 0 <= i < |paths| ==> q <= paths[i]
    requires EndsWithSep(q)
    requires NoDoubleSep(CommonPrefix(paths))
    ensures q <= Join(SrcBase(paths), [])
  {
    var cp := CommonPrefix(paths);
    var s := Join(SrcBase(paths), []);
    CommonPrefixLongest(paths, q);
    assert cp[|q| - 1] == Sep;
    assert s != [] by { assert Sep in cp; }
    assert s <= cp;
    if |q| > |s| {
      FirstOfSepRun(cp[|s|..], |q| - 1 - |s|);
      assert false;
    }
  }

  lemma FirstOfSepRun(rest: string, k: nat)
    requires LeadingSepsOnly(rest)
    requires k < |rest| && rest[k] == Sep
    ensures rest[0] == Sep
  {
    assert AllSeps(rest[..k]);
    if k > 0 { assert rest[..k][0] == rest[0]; }
  }

  /** A single input keeps exactly its base name, and `src_base` is its directory:
      `a/b/c.pyc` gives `a/b` and `c.pyc`, not an empty relative path. */
  lemma {:induction false} SingleInputKeepsBaseName(p: string)
    requires NoDoubleSep(p)
    ensures Reduce([p]).srcBase == (if EndsWithSep(p) then p else DirName(p))
    ensures Reduce([p]).relative == [BaseName(p)]
  {
    assert CommonPrefix([p]) == p;
    var r := Reduce([p]);
    assert r.srcBase == SrcBase([p]);
    var s := Join(r.srcBase, []);
    assert s + r.relative[0] == p;
    DirPartEndsAtLastSep(p);
    assert r.relative[0] == p[|s|..];
  }

  /** With single separators, the directory part stripped from a path ends exactly
      after its last separator. */
  lemma DirPartEndsAtLastSep(p: string)
    requires NoDoubleSep(p)
    ensures |Join(SrcBase([p]), [])| == SepEnd(p)
  {
    assert CommonPrefix([p]) == p;
    var s := Join(SrcBase([p]), []);
    var e := SepEnd(p);
    if EndsWithSep(p) {
      assert e == |p|;
    } else if e == 0 {
      assert Sep !in p;
    } else {
      assert s <= p && s != [] && EndsWithSep(s) by { assert p[e - 1] == Sep; }
      assert p[|s| - 1] == Sep;
      assert |s| <= e by {
        if |s| > e {
          assert false;
        }
      }
      assert |s| >= e by {
        if |s| < e {
          FirstOfSepRun(p[|s|..], e - 1 - |s|);
          assert false;
        }
      }
    }
  }

  /** Two paths that agree on their first `n` characters and then differ (or end). */
  lemma CommonPrefixOfTwo(a: string, b: string, n: nat)
    requires n <= |a| && n <= |b| && a[..n] == b[..n]
    requires n == |a| || n == |b| || a[n] != b[n]
    ensures CommonPrefix([a, b]) == a[..n]
  {
    assert [a, b][1..] == [b];
    var c := CommonPrefix2(a, b);
    PrefixOfCommonPrefix2(a, b, a[..n]);
  }

  /** `dirname` of a path whose last separator is at index `e - 1` and which starts
      with, and has just before that separator, a non-separator character. */
  lemma DirNameAtLastSep(p: string, e: nat)
    requires 2 <= e <= |p| && p[e - 1] == Sep
    requires forall k :: e <= k < |p| ==> p[k] != Sep
    requires p[0] != Sep && p[e - 2] != Sep
    ensures DirName(p) == p[..e - 1]
  {
    var i := SepEnd(p);
    assert i >= e by {
      if i < e { assert false; }
    }
    assert i <= e by {
      if i > e { assert false; }
    }
    var head := p[..e];
    assert head[0] != Sep;
    assert head[..e - 1] == p[..e - 1];
    assert TrimTrailingSeps(head) == TrimTrailingSeps(head[..e - 1]);
  }

  /** `dirname` of a path without separators is empty. */
  lemma DirNameNoSep(p: string)
    requires forall k :: 0 <= k < |p| ==> p[k] != Sep
    ensures DirName(p) == []
  {
  }

  lemma SrcBaseWhenNotSepEnding(paths: seq<string>)
    requires !EndsWithSep(CommonPrefix(paths))
    ensures SrcBase(paths) == DirName(CommonPrefix(paths))
  {
  }

  /** Two paths whose reduction is known from their `src_base`. */
  lemma ReduceOfTwo(a: string, b: string, base: string, ra: string, rb: string)
    requires SrcBase([a, b]) == base
    requires a == Join(base, []) + ra && b == Join(base, []) + rb
    ensures Reduce([a, b]) == Reduction(base, [ra, rb])
  {
    var r, j := Reduce([a, b]), Join(base, []);
    assert j + r.relative[0] == j + ra;
    assert r.relative[0] == ra by {
      assert (j + r.relative[0])[|j|..] == r.relative[0];
      assert (j + ra)[|j|..] == ra;
    }
    assert j + r.relative[1] == j + rb;
    assert r.relative[1] == rb by {
      assert (j + r.relative[1])[|j|..] == r.relative[1];
      assert (j + rb)[|j|..] == rb;
    }
    assert r.relative == [ra, rb];
  }

  /** One path whose reduction is known from its `src_base`. */
  lemma ReduceOfOne(a: string, base: string, ra: string)
    requires SrcBase([a]) == base
    requires a == Join(base, []) + ra
    ensures Reduce([a]) == Reduction(base, [ra])
  {
    var r, j := Reduce([a]), Join(base, []);
    assert j + r.relative[0] == j + ra;
    assert r.relative[0] == ra by {
      assert (j + r.relative[0])[|j|..] == r.relative[0];
      assert (j + ra)[|j|..] == ra;
    }
    assert r.relative == [ra];
  }

  /** The usage text's first example (lines 40-41): the shared `bla/` is stripped. */
  lemma SameDirectoryExample()
    ensures Reduce(["bla/fasel.pyc", "bla/foo.pyc"]) == Reduction("bla", ["fasel.pyc", "foo.pyc"])
  {
    assert Join("bla", []) == "bla/";
    assert "bla/fasel.pyc" == "bla/" + "fasel.pyc";
    assert "bla/foo.pyc" == "bla/" + "foo.pyc";
    SameDirectorySrcBase();
    ReduceOfTwo("bla/fasel.pyc", "bla/foo.pyc", "bla", "fasel.pyc", "foo.pyc");
  }

  lemma SameDirectorySrcBase()
    ensures SrcBase(["bla/fasel.pyc", "bla/foo.pyc"]) == "bla"
  {
    var xs := ["bla/fasel.pyc", "bla/foo.pyc"];
    CommonPrefixOfTwo(xs[0], xs[1], 5);
    assert CommonPrefix(xs) == "bla/f";
    DirNameAtLastSep("bla/f", 4);
    SrcBaseWhenNotSepEnding(xs);
  }

  /** The usage text's second example (lines 42-43): `bla/` and `bar/` share only the
      character `b`, so nothing is stripped. */
  lemma DifferentDirectoriesExample()
    ensures Reduce(["bla/fasel.pyc", "bar/foo.pyc"]) == Reduction("", ["bla/fasel.pyc", "bar/foo.pyc"])
  {
    var xs := ["bla/fasel.pyc", "bar/foo.pyc"];
    CommonPrefixOfTwo(xs[0], xs[1], 1);
    assert CommonPrefix(xs) == "b";
    DirNameNoSep("b");
    SrcBaseWhenNotSepEnding(xs);
  }

  /** The comment's case (lines 176-178): `some/classes` and `some/cmds` share `some/c`,
      which is cut back to the directory `some`. */
  lemma SplitComponentExample()
    ensures Reduce(["some/classes/x", "some/cmds/y"]) == Reduction("some", ["classes/x", "cmds/y"])
  {
    assert Join("some", []) == "some/";
    assert "some/classes/x" == "some/" + "classes/x";
    assert "some/cmds/y" == "some/" + "cmds/y";
    SplitComponentSrcBase();
    ReduceOfTwo("some/classes/x", "some/cmds/y", "some", "classes/x", "cmds/y");
  }

  lemma SplitComponentSrcBase()
    ensures SrcBase(["some/classes/x", "some/cmds/y"]) == "some"
  {
    var xs := ["some/classes/x", "some/cmds/y"];
    CommonPrefixOfTwo(xs[0], xs[1], 6);
    assert CommonPrefix(xs) == "some/c";
    DirNameAtLastSep("some/c", 5);
    SrcBaseWhenNotSepEnding(xs);
  }

  /** A single input keeps its file name (`a/b/c.pyc` gives `a/b` and `c.pyc`); a bare
      file name has no directory to strip. */
  lemma SingleFileExamples()
    ensures Reduce(["a/b/c.pyc"]) == Reduction("a/b", ["c.pyc"])
    ensures Reduce(["c.pyc"]) == Reduction("", ["c.pyc"])
  {
    assert Join("a/b", []) == "a/b/";
    assert "a/b/c.pyc" == "a/b/" + "c.pyc";
    SingleFileSrcBases();
    ReduceOfOne("a/b/c.pyc", "a/b", "c.pyc");
  }

  lemma SingleFileSrcBases()
    ensures SrcBase(["a/b/c.pyc"]) == "a/b"
    ensures SrcBase(["c.pyc"]) == ""
  {
    assert CommonPrefix(["a/b/c.pyc"]) == "a/b/c.pyc";
    DirNameAtLastSep("a/b/c.pyc", 4);
    SrcBaseWhenNotSepEnding(["a/b/c.pyc"]);
    assert CommonPrefix(["c.pyc"]) == "c.pyc";
    DirNameNoSep("c.pyc");
    SrcBaseWhenNotSepEnding(["c.pyc"]);
  }

  /** A doubled separator inside the common directory (`a//bx`, `a//by`): `dirname` drops
      the whole run of separators, `join(src_base, "")` puts back only one of them, and
      the relative paths keep the other, so they come out absolute. */
  lemma DoubledSeparatorExample()
    ensures Reduce(["a//bx", "a//by"]) == Reduction("a", ["/bx", "/by"])
  {
    assert Join("a", []) == "a/";
    assert "a//bx" == "a/" + "/bx";
    assert "a//by" == "a/" + "/by";
    DoubledSeparatorSrcBase();
    ReduceOfTwo("a//bx", "a//by", "a", "/bx", "/by");
  }

  lemma DoubledSeparatorSrcBase()
    ensures SrcBase(["a//bx", "a//by"]) == "a"
  {
    var xs := ["a//bx", "a//by"];
    CommonPrefixOfTwo(xs[0], xs[1], 4);
    assert CommonPrefix(xs) == "a//b";
    var p: string := "a//b";
    assert SepEnd(p) == 3 by {
      assert p[..3] == "a//";
    }
    var head: string := "a//";
    assert !AllSeps(head) by {
      assert head[0] != Sep;
    }
    assert TrimTrailingSeps(head) == "a" by {
      assert head[..2] == "a/";
      assert head[..2][..1] == "a";
    }
    SrcBaseWhenNotSepEnding(xs);
  }

  /** A run of three separators before the last component of the common prefix: only one
      is put back by `join(src_base, "")`, so two stay in front of each relative path. */
  lemma TripleSeparatorExample()
    ensures Reduce(["a///bx", "a///by"]) == Reduction("a", ["//bx", "//by"])
  {
    assert Join("a", []) == "a/";
    assert "a///bx" == "a/" + "//bx";
    assert "a///by" == "a/" + "//by";
    TripleSeparatorSrcBase();
    ReduceOfTwo("a///bx", "a///by", "a", "//bx", "//by");
  }

  lemma TripleSeparatorSrcBase()
    ensures SrcBase(["a///bx", "a///by"]) == "a"
  {
    var xs := ["a///bx", "a///by"];
    CommonPrefixOfTwo(xs[0], xs[1], 5);
    assert CommonPrefix(xs) == "a///b";
    var p: string := "a///b";
    assert SepEnd(p) == 4 by {
      assert p[..4] == "a///";
    }
    var head: string := "a///";
    assert !AllSeps(head) by {
      assert head[0] != Sep;
    }
    assert TrimTrailingSeps(head) == "a" by {
      assert head[..3] == "a//";
      assert head[..3][..2] == "a/";
      assert head[..3][..2][..1] == "a";
    }
    SrcBaseWhenNotSepEnding(xs);
  }

  /** A doubled separator in a common prefix that ends in a separator: line 180 keeps the
      whole prefix, so the run stays inside `src_base` and the relative paths are plain. */
  lemma SeparatorEndingPrefixExample()
    ensures Reduce(["a//b/x", "a//b/y"]) == Reduction("a//b/", ["x", "y"])
  {
    var xs := ["a//b/x", "a//b/y"];
    CommonPrefixOfTwo(xs[0], xs[1], 5);
    assert CommonPrefix(xs) == "a//b/";
    assert SrcBase(xs) == "a//b/";
    assert Join("a//b/", []) == "a//b/";
    assert "a//b/x" == "a//b/" + "x";
    assert "a//b/y" == "a//b/" + "y";
    ReduceOfTwo("a//b/x", "a//b/y", "a//b/", "x", "y");
  }

  /** A run of separators at the very start of the path: `dirname` keeps a head made of
      separators only, so the run stays inside `src_base` and the paths stay relative. */
  lemma LeadingRunExample()
    ensures Reduce(["//bx", "//by"]) == Reduction("//", ["bx", "by"])
  {
    var xs := ["//bx", "//by"];
    CommonPrefixOfTwo(xs[0], xs[1], 3);
    assert CommonPrefix(xs) == "//b";
    var p: string := "//b";
    assert SepEnd(p) == 2 by {
      assert p[..2] == "//";
    }
    assert AllSeps("//");
    SrcBaseWhenNotSepEnding(xs);
    assert SrcBase(xs) == "//";
    assert Join("//", []) == "//";
    assert "//bx" == "//" + "bx";
    assert "//by" == "//" + "by";
    ReduceOfTwo("//bx", "//by", "//", "bx", "by");
  }
}
