/**
 * The part of Go's `path/filepath` the pipeline relies on, for Unix paths:
 * `Ext`, `Base`, `Dir` and `Join`, and the folder layout built from them.
 */
module Paths {
  import opened Text

  type Path = string

  /** A file-name extension as `filepath.Ext` returns it: a dot, then no dot and no separator. */
  predicate IsExt(e: string) {
    |e| >= 1 && e[0] == '.' && forall i :: 1 <= i < |e| ==> e[i] != '.' && e[i] != '/'
  }

  /**
   * `filepath.Ext`: the suffix from the final dot of the final path element,
   * or "" when that element has no dot.
   */
  function Ext(p: Path): (r: string)
    ensures HasSuffix(p, r)
    ensures r != [] ==> IsExt(r)
    ensures r == [] ==> forall i :: 0 <= i < |p| ==> !IsExt(p[i..])
    decreases |p|
  {
    if p == [] || p[|p| - 1] == '/' then []
    else if p[|p| - 1] == '.' then ['.']
    else
      var e := Ext(p[..|p| - 1]);
      if e == [] then
        assert forall i :: 0 <= i < |p| - 1 ==> p[i..][..|p| - 1 - i] == p[..|p| - 1][i..];
        []
      else
        e + [p[|p| - 1]]
  }

  /** Every path that ends in a well-formed extension has exactly that extension. */
  lemma {:induction false} ExtOfSuffix(p: Path, e: string)
    requires IsExt(e) && HasSuffix(p, e)
    ensures Ext(p) == e
    decreases |e|
  {
    if |e| > 1 {
      var p', e' := p[..|p| - 1], e[..|e| - 1];
      assert HasSuffix(p', e') by {
        assert p'[|p'| - |e'|..] == p[|p| - |e|..][..|e| - 1];
      }
      ExtOfSuffix(p', e');
    }
  }

  /** Index of the last separator, or -1. */
  function LastSlash(p: Path): (i: int)
    ensures -1 <= i < |p|
    ensures i >= 0 ==> p[i] == '/'
    ensures forall j :: i < j < |p| ==> p[j] != '/'
    decreases |p|
  {
    if p == [] then -1 else if p[|p| - 1] == '/' then |p| - 1 else LastSlash(p[..|p| - 1])
  }

  function TrimTrailingSlashes(p: Path): (r: Path)
    ensures IsPrefix(r, p)
    ensures r == [] || r[|r| - 1] != '/'
    decreases |p|
  {
    if p != [] && p[|p| - 1] == '/' then TrimTrailingSlashes(p[..|p| - 1]) else p
  }

  /** `filepath.Base`: the last element, trailing separators removed. */
  function Base(p: Path): Path {
    if p == [] then "."
    else
      var q := TrimTrailingSlashes(p);
      if q == [] then "/" else q[LastSlash(q) + 1..]
  }

  /**
   * `filepath.Dir`: everything before the last separator, without the
   * separator, "." when there is none and "/" for a top-level entry.
   */
  function Dir(p: Path): Path {
    var i := LastSlash(p);
    if i < 0 then "." else if i == 0 then "/" else p[..i]
  }

  /** `filepath.Join` of two elements; empty elements are skipped. */
  function Join(dir: Path, name: string): Path {
    if dir == [] then name else if name == [] then dir else dir + "/" + name
  }

  /** A non-empty path element without separators, as `filepath.Base` yields for a file. */
  predicate IsName(n: string) {
    n != [] && forall i :: 0 <= i < |n| ==> n[i] != '/'
  }

  /** A folder path as the configuration spells it: non-empty, no trailing separator. */
  predicate IsFolder(f: Path) {
    f != [] && f[|f| - 1] != '/'
  }

  /** `p` lies inside folder `f`. */
  predicate InFolder(p: Path, f: Path) {
    IsPrefix(f + "/", p)
  }

  /** Neither folder lies inside the other. */
  predicate Separate(f: Path, g: Path) {
    !IsPrefix(f + "/", g + "/") && !IsPrefix(g + "/", f + "/")
  }

  /** A separator-free name after a separator keeps its own extension. */
  lemma {:induction false} ExtAfterSlash(q: Path, n: string)
    requires q != [] && q[|q| - 1] == '/'
    requires forall i :: 0 <= i < |n| ==> n[i] != '/'
    ensures Ext(q + n) == Ext(n)
    decreases |n|
  {
    if n == [] {
      assert q + n == q;
    } else {
      var p := q + n;
      assert p[..|p| - 1] == q + n[..|n| - 1];
      ExtAfterSlash(q, n[..|n| - 1]);
    }
  }

  /** Joining a name onto a folder is undone by `Dir` and `Base`, and keeps the name's extension. */
  lemma JoinSplits(f: Path, n: string)
    requires IsFolder(f) && IsName(n)
    ensures InFolder(Join(f, n), f)
    ensures Dir(Join(f, n)) == f && Base(Join(f, n)) == n
    ensures Ext(Join(f, n)) == Ext(n)
  {
    var p := Join(f, n);
    assert p == (f + "/") + n;
    assert p[..|f| + 1] == f + "/";
    LastSlashIs(p, |f|);
    assert p[|f| + 1..] == n;
    ExtAfterSlash(f + "/", n);
  }

  lemma LastSlashIs(p: Path, k: int)
    requires 0 <= k < |p| && p[k] == '/'
    requires forall j :: k < j < |p| ==> p[j] != '/'
    ensures LastSlash(p) == k
    decreases |p|
  {
    if k < |p| - 1 {
      LastSlashIs(p[..|p| - 1], k);
    }
  }

  /** A path nested in two folders means one folder lies inside the other. */
  lemma NestedFolders(f: Path, g: Path, p: Path)
    requires InFolder(p, f) && InFolder(p, g)
    ensures !Separate(f, g)
  {
    if |f| <= |g| {
      assert (g + "/")[..|f| + 1] == p[..|f| + 1];
    } else {
      assert (f + "/")[..|g| + 1] == p[..|g| + 1];
    }
  }

  /** Names joined onto separate folders never give the same path. */
  lemma SeparateFoldersDisjoint(f: Path, g: Path, x: string, y: string)
    requires IsFolder(f) && IsFolder(g) && Separate(f, g) && x != [] && y != []
    ensures Join(f, x) != Join(g, y)
  {
    assert InFolder(Join(f, x), f) by {
      assert Join(f, x)[..|f| + 1] == f + "/";
    }
    assert InFolder(Join(g, y), g) by {
      assert Join(g, y)[..|g| + 1] == g + "/";
    }
    SeparateFoldersExclusive(f, g, Join(f, x));
  }

  /** A path inside one folder is not inside a separate one. */
  lemma SeparateFoldersExclusive(f: Path, g: Path, p: Path)
    requires Separate(f, g) && InFolder(p, f)
    ensures !InFolder(p, g)
  {
    if InFolder(p, g) {
      NestedFolders(f, g, p);
    }
  }
}
