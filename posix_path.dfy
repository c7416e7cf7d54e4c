/**
  The two path operations of Python's `posixpath` module that the dataset
  relies on: `join` with two arguments, which builds every path the dataset
  derives, and `basename`, its inverse on the last path component.
 */
module PosixPath {

  const Sep: char := '/'

  /** A path whose first character is the separator. */
  predicate IsAbsolute(p: string) {
    |p| > 0 && p[0] == Sep
  }

  /** True when `s` ends with `t`. */
  predicate IsSuffix(t: string, s: string) {
    |t| <= |s| && s[|s| - |t|..] == t
  }

  /**
    `os.path.join(a, b)`: an absolute `b` replaces `a`; otherwise `b` is
    appended to `a`, with one separator in between unless `a` is empty or
    already ends with one.
   */
  function Join(a: string, b: string): (r: string)
    ensures IsAbsolute(b) ==> r == b
    ensures IsSuffix(b, r)
    ensures !IsAbsolute(b) ==> a <= r
    ensures !IsAbsolute(b) ==> (|r| == |a| + |b| + 1 <==> a != [] && a[|a| - 1] != Sep)
    ensures !IsAbsolute(b) ==> |a| + |b| <= |r| <= |a| + |b| + 1
    ensures !IsAbsolute(b) && a != [] ==> r[|r| - |b| - 1] == Sep
  {
    if IsAbsolute(b) then b
    else if a == [] || a[|a| - 1] == Sep then a + b
    else a + [Sep] + b
  }

  /** `p.rfind('/')`: the index of the last separator of `p`, or -1. */
  function LastSep(p: string): (i: int)
    ensures -1 <= i < |p|
    ensures i >= 0 ==> p[i] == Sep
    ensures forall k :: i < k < |p| ==> p[k] != Sep
  {
    if p == [] then -1
    else if p[|p| - 1] == Sep then |p| - 1
    else LastSep(p[..|p| - 1])
  }

  /** `os.path.basename(p)`: what follows the last separator. */
  function Basename(p: string): (r: string)
    ensures IsSuffix(r, p)
    ensures Sep !in r
    ensures |r| == |p| || p[|p| - |r| - 1] == Sep
  {
    p[LastSep(p) + 1..]
  }

  /** Joining a single path component and taking the basename gives the component back. */
  lemma BasenameOfJoin(dir: string, name: string)
    requires Sep !in name
    ensures Basename(Join(dir, name)) == name
  {
  }

  /**
    Distinct relative names under the same directory are distinct paths: a
    joined path determines its relative second argument.
   */
  lemma JoinInjective(dir: string, n1: string, n2: string)
    requires !IsAbsolute(n1) && !IsAbsolute(n2)
    requires Join(dir, n1) == Join(dir, n2)
    ensures n1 == n2
  {
  }
}
