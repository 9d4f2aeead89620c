/**
 * The part of java.io.File the validators rely on: existence and kind probes,
 * the parent of a path, and the rendering of a path as a string.
 *
 * A path is the sequence of its segments from the root; the empty sequence is
 * the root itself, which has no parent (getParentFile() returns null).
 */
module FileSystem {
  import opened Wrappers

  type Path = seq<string>

  /** What a probe finds at an existing path. */
  datatype Kind = File | Directory | Other

  /** A snapshot of the filesystem: the paths that exist, and what each one is. */
  type FileSystem = map<Path, Kind>

  predicate Exists(fs: FileSystem, p: Path) {
    p in fs
  }

  predicate IsFile(fs: FileSystem, p: Path) {
    p in fs && fs[p] == File
  }

  predicate IsDirectory(fs: FileSystem, p: Path) {
    p in fs && fs[p] == Directory
  }

  /** getParentFile(): the path without its last segment; the root has none. */
  function Parent(p: Path): (r: Option<Path>)
    ensures r.None? <==> p == []
    ensures r.Some? ==> |r.value| + 1 == |p| && r.value == p[..|p| - 1]
  {
    if p == [] then None else Some(p[..|p| - 1])
  }

  /** File.toString(): the segments separated by '/', the root written "/". */
  function Render(p: Path): (r: string)
    ensures |r| > 0 && r[0] == '/'
  {
    if p == [] then "/" else RenderSegments(p)
  }

  function RenderSegments(p: Path): (r: string)
    ensures p != [] ==> |r| > 0 && r[0] == '/'
  {
    if p == [] then "" else RenderSegments(p[..|p| - 1]) + "/" + p[|p| - 1]
  }

  /** `a` is a proper ancestor of `p`: a strict prefix of its segments. */
  predicate IsStrictAncestor(a: Path, p: Path) {
    |a| < |p| && a == p[..|a|]
  }

  /**
   * `a` is the nearest ancestor of `p` that exists: an existing strict
   * ancestor, with no existing path strictly between the two.
   */
  ghost predicate IsNearestExistingAncestor(fs: FileSystem, p: Path, a: Path) {
    IsStrictAncestor(a, p) && Exists(fs, a) &&
    forall k :: |a| < k < |p| ==> !Exists(fs, p[..k])
  }

  /**
   * The upward walk of the output validators, from `candidate` towards the
   * root: it stops with no result at the first directory or past the root,
   * and yields the first candidate that exists but is not a directory.
   */
  function WalkFrom(fs: FileSystem, candidate: Option<Path>): (r: Option<Path>)
    decreases if candidate.Some? then |candidate.value| + 1 else 0
  {
    match candidate
    case None => None
    case Some(c) =>
      if IsDirectory(fs, c) then None
      else if Exists(fs, c) then Some(c)
      else WalkFrom(fs, Parent(c))
  }

  /** The ancestor that blocks creating `p`, if the walk from its parent finds one. */
  function BlockingAncestor(fs: FileSystem, p: Path): Option<Path> {
    WalkFrom(fs, Parent(p))
  }

  /** The walk from the prefix of length k of p only ever yields a prefix of p of length at most k. */
  lemma {:induction false} WalkFromPrefix(fs: FileSystem, p: Path, k: nat)
    requires k < |p|
    ensures var r := WalkFrom(fs, Some(p[..k]));
            r.Some? ==> |r.value| <= k && r.value == p[..|r.value|] &&
                        Exists(fs, r.value) && !IsDirectory(fs, r.value) &&
                        forall i :: |r.value| < i <= k ==> !Exists(fs, p[..i])
  {
    var c := p[..k];
    if !IsDirectory(fs, c) && !Exists(fs, c) && k > 0 {
      assert c[..|c| - 1] == p[..k - 1];
      WalkFromPrefix(fs, p, k - 1);
    }
  }

  /** Conversely, a prefix p[..j] that exists, is not a directory and has nothing existing above it up to p[..k] is what the walk from p[..k] finds. */
  lemma {:induction false} WalkFromFinds(fs: FileSystem, p: Path, k: nat, j: nat)
    requires j <= k < |p|
    requires Exists(fs, p[..j]) && !IsDirectory(fs, p[..j])
    requires forall i :: j < i <= k ==> !Exists(fs, p[..i])
    ensures WalkFrom(fs, Some(p[..k])) == Some(p[..j])
  {
    if j < k {
      assert p[..k][..k - 1] == p[..k - 1];
      WalkFromFinds(fs, p, k - 1, j);
    }
  }

  /**
   * The walk reports an ancestor exactly when the nearest existing ancestor
   * of `p` is not a directory, and the ancestor it reports is that one; so
   * it reports nothing when that ancestor is a directory or none exists.
   */
  lemma BlockingAncestorIsNearest(fs: FileSystem, p: Path, a: Path)
    ensures BlockingAncestor(fs, p) == Some(a) <==>
            IsNearestExistingAncestor(fs, p, a) && !IsDirectory(fs, a)
  {
    if p != [] {
      var k := |p| - 1;
      WalkFromPrefix(fs, p, k);
      if IsNearestExistingAncestor(fs, p, a) && !IsDirectory(fs, a) {
        WalkFromFinds(fs, p, k, |a|);
      }
    }
  }

  /** When no strict ancestor of `p` exists, nothing blocks it. */
  lemma NoExistingAncestorNoBlock(fs: FileSystem, p: Path)
    requires forall k :: 0 <= k < |p| ==> !Exists(fs, p[..k])
    ensures BlockingAncestor(fs, p).None?
  {
    if p != [] {
      WalkFromPrefix(fs, p, |p| - 1);
    }
  }
}
