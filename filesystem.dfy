/**
 * The working copy the builder reads and writes, and the effect of the `cp` and
 * `rm` commands it runs on it.  A file system is a map from the path of each
 * regular file (relative to the working directory, without a leading "./") to
 * its lines; a directory is any path `d` such that some file lies under `d/`.
 */
module FileSystem {

  type Path = string
  type FS = map<Path, seq<string>>

  function Join(dir: Path, rel: Path): Path { dir + "/" + rel }

  /** `p` lies strictly inside the directory `dir`. */
  predicate Under(p: Path, dir: Path) {
    |dir| + 1 < |p| && p[..|dir| + 1] == dir + "/"
  }

  /** The path of `p` relative to the directory `dir` that holds it. */
  function Rel(p: Path, dir: Path): (r: Path)
    requires Under(p, dir)
    ensures r != [] && Join(dir, r) == p
  {
    assert p == p[..|dir| + 1] + p[|dir| + 1..];
    p[|dir| + 1..]
  }

  lemma RelOfJoin(dir: Path, r: Path)
    requires r != []
    ensures Under(Join(dir, r), dir) && Rel(Join(dir, r), dir) == r
  {
    assert Join(dir, r)[..|dir| + 1] == dir + "/";
  }

  /** A path relative to a subdirectory is the subdirectory's name joined with it. */
  lemma JoinAssoc(dir: Path, sub: Path, r: Path)
    ensures Join(Join(dir, sub), r) == Join(dir, Join(sub, r))
  {
  }

  /** Whatever lies inside a subdirectory of `dir` lies inside `dir`. */
  lemma UnderNested(p: Path, dir: Path, sub: Path)
    requires Under(p, Join(dir, sub))
    ensures Under(p, dir)
  {
    var d := Join(dir, sub);
    assert p[..|dir| + 1] == p[..|d| + 1][..|dir| + 1];
  }

  predicate IsDir(fs: FS, p: Path) {
    exists q :: q in fs && Under(q, p)
  }

  /** Ruby's `exist?`: a regular file or a directory. */
  predicate Exists(fs: FS, p: Path) {
    p in fs || IsDir(fs, p)
  }

  /** An entry name the shell's `*` does not match. */
  predicate Hidden(rel: Path) {
    rel != [] && rel[0] == '.'
  }

  /** `rm -rf p`: the file `p`, or the directory `p` with everything in it, disappears. */
  function RemoveTree(fs: FS, p: Path): (r: FS)
    ensures forall q :: q in r <==> q in fs && q != p && !Under(q, p)
    ensures forall q :: q in r ==> r[q] == fs[q]
  {
    map q | q in fs && q != p && !Under(q, p) :: fs[q]
  }

  // `rm -rf dir/*`: every entry of `dir` the glob matches disappears; hidden ones stay.
  function ClearEntries(fs: FS, dir: Path): (r: FS)
    ensures forall q :: q in r <==> q in fs && !(Under(q, dir) && !Hidden(Rel(q, dir)))
    ensures forall q :: q in r ==> r[q] == fs[q]
  {
    map q | q in fs && !(Under(q, dir) && !Hidden(Rel(q, dir))) :: fs[q]
  }

  // Whether `cp` takes the file at relative path `r`: with `src/*` only if its top entry is not hidden.
  predicate Copies(r: Path, withHidden: bool) {
    withHidden || !Hidden(r)
  }

  /** The relative paths of the files that are copied out of `src`. */
  function Sources(fs: FS, src: Path, withHidden: bool): set<Path> {
    set q | q in fs && Under(q, src) && Copies(Rel(q, src), withHidden) :: Rel(q, src)
  }

  function Targets(fs: FS, src: Path, dst: Path, withHidden: bool): set<Path> {
    set r | r in Sources(fs, src, withHidden) :: Join(dst, r)
  }

  // `cp -R src/* dst/` (withHidden false) or `cp -R src dst` onto an existing
  // `dst` (withHidden true): each copied file lands at the same relative place
  // under `dst`, overwriting what was there; files of `dst` that `src` lacks stay.
  function Overlay(fs: FS, src: Path, dst: Path, withHidden: bool): FS {
    var copied := map p | p in Targets(fs, src, dst, withHidden) ::
      (TargetSource(fs, src, dst, withHidden, p); fs[Join(src, Rel(p, dst))]);
    fs + copied
  }

  lemma TargetSource(fs: FS, src: Path, dst: Path, withHidden: bool, p: Path)
    requires p in Targets(fs, src, dst, withHidden)
    ensures Under(p, dst) && Join(src, Rel(p, dst)) in fs
    ensures Rel(p, dst) in Sources(fs, src, withHidden)
  {
    var r :| r in Sources(fs, src, withHidden) && p == Join(dst, r);
    var q :| q in fs && Under(q, src) && Copies(Rel(q, src), withHidden) && r == Rel(q, src);
    RelOfJoin(dst, r);
  }

  /** What `Overlay` leaves at relative place `r` under `dst`: the copied file if `src` has one there, else what was there. */
  lemma OverlayInside(fs: FS, src: Path, dst: Path, withHidden: bool, r: Path)
    requires r != []
    ensures var o := Overlay(fs, src, dst, withHidden);
      var from := Join(src, r);
      var p := Join(dst, r);
      (p in o <==> p in fs || (from in fs && Copies(r, withHidden))) &&
      (p in o ==> o[p] == if from in fs && Copies(r, withHidden) then fs[from] else fs[p])
  {
    var p := Join(dst, r);
    var from := Join(src, r);
    RelOfJoin(dst, r);
    RelOfJoin(src, r);
    if from in fs && Copies(r, withHidden) {
      assert r in Sources(fs, src, withHidden);
      assert p in Targets(fs, src, dst, withHidden);
    }
    if p in Targets(fs, src, dst, withHidden) {
      TargetSource(fs, src, dst, withHidden, p);
    }
  }

  /** `Overlay` changes nothing outside `dst`. */
  lemma OverlayOutside(fs: FS, src: Path, dst: Path, withHidden: bool, p: Path)
    requires !Under(p, dst)
    ensures var o := Overlay(fs, src, dst, withHidden);
      (p in o <==> p in fs) && (p in fs ==> o[p] == fs[p])
  {
    if p in Targets(fs, src, dst, withHidden) {
      TargetSource(fs, src, dst, withHidden, p);
    }
  }
}
