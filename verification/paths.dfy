/**
  The part of `pathlib` and of the operating system's path lookup that the template
  loaders rely on. A file system is a map from absolute paths (segment sequences from
  "/") to nodes; joining a base directory with a relative string is lexical, while the
  lookup behind `exists()`, `is_file()`, `resolve()` and `read_text()` walks the path
  from the root and resolves `..` physically. Symbolic links are not modelled.
*/
module Paths {
  import opened Wrappers
  import opened Text

  /** An absolute path, one name per segment; `[]` is "/". */
  type Path = seq<string>

  /** A directory, or a regular file whose text is `None` when it is not valid UTF-8. */
  datatype Node = Directory | File(text: Option<string>)

  type FileSystem = map<Path, Node>

  predicate Exists(fs: FileSystem, p: Path) {
    p == [] || p in fs
  }

  predicate IsDir(fs: FileSystem, p: Path) {
    p == [] || (p in fs && fs[p].Directory?)
  }

  predicate IsFile(fs: FileSystem, p: Path) {
    p in fs && fs[p].File?
  }

  function Parent(p: Path): (r: Path)
    ensures r <= p && (p != [] ==> |r| == |p| - 1)
  {
    if p == [] then [] else p[..|p| - 1]
  }

  /** The components pathlib keeps from a relative string: empty and "." parts vanish. */
  function Kept(parts: seq<string>): (r: seq<string>)
    ensures forall i :: 0 <= i < |r| ==> r[i] != "" && r[i] != "."
    ensures forall x :: x in r <==> x in parts && x != "" && x != "."
  {
    if parts == [] then []
    else if parts[0] == "" || parts[0] == "." then Kept(parts[1..])
    else [parts[0]] + Kept(parts[1..])
  }

  function Components(rel: string): (r: seq<string>)
    ensures forall i :: 0 <= i < |r| ==> r[i] != "" && r[i] != "."
  {
    Kept(Split(rel, "/"))
  }

  /** `base / rel`: an absolute `rel` replaces the base. */
  function JoinPath(base: Path, rel: string): (r: seq<string>)
    ensures |Components(rel)| <= |r| && r[|r| - |Components(rel)|..] == Components(rel)
    ensures StartsWith(rel, "/") ==> |r| == |Components(rel)|
    ensures !StartsWith(rel, "/") ==> base <= r
  {
    (if StartsWith(rel, "/") then [] else base) + Components(rel)
  }

  /**
    The path the operating system reaches by following `segs` from `cur`: every step
    needs a directory to step from, and `..` moves to the parent of the directory
    actually reached (the root is its own parent). `None` is a failed lookup.
  */
  function Walk(fs: FileSystem, cur: Path, segs: seq<string>): (r: Option<Path>)
    ensures r.Some? ==> Exists(fs, r.value)
    ensures r.Some? ==> |r.value| <= |cur| + |segs|
    ensures segs == [] ==> (r.Some? <==> Exists(fs, cur)) && (r.Some? ==> r.value == cur)
    decreases |segs|
  {
    if segs == [] then (if Exists(fs, cur) then Some(cur) else None)
    else if !IsDir(fs, cur) then None
    else if segs[0] == ".." then Walk(fs, Parent(cur), segs[1..])
    else Walk(fs, cur + [segs[0]], segs[1..])
  }

  /** The physical path a lexical path names, if it exists (`exists()` then `resolve()`). */
  function Locate(fs: FileSystem, lexical: seq<string>): (r: Option<Path>)
    ensures r.Some? ==> Exists(fs, r.value) && |r.value| <= |lexical|
    ensures lexical == [] ==> r == Some([])
  {
    Walk(fs, [], lexical)
  }

  /** Without `..` the walk is lexical: whatever it reaches is the concatenation. */
  lemma {:induction false} WalkWithoutParentSteps(fs: FileSystem, cur: Path, segs: seq<string>)
    requires forall i :: 0 <= i < |segs| ==> segs[i] != ".."
    ensures Walk(fs, cur, segs).Some? ==> Walk(fs, cur, segs).value == cur + segs
    decreases |segs|
  {
    if segs != [] && IsDir(fs, cur) {
      WalkWithoutParentSteps(fs, cur + [segs[0]], segs[1..]);
      assert cur + [segs[0]] + segs[1..] == cur + segs;
    }
  }

  /** A relative string without `..` components stays under the base it is joined to. */
  lemma LocateStaysUnder(fs: FileSystem, base: Path, rel: string)
    requires !StartsWith(rel, "/") && ".." !in Components(rel)
    requires forall i :: 0 <= i < |base| ==> base[i] != ".."
    ensures Locate(fs, JoinPath(base, rel)).Some? ==> base <= Locate(fs, JoinPath(base, rel)).value
  {
    var segs := JoinPath(base, rel);
    assert segs == base + Components(rel);
    WalkWithoutParentSteps(fs, [], segs);
  }

  /** A single plain name is a single component. */
  lemma PlainNameComponents(name: string)
    requires '/' !in name && name != "" && name != "."
    ensures Components(name) == [name]
  {
    SplitWithoutSeparator(name, '/');
    assert Split(name, "/") == [name];
    assert Kept([name]) == [name] + Kept([]);
  }
}
