/** File-system paths as `java.nio.file.Path` sees them: an optional root and
    a sequence of name elements (`/srv/stubs/sum.py` is rooted with the names
    `srv`, `stubs`, `sum.py`). */
module Paths {

  datatype Path = Path(rooted: bool, names: seq<string>)

  /** `getFileName()` is non-null exactly when the path has a name element. */
  predicate HasFileName(p: Path): (b: bool)
    ensures !b <==> p == Path(p.rooted, [])
  {
    |p.names| > 0
  }

  /** `getFileName()`: the last name element. */
  function FileName(p: Path): (name: string)
    requires HasFileName(p)
    ensures p.names == p.names[..|p.names| - 1] + [name]
  {
    p.names[|p.names| - 1]
  }

  /** `getParent()` is non-null when something is left after dropping the file
      name: another name element, or the root. */
  predicate HasParent(p: Path): (b: bool)
    ensures b <==> HasFileName(p) && (p.rooted || |p.names| > 1)
    ensures !b && HasFileName(p) ==> !p.rooted && |p.names| == 1
  {
    |p.names| >= 2 || (p.rooted && |p.names| == 1)
  }

  /** `getParent()`: the path without its last name element. */
  function Parent(p: Path): (d: Path)
    requires HasParent(p)
    ensures d.rooted == p.rooted && d.names + [FileName(p)] == p.names
    ensures d.rooted || |d.names| > 0
  {
    Path(p.rooted, p.names[..|p.names| - 1])
  }

  /** `dir.resolve(name)` for a single name element. */
  function Resolve(dir: Path, name: string): Path {
    Path(dir.rooted, dir.names + [name])
  }

  /** Going to the parent directory and resolving the file name there gives
      the original path back, and a resolved name is the parent's only child
      in that path. */
  lemma ParentResolveRoundTrip(p: Path)
    requires HasParent(p)
    ensures Resolve(Parent(p), FileName(p)) == p
  {
    assert Parent(p).names + [FileName(p)] == p.names;
  }

  /** Conversely, resolving a name in a directory yields a path whose file
      name is that name and whose parent is that directory. */
  lemma ResolveParentRoundTrip(dir: Path, name: string)
    requires dir.rooted || |dir.names| > 0
    ensures HasParent(Resolve(dir, name))
    ensures Parent(Resolve(dir, name)) == dir && FileName(Resolve(dir, name)) == name
  {
    assert (dir.names + [name])[..|dir.names|] == dir.names;
  }
}
