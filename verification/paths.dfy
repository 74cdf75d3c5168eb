/** File-system paths as `std::path::Path` sees them: an absolute flag and the
    sequence of components after the root. */
module Paths {
  import opened Wrappers

  datatype Path = Path(absolute: bool, components: seq<string>)

  /** `Path::parent`: the path without its last component; `None` for a path
      with no component left ("/" and ""). A bare relative name such as
      "foo.toml" has the empty relative path as its parent. */
  function Parent(p: Path): (r: Option<Path>)
    ensures r.None? <==> p.components == []
    ensures r.Some? ==> r.value.absolute == p.absolute
    ensures r.Some? ==> r.value.components + [p.components[|p.components| - 1]] == p.components
  {
    if p.components == [] then None
    else Some(Path(p.absolute, p.components[..|p.components| - 1]))
  }

  /** `Path::join` with a relative path given by its components. */
  function Join(p: Path, relative: seq<string>): (r: Path)
    ensures r.absolute == p.absolute
    ensures |r.components| == |p.components| + |relative|
    ensures r.components[..|p.components|] == p.components
    ensures r.components[|p.components|..] == relative
  {
    Path(p.absolute, p.components + relative)
  }

  /** The directory `k` steps above `p`: `p` itself for `k == 0`, the root (or
      the empty relative path) for `k == |p.components|`. */
  function Ancestor(p: Path, k: nat): (r: Path)
    requires k <= |p.components|
    ensures r.absolute == p.absolute && |r.components| == |p.components| - k
    ensures r.components == p.components[..|p.components| - k]
  {
    Path(p.absolute, p.components[..|p.components| - k])
  }

  /** Taking the parent of an ancestor is stepping one ancestor further up,
      and only the topmost ancestor has no parent. */
  lemma ParentOfAncestor(p: Path, k: nat)
    requires k <= |p.components|
    ensures k < |p.components| ==> Parent(Ancestor(p, k)) == Some(Ancestor(p, k + 1))
    ensures k == |p.components| <==> Parent(Ancestor(p, k)).None?
  {
    if k < |p.components| {
      var a := Ancestor(p, k);
      assert a.components[..|a.components| - 1] == p.components[..|p.components| - (k + 1)];
    }
  }
}
