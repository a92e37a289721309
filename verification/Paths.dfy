/**
  Workspace-relative paths as their component lists, and the two path tests that ownership
  rests on: `_path_allowed` and `_paths_overlap`.
 */
module Paths {
  import opened Wrappers

  /** `Path(...).parts` of a relative path; the workspace root itself is []. */
  type Path = seq<string>

  datatype RawPath = RawPath(absolute: bool, parts: Path)

  /** `_normalize_rel`: absolute paths and paths that climb are refused. */
  function NormalizeRel(raw: RawPath): (r: Result<Path, string>)
    ensures r.Ok? <==> !raw.absolute && ".." !in raw.parts
    ensures r.Ok? ==> r.value == raw.parts
  {
    if raw.absolute || ".." in raw.parts then Err("path must be workspace-relative") else Ok(raw.parts)
  }

  /** `_path_allowed`: the candidate is one of the allowed paths or lies below one. */
  function PathAllowed(candidate: Path, allowed: seq<Path>): (r: bool)
    ensures r <==> exists root :: root in allowed && root <= candidate
  {
    if allowed == [] then false
    else
      assert forall root :: root in allowed <==> root == allowed[0] || root in allowed[1..];
      if allowed[0] <= candidate then
        assert allowed[0] in allowed;
        true
      else
        PathAllowed(candidate, allowed[1..])
  }

  function PathsOverlap(left: Path, right: Path): bool {
    PathAllowed(left, [right]) || PathAllowed(right, [left])
  }

  /** The overlap test is exact: it answers yes precisely when some path is allowed under
      both roots. */
  lemma OverlapMeansSharedPath(left: Path, right: Path)
    ensures PathsOverlap(left, right) <==> exists p: Path :: PathAllowed(p, [left]) && PathAllowed(p, [right])
    ensures PathsOverlap(left, right) == PathsOverlap(right, left)
  {
    assert left in [left] && right in [right];
    if PathsOverlap(left, right) {
      var p := if right <= left then left else right;
      assert PathAllowed(p, [left]) && PathAllowed(p, [right]);
    }
    forall p: Path | PathAllowed(p, [left]) && PathAllowed(p, [right]) ensures PathsOverlap(left, right) {
      PrefixesOfOne(left, right, p);
    }
  }

  /** Two prefixes of one path are prefixes of each other. */
  lemma PrefixesOfOne(left: Path, right: Path, p: Path)
    requires left <= p && right <= p
    ensures left <= right || right <= left
  {
    if |left| <= |right| {
      assert right[..|left|] == p[..|left|] == left;
    } else {
      assert left[..|right|] == p[..|right|] == right;
    }
  }

  /** A path allowed under two lists of roots exposes an overlapping pair of roots. */
  lemma SharedPathOverlaps(lefts: seq<Path>, rights: seq<Path>, p: Path)
    requires PathAllowed(p, lefts) && PathAllowed(p, rights)
    ensures exists l, r :: l in lefts && r in rights && PathsOverlap(l, r)
  {
    var l :| l in lefts && l <= p;
    var r :| r in rights && r <= p;
    PrefixesOfOne(l, r, p);
    assert l in [l] && r in [r];
    assert PathsOverlap(l, r);
  }
}
