/**
  The shared workspace as a map from paths to file contents, and the batched write that
  checks every expected version first and rolls back when a write fails.
 */
module WorkspaceFiles {
  import opened Wrappers
  import opened Paths

  /** File bytes: decodable text, or bytes no UTF-8 text has (told apart by `id`). */
  datatype FileData = Text(raw: string) | Undecodable(id: nat)

  type Files = map<Path, FileData>

  function Observe(files: Files, path: Path): Option<FileData> {
    if path in files then Some(files[path]) else None
  }

  /** `replace("\r\n", "\n")` */
  function NormalizeNewlines(raw: string): string {
    if raw == "" then ""
    else if |raw| > 1 && raw[0] == '\r' && raw[1] == '\n' then "\n" + NormalizeNewlines(raw[2..])
    else [raw[0]] + NormalizeNewlines(raw[1..])
  }

  function AsText(changes: map<Path, string>): Files {
    map path | path in changes :: Text(changes[path])
  }

  datatype WriteOutcome = Written | VersionConflict | WriteRefused

  /** Every path to be written still holds the version the caller computed from. */
  predicate ExpectedHolds(files: Files, changes: map<Path, string>, expected: map<Path, Option<FileData>>) {
    forall path :: path in changes && path in expected ==> Observe(files, path) == expected[path]
  }

  /** `write_text_batch`: nothing to do, a version conflict, a refused write, or all of it. */
  function BatchOutcome(files: Files, changes: map<Path, string>, expected: map<Path, Option<FileData>>, refused: bool): WriteOutcome {
    if changes == map[] then Written
    else if !ExpectedHolds(files, changes, expected) then VersionConflict
    else if refused then WriteRefused
    else Written
  }

  class Workspace {
    var files: Files

    constructor (files: Files)
      ensures this.files == files
    {
      this.files := files;
    }

    /** `ordered` is the lock order; the write of `ordered[failAt]` raises, if there is one. */
    method WriteTextBatch(changes: map<Path, string>, expected: map<Path, Option<FileData>>, ordered: seq<Path>, failAt: nat)
      returns (outcome: WriteOutcome)
      requires forall path :: path in ordered <==> path in changes
      modifies this
      ensures outcome == BatchOutcome(old(files), changes, expected, failAt < |ordered|)
      ensures files == if outcome.Written? then old(files) + AsText(changes) else old(files)
    {
      if |changes| == 0 {
        return Written;
      }
      var current := CheckVersions(changes, expected, ordered);
      if !current {
        return VersionConflict;
      }
      var originals := files;
      var i := 0;
      while i < |ordered| && i < failAt
        invariant 0 <= i <= |ordered| && i <= failAt
        invariant forall p :: Observe(files, p) == Observe(PartlyWritten(originals, changes, ordered[..i]), p)
      {
        var path := ordered[i];
        assert ordered[..i + 1] == ordered[..i] + [path];
        ghost var before := files;
        files := files[path := Text(changes[path])];
        forall p ensures Observe(files, p) == Observe(PartlyWritten(originals, changes, ordered[..i + 1]), p) {
          assert Observe(before, p) == Observe(PartlyWritten(originals, changes, ordered[..i]), p);
          assert p in ordered[..i + 1] <==> p in ordered[..i] || p == path;
        }
        i := i + 1;
      }
      if i < |ordered| {
        RollBack(originals, ordered);
        return WriteRefused;
      }
      assert ordered[..i] == ordered;
      SameFiles(files, originals + AsText(changes));
      return Written;
    }

    /** Taking the write locks: each compares the file with the version that was read. */
    method CheckVersions(changes: map<Path, string>, expected: map<Path, Option<FileData>>, ordered: seq<Path>)
      returns (current: bool)
      requires forall path :: path in ordered <==> path in changes
      ensures current == ExpectedHolds(files, changes, expected)
    {
      for i := 0 to |ordered|
        invariant forall k :: 0 <= k < i ==> ordered[k] in expected ==> Observe(files, ordered[k]) == expected[ordered[k]]
      {
        var path := ordered[i];
        if path in expected && Observe(files, path) != expected[path] {
          assert path in changes;
          return false;
        }
      }
      forall path | path in changes && path in expected ensures Observe(files, path) == expected[path] {
        assert path in ordered;
      }
      return true;
    }

    /** Puts every file of the batch back, last path first. */
    method RollBack(originals: Files, ordered: seq<Path>)
      requires forall p :: p !in ordered ==> Observe(files, p) == Observe(originals, p)
      modifies this
      ensures files == originals
    {
      var i := |ordered|;
      while i > 0
        invariant 0 <= i <= |ordered|
        invariant forall p :: p !in ordered[..i] ==> Observe(files, p) == Observe(originals, p)
      {
        i := i - 1;
        var path := ordered[i];
        assert ordered[..i + 1] == ordered[..i] + [path];
        if path in originals {
          files := files[path := originals[path]];
        } else {
          files := files - {path};
        }
        assert Observe(files, path) == Observe(originals, path);
      }
      SameFiles(files, originals);
    }
  }

  /** The files once the paths in `written` hold their new contents. */
  ghost function PartlyWritten(originals: Files, changes: map<Path, string>, written: seq<Path>): Files {
    originals + map path | path in changes && path in written :: Text(changes[path])
  }

  lemma SameFiles(left: Files, right: Files)
    requires forall p :: Observe(left, p) == Observe(right, p)
    ensures left == right
  {
    forall p ensures p in left <==> p in right {
      assert Observe(left, p) == Observe(right, p);
    }
    forall p | p in left ensures left[p] == right[p] {
      assert Observe(left, p) == Observe(right, p);
    }
  }
}
