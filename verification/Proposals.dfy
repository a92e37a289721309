/**
  Change proposals and their entries: what one worker changed (`_collect_changes`) and how
  one entry meets the current file (`_merge_entry`). The operations of the store are in
  `ProposalStore`, the laws of whole runs in `ProposalRuns`.
 */
module Proposals {
  import opened Wrappers
  import opened Paths
  import opened WorkspaceFiles
  import opened LineMerge
  import opened MergeText

  type Id = string

  datatype Operation = Create | Modify

  datatype ChangeEntry = ChangeEntry(path: Path, operation: Operation, base: Option<string>, result: string)

  datatype ProposalStatus = Ready | Invalid | InConflict | IsApplied

  datatype ChangeProposal = ChangeProposal(agent: Id, entries: seq<ChangeEntry>, invalid: seq<string>, status: ProposalStatus)

  datatype ConflictFile = ConflictFile(path: Path, base: string, current: string, worker: string, marked: string)

  datatype ConflictStatus = Open | Stale | Resolved

  /** The observed hashes are modelled by the hashed texts themselves. */
  datatype ConflictSet = ConflictSet(
    proposal: Id,
    observed: seq<(Path, Option<string>)>,
    merged: map<Path, string>,
    conflicts: map<Path, ConflictFile>,
    status: ConflictStatus)

  datatype StoreState = StoreState(
    sandboxes: set<Id>,
    proposals: map<Id, ChangeProposal>,
    conflicts: map<Id, ConflictSet>)

  datatype GitResult = GitText(text: string, conflicted: bool) | GitFailed

  /** The programs and library calls whose insides are not modelled: `difflib`, `git
      merge-file`, `sorted`, and the character tables behind `isalnum` and `int`. */
  datatype Tools = Tools(
    lineEdits: (seq<Line>, seq<Line>) -> seq<Edit>,
    gitMerge: (string, string, string) -> GitResult,
    order: set<Path> -> seq<Path>,
    isAlnum: char -> bool,
    digit: char -> Option<nat>)

  /** `difflib` returns a valid script (the empty one for equal texts); sorting a set of
      paths lists each of them once. */
  ghost predicate Sound(tools: Tools) {
    && (forall a, b :: IsScript(a, b, tools.lineEdits(a, b)))
    && (forall a :: tools.lineEdits(a, a) == [])
    && (forall s, p :: p in tools.order(s) <==> p in s)
    && (forall s, i, j :: 0 <= i < j < |tools.order(s)| ==> tools.order(s)[i] != tools.order(s)[j])
  }

  // ---------------------------------------------------------------------------------
  // Collecting a worker's changes
  // ---------------------------------------------------------------------------------

  /** `_normalize_newlines`: every line ending becomes "\n". */
  function NormalizeAll(raw: string): string {
    if raw == "" then ""
    else if |raw| > 1 && raw[0] == '\r' && raw[1] == '\n' then "\n" + NormalizeAll(raw[2..])
    else [if raw[0] == '\r' then '\n' else raw[0]] + NormalizeAll(raw[1..])
  }

  datatype Collected = Skipped | Rejected(reason: string) | Collected(entry: ChangeEntry)

  function CollectOne(before: Files, after: Files, allowed: seq<Path>, path: Path): Collected {
    if path in before && path !in after then Rejected("deletion is not supported")
    else if path !in after then Skipped
    else if Observe(before, path) == Observe(after, path) then Skipped
    else if !PathAllowed(path, allowed) then Rejected("changed path is outside allowed_paths")
    else if after[path].Undecodable? || (path in before && before[path].Undecodable?) then
      Rejected("binary or non-UTF-8 change is not supported")
    else
      Collected(ChangeEntry(
        path,
        if path in before then Modify else Create,
        if path in before then Some(NormalizeAll(before[path].raw)) else None,
        NormalizeAll(after[path].raw)))
  }

  function CollectEntries(before: Files, after: Files, allowed: seq<Path>, paths: seq<Path>): seq<ChangeEntry> {
    if paths == [] then []
    else
      var rest := CollectEntries(before, after, allowed, paths[..|paths| - 1]);
      var one := CollectOne(before, after, allowed, paths[|paths| - 1]);
      if one.Collected? then rest + [one.entry] else rest
  }

  function CollectReasons(before: Files, after: Files, allowed: seq<Path>, paths: seq<Path>): seq<string> {
    if paths == [] then []
    else
      var rest := CollectReasons(before, after, allowed, paths[..|paths| - 1]);
      var one := CollectOne(before, after, allowed, paths[|paths| - 1]);
      if one.Rejected? then rest + [one.reason] else rest
  }

  method CollectChanges(before: Files, after: Files, allowed: seq<Path>, paths: seq<Path>)
    returns (entries: seq<ChangeEntry>, invalid: seq<string>)
    ensures entries == CollectEntries(before, after, allowed, paths)
    ensures invalid == CollectReasons(before, after, allowed, paths)
  {
    entries, invalid := [], [];
    for i := 0 to |paths|
      invariant entries == CollectEntries(before, after, allowed, paths[..i])
      invariant invalid == CollectReasons(before, after, allowed, paths[..i])
    {
      assert paths[..i + 1][..i] == paths[..i];
      match CollectOne(before, after, allowed, paths[i])
      case Skipped =>
      case Rejected(reason) => invalid := invalid + [reason];
      case Collected(entry) => entries := entries + [entry];
    }
    assert paths[..|paths|] == paths;
  }

  function EntryPaths(entries: seq<ChangeEntry>): set<Path> {
    set e | e in entries :: e.path
  }

  ghost predicate DistinctPaths(entries: seq<ChangeEntry>) {
    forall i, j :: 0 <= i < j < |entries| ==> entries[i].path != entries[j].path
  }

  lemma CollectedPath(before: Files, after: Files, allowed: seq<Path>, path: Path)
    ensures var one := CollectOne(before, after, allowed, path);
            one.Collected? ==> one.entry.path == path && PathAllowed(path, allowed)
  {
  }

  /** The collected entries are exactly the changed, present, allowed, decodable files, each
      once; a reason is recorded exactly when some other file changed or disappeared. */
  lemma {:induction false} CollectExactly(before: Files, after: Files, allowed: seq<Path>, paths: seq<Path>)
    requires forall i, j :: 0 <= i < j < |paths| ==> paths[i] != paths[j]
    ensures
      var entries := CollectEntries(before, after, allowed, paths);
      && DistinctPaths(entries)
      && (forall e :: e in entries ==> e.path in paths && PathAllowed(e.path, allowed))
      && (forall p :: p in EntryPaths(entries) <==> p in paths && CollectOne(before, after, allowed, p).Collected?)
      && (CollectReasons(before, after, allowed, paths) == [] <==>
          forall p :: p in paths ==> !CollectOne(before, after, allowed, p).Rejected?)
  {
    if paths != [] {
      var n := |paths| - 1;
      var init, last := paths[..n], paths[n];
      CollectExactly(before, after, allowed, init);
      assert paths == init + [last];
      var entries := CollectEntries(before, after, allowed, paths);
      var rest := CollectEntries(before, after, allowed, init);
      var one := CollectOne(before, after, allowed, last);
      CollectedPath(before, after, allowed, last);
      hide CollectOne;
      assert last !in init;
      forall p ensures p in EntryPaths(entries) <==> p in paths && CollectOne(before, after, allowed, p).Collected? {
        assert p in EntryPaths(entries) <==> p in EntryPaths(rest) || (one.Collected? && p == last) by {
          if p in EntryPaths(rest) { var e :| e in rest && e.path == p; assert e in entries; }
          if one.Collected? && p == last { assert one.entry in entries; }
        }
      }
    }
  }

  // ---------------------------------------------------------------------------------
  // One entry against the current file
  // ---------------------------------------------------------------------------------

  datatype EntryOutcome = Take(text: string) | Clash(file: ConflictFile) | MergeFailed

  /** The spliced merge of three texts, where the two diffs do not conflict. */
  ghost function DisjointMerge(tools: Tools, base: string, current: string, worker: string): Option<string>
    requires Sound(tools)
  {
    var lines := SplitLines(base);
    var cs, ws := tools.lineEdits(lines, SplitLines(current)), tools.lineEdits(lines, SplitLines(worker));
    if Compatible(cs, ws) then
      InterleaveOrdered(cs, ws, 0, |lines|);
      Some(Join(Apply(lines, Interleave(cs, ws))))
    else None
  }

  function MarkedCreate(current: string, worker: string): string {
    "<<<<<<< MAIN\n" + current + "\n||||||| BASE\n\n=======\n" + worker + "\n>>>>>>> WORKER\n"
  }

  function MarkedDelete(worker: string): string {
    "<<<<<<< MAIN (deleted)\n||||||| BASE\n=======\n" + worker + "\n>>>>>>> WORKER\n"
  }

  function BaseText(entry: ChangeEntry): string {
    if entry.base.Some? then entry.base.value else ""
  }

  ghost function EntryResult(tools: Tools, entry: ChangeEntry, current: Option<string>): EntryOutcome
    requires Sound(tools)
  {
    var base, worker := BaseText(entry), entry.result;
    if entry.operation.Create? then
      if current.None? || current.value == worker then Take(worker)
      else Clash(ConflictFile(entry.path, "", current.value, worker, MarkedCreate(current.value, worker)))
    else if current.None? then Clash(ConflictFile(entry.path, base, "", worker, MarkedDelete(worker)))
    else if current.value == base then Take(worker)
    else if worker == base || current.value == worker then Take(current.value)
    else
      match DisjointMerge(tools, base, current.value, worker)
      case Some(text) => Take(text)
      case None =>
        match tools.gitMerge(current.value, base, worker)
        case GitText(text, conflicted) =>
          if conflicted then Clash(ConflictFile(entry.path, base, current.value, worker, text)) else Take(text)
        case GitFailed => MergeFailed
  }

  /** `_merge_entry` */
  method MergeEntry(tools: Tools, entry: ChangeEntry, current: Option<string>) returns (outcome: EntryOutcome)
    requires Sound(tools)
    ensures outcome == EntryResult(tools, entry, current)
  {
    var base, worker := BaseText(entry), entry.result;
    if entry.operation == Create {
      if current == None || current.value == worker {
        return Take(worker);
      }
      return Clash(ConflictFile(entry.path, "", current.value, worker, MarkedCreate(current.value, worker)));
    }
    if current == None {
      return Clash(ConflictFile(entry.path, base, "", worker, MarkedDelete(worker)));
    }
    if current.value == base {
      return Take(worker);
    }
    if worker == base || current.value == worker {
      return Take(current.value);
    }
    var lines := SplitLines(base);
    var conflict, text := MergeDisjointText(base, current.value, worker,
                                            tools.lineEdits(lines, SplitLines(current.value)),
                                            tools.lineEdits(lines, SplitLines(worker)));
    if !conflict {
      return Take(text);
    }
    match tools.gitMerge(current.value, base, worker)
    case GitFailed => return MergeFailed;
    case GitText(merged, conflicted) =>
      if conflicted {
        return Clash(ConflictFile(entry.path, base, current.value, worker, merged));
      }
      return Take(merged);
  }

  /** The spliced merge does not depend on which side is called current, and gives back the
      other side's text when one side is the base. */
  lemma DisjointMergeLaws(tools: Tools, base: string, current: string, worker: string)
    requires Sound(tools)
    ensures DisjointMerge(tools, base, current, worker) == DisjointMerge(tools, base, worker, current)
    ensures DisjointMerge(tools, base, base, worker) == Some(worker)
    ensures DisjointMerge(tools, base, current, base) == Some(current)
  {
    MergeSymmetric(tools, base, current, worker);
    MergeUnits(tools, base, worker);
    MergeUnits(tools, base, current);
  }

  lemma MergeSymmetric(tools: Tools, base: string, current: string, worker: string)
    requires Sound(tools)
    ensures DisjointMerge(tools, base, current, worker) == DisjointMerge(tools, base, worker, current)
  {
    var lines := SplitLines(base);
    var cs, ws := tools.lineEdits(lines, SplitLines(current)), tools.lineEdits(lines, SplitLines(worker));
    assert Ordered(cs, 0, |lines|) && Ordered(ws, 0, |lines|);
    hide Sound, Ordered, SplitLines, Interleave, EditsConflict, Join, Apply;
    CompatibleSymmetric(cs, ws, |lines|);
    if Compatible(cs, ws) {
      InterleaveSymmetric(cs, ws, 0, |lines|);
    }
  }

  lemma CompatibleSymmetric(cs: seq<Edit>, ws: seq<Edit>, n: int)
    requires Ordered(cs, 0, n) && Ordered(ws, 0, n)
    ensures Compatible(cs, ws) <==> Compatible(ws, cs)
  {
    hide Ordered, EditsConflict;
    forall c, w | c in cs && w in ws ensures EditsConflict(c, w) == EditsConflict(w, c) {
      OrderedTail(cs, 0, n, c);
      OrderedTail(ws, 0, n, w);
      ConflictMeansUnordered(c, w);
    }
  }

  lemma MergeUnits(tools: Tools, base: string, text: string)
    requires Sound(tools)
    ensures DisjointMerge(tools, base, base, text) == Some(text)
    ensures DisjointMerge(tools, base, text, base) == Some(text)
  {
    var lines := SplitLines(base);
    var es := tools.lineEdits(lines, SplitLines(text));
    assert IsScript(lines, SplitLines(text), es) && tools.lineEdits(lines, lines) == [];
    hide Sound, IsScript, SplitLines, Apply, Join;
    assert Apply(lines, es) == SplitLines(text) by { ScriptResult(lines, SplitLines(text), es); }
    JoinSplit(text);
    assert Interleave([], es) == es && Interleave(es, []) == es;
  }

  lemma ScriptResult(base: seq<Line>, result: seq<Line>, edits: seq<Edit>)
    requires IsScript(base, result, edits)
    ensures Ordered(edits, 0, |base|) && Apply(base, edits) == result
  {
  }

  /** A side that did not change the file never loses the other side's change, and swapping
      main and worker changes nothing unless the external merge tool has to decide. A file
      both sides created is taken when the contents agree and clashes otherwise. */
  lemma EntryLaws(tools: Tools, path: Path, base: string, current: string, worker: string)
    requires Sound(tools)
    ensures EntryResult(tools, ChangeEntry(path, Modify, Some(base), worker), Some(base)) == Take(worker)
    ensures EntryResult(tools, ChangeEntry(path, Modify, Some(base), base), Some(current)) == Take(current)
    ensures EntryResult(tools, ChangeEntry(path, Modify, Some(base), worker), Some(worker)) == Take(worker)
    ensures DisjointMerge(tools, base, current, worker).Some? ==>
              EntryResult(tools, ChangeEntry(path, Modify, Some(base), worker), Some(current)) ==
              EntryResult(tools, ChangeEntry(path, Modify, Some(base), current), Some(worker))
    ensures (EntryResult(tools, ChangeEntry(path, Create, None, worker), Some(current)).Clash? <==> current != worker)
    ensures !EntryResult(tools, ChangeEntry(path, Create, None, worker), None).Clash?
  {
    hide Sound, DisjointMerge;
    DisjointMergeLaws(tools, base, current, worker);
  }
}
