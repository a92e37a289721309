/**
  What each operation of the proposal store answers, for all inputs and in terms of what its
  caller sees: which texts an entry is made of, when entries clash and with what, when an
  apply or a resolve writes, and what stays.
 */
module StoreLaws {
  import opened Wrappers
  import opened Paths
  import opened WorkspaceFiles
  import opened LineMerge
  import opened MergeText
  import opened Proposals
  import opened ProposalStore

  // ---------------------------------------------------------------------------------
  // Line endings
  // ---------------------------------------------------------------------------------

  predicate PairAt(raw: string, k: nat) {
    k + 1 < |raw| && raw[k] == '\r' && raw[k + 1] == '\n'
  }

  /** Normalising a collected text leaves no carriage return, and nothing else changes. */
  lemma {:induction false} NormalizeAllExactly(raw: string)
    ensures '\r' !in NormalizeAll(raw)
    ensures '\r' !in raw ==> NormalizeAll(raw) == raw
    ensures |raw| > 0 && raw[0] != '\r' ==> NormalizeAll(raw) == [raw[0]] + NormalizeAll(raw[1..])
    ensures |raw| > 0 && raw[0] == '\r' ==> NormalizeAll(raw) == "\n" + NormalizeAll(raw[if PairAt(raw, 0) then 2 else 1..])
    decreases |raw|
  {
    if raw != "" {
      NormalizeAllExactly(raw[1..]);
      assert raw == [raw[0]] + raw[1..];
      if PairAt(raw, 0) {
        NormalizeAllExactly(raw[2..]);
      }
    }
  }

  /** Normalising a current file replaces pairs only: a lone carriage return stays. */
  lemma {:induction false} NormalizeNewlinesExactly(raw: string)
    ensures (forall k: nat :: !PairAt(raw, k)) ==> NormalizeNewlines(raw) == raw
    ensures PairAt(raw, 0) ==> NormalizeNewlines(raw) == "\n" + NormalizeNewlines(raw[2..])
    ensures |raw| > 0 && !PairAt(raw, 0) ==> NormalizeNewlines(raw) == [raw[0]] + NormalizeNewlines(raw[1..])
    decreases |raw|
  {
    if raw != "" {
      NormalizeNewlinesExactly(raw[1..]);
      assert raw == [raw[0]] + raw[1..];
      if forall k: nat :: !PairAt(raw, k) {
        forall k: nat ensures !PairAt(raw[1..], k) {
          assert PairAt(raw[1..], k) ==> PairAt(raw, k + 1);
        }
        assert !PairAt(raw, 0);
      }
    }
  }

  // ---------------------------------------------------------------------------------
  // Collecting
  // ---------------------------------------------------------------------------------

  /** The file is there and decodable, or not there at all. */
  predicate Decodable(files: Files, path: Path) {
    path in files ==> files[path].Text?
  }

  /** A changed file is collected exactly when it is still there, allowed, and decodable on
      both sides: with the old text as base and the new one as result. Every other change is
      rejected, and nothing else is. */
  lemma CollectOneExactly(before: Files, after: Files, allowed: seq<Path>, path: Path)
    ensures
      var one := CollectOne(before, after, allowed, path);
      var changed := Observe(before, path) != Observe(after, path);
      && (one.Collected? <==> changed && path in after && PathAllowed(path, allowed) && Decodable(before, path) && Decodable(after, path))
      && (one.Rejected? <==> changed && !one.Collected?)
      && (one.Collected? ==>
            && one.entry.path == path && one.entry.result == NormalizeAll(after[path].raw)
            && (one.entry.operation == Modify <==> path in before)
            && one.entry.base == if path in before then Some(NormalizeAll(before[path].raw)) else None)
  {
    hide NormalizeAll, PathAllowed;
  }

  /** A finalised proposal is the agent's own, is ready or invalid by its reasons, and
      disturbs no other; without a sandbox nothing happens. */
  lemma FinalizeExactly(tools: Tools, st: StoreState, pid: Id, agent: Id, before: Files, after: Files, allowed: seq<Path>)
    requires Sound(tools)
    ensures
      var (st', outcome) := FinalizeStep(tools, st, pid, agent, before, after, allowed);
      && (outcome == UnknownId <==> agent !in st.sandboxes) && (outcome != UnknownId <==> outcome == Finalized)
      && (outcome == UnknownId ==> st' == st)
      && (outcome == Finalized ==>
            && pid in st'.proposals && st'.proposals[pid].agent == agent
            && st'.sandboxes == st.sandboxes && st'.conflicts == st.conflicts && st'.proposals - {pid} == st.proposals - {pid}
            && (forall p, e :: e in st'.proposals[pid].entries && e.path == p ==>
                  CollectOne(before, after, allowed, p) == Collected.Collected(e))
            && (forall p :: CollectOne(before, after, allowed, p).Collected? ==> p in EntryPaths(st'.proposals[pid].entries))
            && (st'.proposals[pid].status == Ready <==> forall p :: !CollectOne(before, after, allowed, p).Rejected?)
            && (st'.proposals[pid].status == Invalid <==> st'.proposals[pid].status != Ready))
  {
    var paths := tools.order(before.Keys + after.Keys);
    CollectExactly(before, after, allowed, paths);
    forall p ensures (CollectOne(before, after, allowed, p).Collected? || CollectOne(before, after, allowed, p).Rejected?) ==> p in paths {
      CollectOneExactly(before, after, allowed, p);
      assert p in paths <==> p in before.Keys + after.Keys;
    }
    forall e | e in CollectEntries(before, after, allowed, paths)
      ensures CollectOne(before, after, allowed, e.path) == Collected.Collected(e)
    {
      EntryCollected(before, after, allowed, paths, e);
    }
    hide CollectOne, CollectEntries, CollectReasons, Sound, DistinctPaths;
  }

  lemma {:induction false} EntryCollected(before: Files, after: Files, allowed: seq<Path>, paths: seq<Path>, e: ChangeEntry)
    requires e in CollectEntries(before, after, allowed, paths)
    ensures CollectOne(before, after, allowed, e.path) == Collected.Collected(e)
    decreases |paths|
  {
    var (init, last) := (paths[..|paths| - 1], paths[|paths| - 1]);
    CollectedPath(before, after, allowed, last);
    hide CollectOne;
    if e in CollectEntries(before, after, allowed, init) {
      EntryCollected(before, after, allowed, init, e);
    }
  }

  // ---------------------------------------------------------------------------------
  // One entry
  // ---------------------------------------------------------------------------------

  /** Both sides changed the file, differently, and some of their edits conflict. */
  ghost predicate Contested(tools: Tools, base: string, current: string, worker: string)
  {
    && current != base && worker != base && current != worker
    && exists c, w ::
         && c in tools.lineEdits(SplitLines(base), SplitLines(current))
         && w in tools.lineEdits(SplitLines(base), SplitLines(worker))
         && EditsConflict(c, w)
  }

  lemma ContestedExactly(tools: Tools, base: string, current: string, worker: string)
    requires Sound(tools)
    ensures Contested(tools, base, current, worker) <==>
            current != base && worker != base && current != worker && DisjointMerge(tools, base, current, worker).None?
  {
    hide Sound, SplitLines, EditsConflict, Apply, Interleave, Join;
  }

  /** A modified file that is there: where both sides changed it and their edits conflict, the
      merge tool decides, asked with current, base and worker in these roles, and its answer
      is a clash that holds all three and the marked text, a text, or a failure. Everywhere
      else there is a text. */
  lemma ModifyExactly(tools: Tools, path: Path, base: string, current: string, worker: string)
    requires Sound(tools)
    ensures
      var r := EntryResult(tools, ChangeEntry(path, Modify, Some(base), worker), Some(current));
      if Contested(tools, base, current, worker) then
        match tools.gitMerge(current, base, worker)
        case GitFailed => r == MergeFailed
        case GitText(text, true) => r == Clash(ConflictFile(path, base, current, worker, text))
        case GitText(text, false) => r == Take(text)
      else
        && r.Take? && (current == base ==> r.text == worker) && (worker == base || current == worker ==> r.text == current)
        && (current != base && worker != base && current != worker ==> DisjointMerge(tools, base, current, worker) == Some(r.text))
  {
    ContestedExactly(tools, base, current, worker);
    hide Sound, DisjointMerge, Contested;
  }

  /** A modified file that is gone clashes, a created one that is gone does not; a created
      file that is there clashes with a different one. The clash shows both sides. */
  lemma CreateExactly(tools: Tools, path: Path, base: Option<string>, current: string, worker: string)
    requires Sound(tools)
    ensures
      && EntryResult(tools, ChangeEntry(path, Create, base, worker), None) == Take(worker)
      && EntryResult(tools, ChangeEntry(path, Create, base, worker), Some(worker)) == Take(worker)
      && (current != worker ==>
            EntryResult(tools, ChangeEntry(path, Create, base, worker), Some(current)) ==
            Clash(ConflictFile(path, "", current, worker,
                               "<<<<<<< MAIN\n" + current + "\n||||||| BASE\n\n=======\n" + worker + "\n>>>>>>> WORKER\n")))
      && EntryResult(tools, ChangeEntry(path, Modify, base, worker), None) ==
         Clash(ConflictFile(path, if base.Some? then base.value else "", "", worker,
                            "<<<<<<< MAIN (deleted)\n||||||| BASE\n=======\n" + worker + "\n>>>>>>> WORKER\n"))
  {
    hide Sound, DisjointMerge;
  }

  // ---------------------------------------------------------------------------------
  // Applying
  // ---------------------------------------------------------------------------------

  ghost function Outcome(tools: Tools, e: ChangeEntry, seen: Path -> Option<FileData>): EntryOutcome
    requires Sound(tools)
  {
    EntryResult(tools, e, ReadText(Read(seen(e.path))))
  }

  ghost predicate Fails(tools: Tools, e: ChangeEntry, seen: Path -> Option<FileData>)
    requires Sound(tools)
  {
    Read(seen(e.path)).Unreadable? || Outcome(tools, e, seen).MergeFailed?
  }

  /** A plan fails exactly when one of its entries does; else it holds each entry's own
      outcome, and what was read for it, in the order of the entries. */
  lemma {:induction false} PlanExactly(tools: Tools, entries: seq<ChangeEntry>, seen: Path -> Option<FileData>)
    requires Sound(tools) && DistinctPaths(entries)
    ensures
      var plan := PlanFor(tools, entries, seen);
      && (plan.PlanFailed? <==> exists e :: e in entries && Fails(tools, e, seen))
      && (plan.Plan? ==>
            && plan.merged.Keys + plan.conflicts.Keys == EntryPaths(entries)
            && (forall e :: e in entries ==> Planned(plan, e, Outcome(tools, e, seen)))
            && |plan.observed| == |entries|
            && forall i :: 0 <= i < |entries| ==> plan.observed[i] == (entries[i].path, ReadText(Read(seen(entries[i].path)))))
    decreases |entries|
  {
    if entries != [] {
      var (init, e) := (entries[..|entries| - 1], entries[|entries| - 1]);
      assert entries == init + [e];
      LastIsNew(init, e);
      PlanExactly(tools, init, seen);
      var (plan, next) := (PlanFor(tools, init, seen), PlanFor(tools, entries, seen));
      FailsLast(tools, init, e, seen);
      assert next == if plan.PlanFailed? || Read(seen(e.path)).Unreadable? then PlanFailed else PlanStep(tools, plan, e, seen);
      if next.Plan? {
        hide Sound, Read, EntryResult, PlanFor, DistinctPaths;
        PlannedLast(tools, init, e, seen, plan);
      }
    }
  }

  predicate Planned(plan: Plan, e: ChangeEntry, outcome: EntryOutcome)
    requires plan.Plan?
  {
    match outcome
    case Take(text) => e.path in plan.merged && plan.merged[e.path] == text && e.path !in plan.conflicts
    case Clash(file) => e.path in plan.conflicts && plan.conflicts[e.path] == file && e.path !in plan.merged
    case MergeFailed => false
  }

  lemma LastIsNew(init: seq<ChangeEntry>, e: ChangeEntry)
    requires DistinctPaths(init + [e])
    ensures DistinctPaths(init) && EntryPaths(init + [e]) == EntryPaths(init) + {e.path} && e.path !in EntryPaths(init)
    ensures forall d :: d in init + [e] <==> d in init || d == e
  {
    var entries := init + [e];
    assert forall i :: 0 <= i < |init| ==> entries[i] == init[i];
    assert entries[|init|] == e;
  }

  lemma FailsLast(tools: Tools, init: seq<ChangeEntry>, e: ChangeEntry, seen: Path -> Option<FileData>)
    requires Sound(tools)
    ensures (exists d :: d in init + [e] && Fails(tools, d, seen)) <==> (exists d :: d in init && Fails(tools, d, seen)) || Fails(tools, e, seen)
  {
    hide Sound, Fails;
    if d :| d in init && Fails(tools, d, seen) {
      assert d in init + [e];
    }
    if Fails(tools, e, seen) {
      assert e in init + [e];
    }
  }

  lemma PlannedLast(tools: Tools, init: seq<ChangeEntry>, e: ChangeEntry, seen: Path -> Option<FileData>, plan: Plan)
    requires Sound(tools) && plan.Plan? && PlanStep(tools, plan, e, seen).Plan?
    requires plan.merged.Keys + plan.conflicts.Keys == EntryPaths(init) && e.path !in EntryPaths(init)
    requires forall d :: d in init ==> Planned(plan, d, Outcome(tools, d, seen))
    ensures
      var next := PlanStep(tools, plan, e, seen);
      && Planned(next, e, Outcome(tools, e, seen)) && (forall d :: d in init ==> Planned(next, d, Outcome(tools, d, seen)))
      && next.merged.Keys + next.conflicts.Keys == EntryPaths(init) + {e.path}
      && next.observed == plan.observed + [(e.path, ReadText(Read(seen(e.path))))]
  {
    hide Sound, EntryResult, Read, ReadText;
    var next := PlanStep(tools, plan, e, seen);
    assert e.path !in plan.merged.Keys && e.path !in plan.conflicts.Keys;
    forall d | d in init ensures Planned(next, d, Outcome(tools, d, seen)) {
      assert d.path in EntryPaths(init);
    }
  }

  /** What a conflict remembers of the apply that found it. */
  ghost predicate RecordsConflict(tools: Tools, c: ConflictSet, pid: Id, entries: seq<ChangeEntry>, seen: Path -> Option<FileData>)
    requires Sound(tools)
  {
    && c.proposal == pid && c.status == Open && |c.observed| == |entries|
    && (forall i :: 0 <= i < |entries| ==> c.observed[i] == (entries[i].path, ReadText(Read(seen(entries[i].path)))))
    && (forall e :: e in entries ==>
          match Outcome(tools, e, seen)
          case Take(text) => e.path in c.merged && c.merged[e.path] == text && e.path !in c.conflicts
          case Clash(file) => e.path in c.conflicts && c.conflicts[e.path] == file && e.path !in c.merged
          case MergeFailed => false)
  }

  lemma PlanConflicts(tools: Tools, entries: seq<ChangeEntry>, seen: Path -> Option<FileData>, plan: Plan)
    requires Sound(tools) && plan.Plan? && plan.merged.Keys + plan.conflicts.Keys == EntryPaths(entries)
    requires forall e :: e in entries ==> Planned(plan, e, Outcome(tools, e, seen))
    ensures plan.conflicts != map[] <==> exists e :: e in entries && Outcome(tools, e, seen).Clash?
    ensures plan.conflicts == map[] ==> plan.merged.Keys == EntryPaths(entries)
  {
    hide Sound, Outcome;
    if plan.conflicts != map[] {
      var p :| p in plan.conflicts.Keys;
      assert p in EntryPaths(entries);
      var e :| e in entries && e.path == p;
      assert Planned(plan, e, Outcome(tools, e, seen));
    }
  }

  /** The apply found a conflict: nothing is written, and the conflict is on record. */
  ghost predicate FindsConflict(tools: Tools, st: StoreState, files: Files, pid: Id, cid: Id, seen: Path -> Option<FileData>, r: StepResult)
    requires Sound(tools) && pid in st.proposals
  {
    var entries := st.proposals[pid].entries;
    && r.files == files && r.outcome.FoundConflict? && cid in r.state.conflicts
    && r.state.proposals == st.proposals[pid := st.proposals[pid].(status := InConflict)]
    && r.state.conflicts - {cid} == st.conflicts - {cid} && r.state.sandboxes == st.sandboxes
    && RecordsConflict(tools, r.state.conflicts[cid], pid, entries, seen)
    && (forall e :: e in entries ==> (e.path in r.outcome.paths <==> Outcome(tools, e, seen).Clash?))
  }

  /** The apply came to writing: every entry's merge was written, or nothing. */
  ghost predicate WritesMerges(tools: Tools, st: StoreState, files: Files, pid: Id, seen: Path -> Option<FileData>, r: StepResult)
    requires Sound(tools) && pid in st.proposals
  {
    var entries := st.proposals[pid].entries;
    && (r.outcome.Applied? || r.outcome.NotWritten?)
    && (r.outcome.NotWritten? ==> r.state == st && r.files == files)
    && (r.outcome.Applied? ==>
          && r.state == st.(proposals := st.proposals[pid := st.proposals[pid].(status := IsApplied)])
          && r.files == files + AsText(r.outcome.changes) && r.outcome.changes.Keys == EntryPaths(entries)
          && forall e :: e in entries ==> Outcome(tools, e, seen) == Take(r.outcome.changes[e.path]))
  }

  lemma ApplyFinds(tools: Tools, st: StoreState, files: Files, pid: Id, cid: Id, seen: Path -> Option<FileData>, failAt: nat, plan: Plan)
    requires Sound(tools) && pid in st.proposals && st.proposals[pid].status == Ready
    requires plan == PlanFor(tools, st.proposals[pid].entries, seen) && plan.Plan? && plan.conflicts != map[]
    requires var entries := st.proposals[pid].entries;
             && (forall e :: e in entries ==> Planned(plan, e, Outcome(tools, e, seen))) && |plan.observed| == |entries|
             && forall i :: 0 <= i < |entries| ==> plan.observed[i] == (entries[i].path, ReadText(Read(seen(entries[i].path))))
    ensures FindsConflict(tools, st, files, pid, cid, seen, ApplyStep(tools, st, files, pid, cid, seen, failAt))
  {
    hide Sound, EntryResult, Read, ReadText, PlanFor, BatchOutcome, Outcome;
    var entries := st.proposals[pid].entries;
    var c := ConflictSet(pid, plan.observed, plan.merged, plan.conflicts, Open);
    forall e | e in entries ensures Planned(plan, e, Outcome(tools, e, seen)) {
    }
    assert RecordsConflict(tools, c, pid, entries, seen);
  }

  lemma ApplyWrites(tools: Tools, st: StoreState, files: Files, pid: Id, cid: Id, seen: Path -> Option<FileData>, failAt: nat, plan: Plan)
    requires Sound(tools) && pid in st.proposals && st.proposals[pid].status == Ready
    requires plan == PlanFor(tools, st.proposals[pid].entries, seen) && plan.Plan? && plan.conflicts == map[]
    requires plan.merged.Keys == EntryPaths(st.proposals[pid].entries)
    requires forall e :: e in st.proposals[pid].entries ==> Planned(plan, e, Outcome(tools, e, seen))
    ensures WritesMerges(tools, st, files, pid, seen, ApplyStep(tools, st, files, pid, cid, seen, failAt))
  {
    hide Sound, EntryResult, Read, ReadText, PlanFor, BatchOutcome, Outcome;
    forall e | e in st.proposals[pid].entries ensures Outcome(tools, e, seen) == Take(plan.merged[e.path]) {
      assert Planned(plan, e, Outcome(tools, e, seen));
    }
  }

  /** Applying a ready proposal: a failing entry stops it without effect; else a clashing one
      makes it a conflict that records every read, merge and clash, and writes nothing; else
      the merged texts are written, if every file is still as it was read. */
  lemma ApplyExactly(tools: Tools, st: StoreState, files: Files, pid: Id, cid: Id, seen: Path -> Option<FileData>, failAt: nat)
    requires Sound(tools) && pid in st.proposals && st.proposals[pid].status == Ready && DistinctPaths(st.proposals[pid].entries)
    ensures
      var entries := st.proposals[pid].entries;
      var r := ApplyStep(tools, st, files, pid, cid, seen, failAt);
      if exists e :: e in entries && Fails(tools, e, seen) then r == StepResult(st, files, ReadFailed)
      else if exists e :: e in entries && Outcome(tools, e, seen).Clash? then FindsConflict(tools, st, files, pid, cid, seen, r)
      else WritesMerges(tools, st, files, pid, seen, r)
  {
    var entries := st.proposals[pid].entries;
    PlanExactly(tools, entries, seen);
    var plan := PlanFor(tools, entries, seen);
    if plan.Plan? {
      PlanConflicts(tools, entries, seen, plan);
      hide *;
      if plan.conflicts != map[] {
        ApplyFinds(tools, st, files, pid, cid, seen, failAt, plan);
      } else {
        ApplyWrites(tools, st, files, pid, cid, seen, failAt, plan);
      }
    } else {
      hide Sound, EntryResult, Read, DistinctPaths, PlanFor, BatchOutcome;
    }
  }

  /** One entry that the merge tool cannot merge keeps the whole proposal from being written. */
  lemma ContestedStopsApply(tools: Tools, st: StoreState, files: Files, pid: Id, cid: Id, seen: Path -> Option<FileData>, failAt: nat,
                            e: ChangeEntry, base: string, marked: string)
    requires Sound(tools) && pid in st.proposals && st.proposals[pid].status == Ready && DistinctPaths(st.proposals[pid].entries)
    requires e in st.proposals[pid].entries && e.operation == Modify && e.base == Some(base)
    requires var current := ReadText(Read(seen(e.path)));
             && current.Some? && Contested(tools, base, current.value, e.result)
             && tools.gitMerge(current.value, base, e.result) == GitText(marked, true)
    ensures
      var r := ApplyStep(tools, st, files, pid, cid, seen, failAt);
      && r.files == files && (r.outcome == ReadFailed || r.outcome.FoundConflict?)
      && (r.outcome.FoundConflict? ==>
            && e.path in r.outcome.paths && cid in r.state.conflicts && e.path in r.state.conflicts[cid].conflicts
            && r.state.conflicts[cid].conflicts[e.path] ==
               ConflictFile(e.path, base, ReadText(Read(seen(e.path))).value, e.result, marked))
  {
    var current := ReadText(Read(seen(e.path))).value;
    ModifyExactly(tools, e.path, base, current, e.result);
    assert e == ChangeEntry(e.path, Modify, Some(base), e.result);
    ApplyExactly(tools, st, files, pid, cid, seen, failAt);
    assert Outcome(tools, e, seen).Clash?;
    hide Sound, EntryResult, Read, ReadText, DistinctPaths, ApplyStep, Contested;
  }

  /** A ready proposal whose entries all merge is written, when its files are still as they
      were read and no write is refused. */
  lemma ApplySucceeds(tools: Tools, st: StoreState, files: Files, pid: Id, cid: Id, failAt: nat)
    requires Sound(tools) && pid in st.proposals && st.proposals[pid].status == Ready && DistinctPaths(st.proposals[pid].entries)
    requires forall e :: e in st.proposals[pid].entries ==>
               !Fails(tools, e, path => Observe(files, path)) && Outcome(tools, e, path => Observe(files, path)).Take?
    requires failAt >= |tools.order(EntryPaths(st.proposals[pid].entries))|
    ensures ApplyStep(tools, st, files, pid, cid, path => Observe(files, path), failAt).outcome.Applied?
  {
    var (entries, seen) := (st.proposals[pid].entries, (path: Path) => Observe(files, path));
    PlanExactly(tools, entries, seen);
    var plan := PlanFor(tools, entries, seen);
    PlanConflicts(tools, entries, seen, plan);
    ExpectedSeen(tools, entries, seen);
    hide Sound, EntryResult, Read, DistinctPaths, PlanFor;
  }

  lemma {:induction false} ExpectedSeen(tools: Tools, entries: seq<ChangeEntry>, seen: Path -> Option<FileData>)
    requires Sound(tools)
    ensures PlanFor(tools, entries, seen).Plan? ==>
              forall p :: p in PlanFor(tools, entries, seen).expected ==> PlanFor(tools, entries, seen).expected[p] == seen(p)
    decreases |entries|
  {
    if entries != [] {
      ExpectedSeen(tools, entries[..|entries| - 1], seen);
      hide Sound, EntryResult, Read;
    }
  }

  // ---------------------------------------------------------------------------------
  // Resolving
  // ---------------------------------------------------------------------------------

  /** The read gives the text that was observed. */
  predicate Unmoved(observed: (Path, Option<string>), seen: Path -> Option<FileData>) {
    !Read(seen(observed.0)).Unreadable? && ReadText(Read(seen(observed.0))) == observed.1
  }

  /** The check passes exactly when every observed file reads as it did; else it names the
      first one that does not, or says that this one cannot be read. */
  lemma {:induction false} CheckObservedExactly(observed: seq<(Path, Option<string>)>, seen: Path -> Option<FileData>)
    ensures
      var s := CheckObserved(observed, seen);
      && (s == Current <==> forall i :: 0 <= i < |observed| ==> Unmoved(observed[i], seen))
      && (s != Current ==> exists i ::
            && 0 <= i < |observed| && !Unmoved(observed[i], seen) && (forall j :: 0 <= j < i ==> Unmoved(observed[j], seen))
            && s == if Read(seen(observed[i].0)).Unreadable? then CannotRead else Changed(observed[i].0))
    decreases |observed|
  {
    if observed != [] {
      CheckObservedExactly(observed[1..], seen);
      hide Read, ReadText;
      assert forall i :: 0 < i < |observed| ==> observed[i] == observed[1..][i - 1];
      var s := CheckObserved(observed, seen);
      if Unmoved(observed[0], seen) {
        assert s == CheckObserved(observed[1..], seen);
        if s != Current {
          var i :| 0 <= i < |observed[1..]| && !Unmoved(observed[1..][i], seen) && (forall j :: 0 <= j < i ==> Unmoved(observed[1..][j], seen))
            && s == if Read(seen(observed[1..][i].0)).Unreadable? then CannotRead else Changed(observed[1..][i].0);
          assert !Unmoved(observed[i + 1], seen);
          assert forall j :: 0 <= j < i + 1 ==> Unmoved(observed[j], seen);
        }
      }
    }
  }

  /** Refusals come first and have no effect: an unknown or decided proposal is not applied,
      and an unknown or settled conflict, or one given other paths than its own, is not
      resolved. */
  lemma RefusalsExactly(tools: Tools, st: StoreState, files: Files, pid: Id, cid: Id, resolutions: map<Path, string>,
                        seen: Path -> Option<FileData>, failAt: nat)
    requires Sound(tools)
    ensures
      var (a, r) := (ApplyStep(tools, st, files, pid, cid, seen, failAt), ResolveStep(tools, st, files, cid, resolutions, seen, failAt));
      var open := cid in st.conflicts && st.conflicts[cid].status == Open && resolutions.Keys == st.conflicts[cid].conflicts.Keys;
      && (a.outcome in {UnknownId, WrongStatus} <==> !(pid in st.proposals && st.proposals[pid].status == Ready))
      && (a.outcome in {UnknownId, WrongStatus} ==> a == StepResult(st, files, if pid in st.proposals then WrongStatus else UnknownId))
      && (!open ==>
            r == StepResult(st, files, if cid !in st.conflicts then UnknownId else if st.conflicts[cid].status != Open then WrongStatus else WrongPaths))
      && (open && st.conflicts[cid].proposal in st.proposals ==> r.outcome !in {UnknownId, WrongStatus, WrongPaths})
  {
    hide Sound, PlanFor, CheckObserved, BatchOutcome, AsText, ExpectedFor;
  }

  /** Resolving an open conflict with a text for each of its files: when some observed file
      reads differently, the first of them makes it stale and the proposal ready again; when
      all read as before, the merges and the given texts are written together. */
  lemma ResolveExactly(tools: Tools, st: StoreState, files: Files, cid: Id, resolutions: map<Path, string>,
                       seen: Path -> Option<FileData>, failAt: nat)
    requires cid in st.conflicts && st.conflicts[cid].status == Open && resolutions.Keys == st.conflicts[cid].conflicts.Keys
    requires st.conflicts[cid].proposal in st.proposals
    ensures
      var c := st.conflicts[cid];
      var r := ResolveStep(tools, st, files, cid, resolutions, seen, failAt);
      var unmoved := forall i :: 0 <= i < |c.observed| ==> Unmoved(c.observed[i], seen);
      && (!unmoved ==> r.files == files && (r.outcome.WentStale? || r == StepResult(st, files, ReadFailed)))
      && (r.outcome.WentStale? ==>
            && !unmoved && r.state.conflicts == st.conflicts[cid := c.(status := Stale)]
            && r.state.proposals == st.proposals[c.proposal := st.proposals[c.proposal].(status := Ready)])
      && (unmoved ==> r.outcome.Applied? || (r.outcome.NotWritten? && r.state == st && r.files == files))
      && (r.outcome.Applied? ==>
            && unmoved && r.outcome.changes == c.merged + resolutions && r.files == files + AsText(c.merged + resolutions)
            && r.state.conflicts == st.conflicts[cid := c.(status := Resolved)]
            && r.state.proposals == st.proposals[c.proposal := st.proposals[c.proposal].(status := IsApplied)])
      && (unmoved && failAt >= |tools.order((c.merged + resolutions).Keys)| && (forall p :: seen(p) == Observe(files, p)) ==>
            r.outcome.Applied?)
  {
    CheckObservedExactly(st.conflicts[cid].observed, seen);
    hide Unmoved, Read;
  }

  // ---------------------------------------------------------------------------------
  // Closing
  // ---------------------------------------------------------------------------------

  /** Closing an agent is refused exactly for an undecided proposal that is not discarded; it
      takes the agent's sandbox, its proposals and their conflicts, and nothing else. */
  lemma CloseExactly(st: StoreState, agent: Id, discard: bool)
    ensures
      var (st', outcome) := CloseStep(st, agent, discard);
      && (outcome == Pending <==>
            !discard && exists pid :: pid in st.proposals && st.proposals[pid].agent == agent && st.proposals[pid].status in {Ready, InConflict})
      && (outcome == Pending ==> st' == st) && (outcome != Pending ==> outcome == Closed)
      && (outcome == Closed ==>
            && st'.sandboxes == st.sandboxes - {agent}
            && (forall pid :: pid in st'.proposals <==> pid in st.proposals && st.proposals[pid].agent != agent)
            && (forall pid :: pid in st'.proposals ==> st'.proposals[pid] == st.proposals[pid])
            && (forall cid :: cid in st'.conflicts ==> cid in st.conflicts && st'.conflicts[cid] == st.conflicts[cid])
            && (forall cid :: cid in st.conflicts ==>
                  var pid := st.conflicts[cid].proposal;
                  (cid in st'.conflicts <==> !(pid in st.proposals && st.proposals[pid].agent == agent))))
  {
  }
}
