/**
  The life of proposals over whole runs: any sequence of finalize, apply, resolve and close
  calls, with edits of the workspace by anyone else in between and any read results.
 */
module ProposalRuns {
  import opened Wrappers
  import opened Paths
  import opened WorkspaceFiles
  import opened Proposals
  import opened ProposalStore

  /** A batch that reached the workspace, on behalf of proposal `pid`. */
  datatype Write = Write(pid: Id, changes: map<Path, string>)

  /** The store and the workspace, with the history the laws speak about: every batch written,
      the entry paths of every proposal ever finalized, every conflict id ever used. */
  datatype System = System(st: StoreState, files: Files, log: seq<Write>, known: map<Id, set<Path>>, used: set<Id>)

  datatype Op =
    | OpSandbox(agent: Id)
    | OpFinalize(pid: Id, agent: Id, before: Files, after: Files, allowed: seq<Path>)
    | OpApply(pid: Id, cid: Id, seen: Path -> Option<FileData>, failAt: nat)
    | OpResolve(cid: Id, resolutions: map<Path, string>, seen: Path -> Option<FileData>, failAt: nat)
    | OpClose(agent: Id, discard: bool)
    | OpExternal(files: Files)

  /** uuid4 ids are new. */
  predicate FreshIds(sys: System, op: Op) {
    match op
    case OpFinalize(pid, _, _, _, _) => pid !in sys.known
    case OpApply(_, cid, _, _) => cid !in sys.used
    case _ => true
  }

  ghost function Next(tools: Tools, sys: System, op: Op): System
    requires Sound(tools)
  {
    match op
    case OpSandbox(agent) => sys.(st := sys.st.(sandboxes := sys.st.sandboxes + {agent}))
    case OpFinalize(pid, agent, before, after, allowed) =>
      var (st, outcome) := FinalizeStep(tools, sys.st, pid, agent, before, after, allowed);
      if outcome.Finalized? then sys.(st := st, known := sys.known[pid := EntryPaths(st.proposals[pid].entries)]) else sys
    case OpApply(pid, cid, seen, failAt) =>
      var r := ApplyStep(tools, sys.st, sys.files, pid, cid, seen, failAt);
      Logged(sys, r, pid).(used := sys.used + {cid})
    case OpResolve(cid, resolutions, seen, failAt) =>
      var r := ResolveStep(tools, sys.st, sys.files, cid, resolutions, seen, failAt);
      Logged(sys, r, if cid in sys.st.conflicts then sys.st.conflicts[cid].proposal else cid)
    case OpClose(agent, discard) => sys.(st := CloseStep(sys.st, agent, discard).0)
    case OpExternal(files) => sys.(files := files)
  }

  ghost function Logged(sys: System, r: StepResult, pid: Id): System {
    System(r.state, r.files, if r.outcome.Applied? then sys.log + [Write(pid, r.outcome.changes)] else sys.log, sys.known, sys.used)
  }

  // ---------------------------------------------------------------------------------
  // The invariant
  // ---------------------------------------------------------------------------------

  predicate OpenFor(st: StoreState, cid: Id, pid: Id) {
    cid in st.conflicts && st.conflicts[cid].status == Open && st.conflicts[cid].proposal == pid
  }

  ghost predicate WrittenFor(log: seq<Write>, pid: Id) {
    exists i :: 0 <= i < |log| && log[i].pid == pid
  }

  ghost predicate ProposalOk(sys: System, pid: Id, p: ChangeProposal) {
    && pid in sys.known && EntryPaths(p.entries) == sys.known[pid] && DistinctPaths(p.entries)
    && (p.status == Invalid <==> p.invalid != [])
    && (p.status == InConflict <==> exists cid :: OpenFor(sys.st, cid, pid))
    && (p.status == IsApplied <==> WrittenFor(sys.log, pid))
  }

  ghost predicate ConflictOk(sys: System, cid: Id, c: ConflictSet) {
    && cid in sys.used && c.proposal in sys.st.proposals
    && c.conflicts != map[] && c.merged.Keys !! c.conflicts.Keys
    && c.merged.Keys + c.conflicts.Keys == EntryPaths(sys.st.proposals[c.proposal].entries)
    && (c.status == Resolved ==> sys.st.proposals[c.proposal].status == IsApplied)
  }

  ghost predicate LogOk(sys: System) {
    && (forall i :: 0 <= i < |sys.log| ==> sys.log[i].pid in sys.known && sys.log[i].changes.Keys == sys.known[sys.log[i].pid])
    && (forall i, j :: 0 <= i < j < |sys.log| ==> sys.log[i].pid != sys.log[j].pid)
  }

  ghost predicate ProposalsOk(sys: System) {
    forall pid :: pid in sys.st.proposals ==> ProposalOk(sys, pid, sys.st.proposals[pid])
  }

  ghost predicate ConflictsOk(sys: System) {
    forall cid :: cid in sys.st.conflicts ==> ConflictOk(sys, cid, sys.st.conflicts[cid])
  }

  ghost predicate OneOpen(st: StoreState) {
    forall c, d, pid :: OpenFor(st, c, pid) && OpenFor(st, d, pid) ==> c == d
  }

  ghost predicate Inv(sys: System) {
    ProposalsOk(sys) && ConflictsOk(sys) && OneOpen(sys.st) && LogOk(sys)
  }

  lemma InvMade(sys: System)
    requires ProposalsOk(sys) && ConflictsOk(sys) && OneOpen(sys.st) && LogOk(sys)
    ensures Inv(sys)
  {
  }

  lemma InvParts(sys: System)
    requires Inv(sys)
    ensures ProposalsOk(sys) && ConflictsOk(sys) && OneOpen(sys.st) && LogOk(sys)
  {
  }

  lemma LogSame(sys: System, sys': System)
    requires LogOk(sys) && sys'.log == sys.log && sys'.known == sys.known
    ensures LogOk(sys')
  {
  }

  // ---------------------------------------------------------------------------------
  // What one plan holds
  // ---------------------------------------------------------------------------------

  /** The merged entries with their results. */
  ghost predicate MergedRight(tools: Tools, entries: seq<ChangeEntry>, seen: Path -> Option<FileData>, merged: map<Path, string>)
    requires Sound(tools)
  {
    forall e :: e in entries && e.path in merged ==>
      EntryResult(tools, e, ReadText(Read(seen(e.path)))) == Take(merged[e.path])
  }

  /** Every path is either merged or in conflict, never both, and its read is on record. */
  ghost predicate KeysOk(plan: Plan, paths: set<Path>)
    requires plan.Plan?
  {
    && plan.merged.Keys + plan.conflicts.Keys == paths && plan.merged.Keys !! plan.conflicts.Keys
    && plan.expected.Keys == paths
  }

  ghost predicate ReadsRight(expected: map<Path, Option<FileData>>, seen: Path -> Option<FileData>) {
    forall p :: p in expected ==> expected[p] == seen(p)
  }

  ghost predicate PlanOk(tools: Tools, entries: seq<ChangeEntry>, seen: Path -> Option<FileData>, plan: Plan)
    requires Sound(tools) && plan.Plan?
  {
    && KeysOk(plan, EntryPaths(entries)) && ReadsRight(plan.expected, seen)
    && MergedRight(tools, entries, seen, plan.merged)
  }

  lemma SnocPaths(init: seq<ChangeEntry>, e: ChangeEntry)
    requires DistinctPaths(init + [e])
    ensures DistinctPaths(init) && EntryPaths(init + [e]) == EntryPaths(init) + {e.path} && e.path !in EntryPaths(init)
  {
    var entries := init + [e];
    assert forall i :: 0 <= i < |init| ==> entries[i] == init[i];
    assert entries[|init|] == e;
    assert forall i :: 0 <= i < |init| ==> entries[i].path != entries[|init|].path;
  }

  lemma MergedMore(tools: Tools, init: seq<ChangeEntry>, e: ChangeEntry, seen: Path -> Option<FileData>, merged: map<Path, string>, text: string)
    requires Sound(tools) && MergedRight(tools, init, seen, merged) && e.path !in EntryPaths(init)
    requires EntryResult(tools, e, ReadText(Read(seen(e.path)))) == Take(text)
    ensures MergedRight(tools, init + [e], seen, merged[e.path := text])
  {
    hide Sound, EntryResult, Read, ReadText;
    var merged' := merged[e.path := text];
    forall d | d in init + [e] && d.path in merged'
      ensures EntryResult(tools, d, ReadText(Read(seen(d.path)))) == Take(merged'[d.path])
    {
      if d in init {
        assert d.path in EntryPaths(init);
      }
    }
  }

  lemma KeysTaken(plan: Plan, paths: set<Path>, path: Path, text: string, read: Option<FileData>)
    requires plan.Plan? && KeysOk(plan, paths) && path !in paths
    ensures KeysOk(plan.(merged := plan.merged[path := text], expected := plan.expected[path := read]), paths + {path})
  {
    assert plan.merged[path := text].Keys == plan.merged.Keys + {path};
    assert path !in plan.conflicts.Keys;
  }

  lemma KeysClashed(plan: Plan, paths: set<Path>, path: Path, file: ConflictFile, read: Option<FileData>)
    requires plan.Plan? && KeysOk(plan, paths) && path !in paths
    ensures KeysOk(plan.(conflicts := plan.conflicts[path := file], expected := plan.expected[path := read]), paths + {path})
  {
    assert plan.conflicts[path := file].Keys == plan.conflicts.Keys + {path};
    assert path !in plan.merged.Keys;
  }

  lemma ReadsMore(expected: map<Path, Option<FileData>>, seen: Path -> Option<FileData>, path: Path)
    requires ReadsRight(expected, seen)
    ensures ReadsRight(expected[path := seen(path)], seen)
  {
  }

  lemma SameMerged(tools: Tools, init: seq<ChangeEntry>, e: ChangeEntry, seen: Path -> Option<FileData>, merged: map<Path, string>)
    requires Sound(tools) && MergedRight(tools, init, seen, merged) && e.path !in merged
    ensures MergedRight(tools, init + [e], seen, merged)
  {
    hide Sound, EntryResult, Read, ReadText;
  }

  lemma PlanStepOk(tools: Tools, init: seq<ChangeEntry>, e: ChangeEntry, seen: Path -> Option<FileData>, plan: Plan)
    requires Sound(tools) && plan.Plan? && PlanOk(tools, init, seen, plan) && DistinctPaths(init + [e])
    requires PlanStep(tools, plan, e, seen).Plan?
    ensures PlanOk(tools, init + [e], seen, PlanStep(tools, plan, e, seen))
  {
    SnocPaths(init, e);
    ReadsMore(plan.expected, seen, e.path);
    hide Sound, EntryResult, Read, ReadText, DistinctPaths, MergedRight, ReadsRight, EntryPaths;
    var paths := EntryPaths(init);
    match EntryResult(tools, e, ReadText(Read(seen(e.path))))
    case Take(text) =>
      KeysTaken(plan, paths, e.path, text, seen(e.path));
      MergedMore(tools, init, e, seen, plan.merged, text);
      hide KeysOk;
    case Clash(file) =>
      assert e.path !in plan.merged;
      KeysClashed(plan, paths, e.path, file, seen(e.path));
      SameMerged(tools, init, e, seen, plan.merged);
      hide KeysOk;
    case MergeFailed =>
  }

  lemma {:induction false} PlanPaths(tools: Tools, entries: seq<ChangeEntry>, seen: Path -> Option<FileData>)
    requires Sound(tools) && DistinctPaths(entries) && PlanFor(tools, entries, seen).Plan?
    ensures PlanOk(tools, entries, seen, PlanFor(tools, entries, seen))
  {
    if entries != [] {
      var init, e := entries[..|entries| - 1], entries[|entries| - 1];
      assert entries == init + [e];
      SnocPaths(init, e);
      PlanPaths(tools, init, seen);
      PlanStepOk(tools, init, e, seen, PlanFor(tools, init, seen));
    }
  }

  /** A successful apply replaces exactly the files of its entries, each by the merge of the
      text that really was there; any other outcome leaves every file alone. */
  lemma ApplyWritesEntries(tools: Tools, st: StoreState, files: Files, pid: Id, cid: Id, seen: Path -> Option<FileData>, failAt: nat)
    requires Sound(tools) && pid in st.proposals && DistinctPaths(st.proposals[pid].entries)
    ensures
      var entries := st.proposals[pid].entries;
      var r := ApplyStep(tools, st, files, pid, cid, seen, failAt);
      && (!r.outcome.Applied? ==> r.files == files)
      && (r.outcome.Applied? ==>
            && r.files == files + AsText(r.outcome.changes)
            && r.outcome.changes.Keys == EntryPaths(entries)
            && forall e :: e in entries ==>
                 EntryResult(tools, e, ReadText(Read(Observe(files, e.path)))) == Take(r.outcome.changes[e.path]))
  {
    var entries := st.proposals[pid].entries;
    var r := ApplyStep(tools, st, files, pid, cid, seen, failAt);
    if r.outcome.Applied? {
      var plan := PlanFor(tools, entries, seen);
      PlanPaths(tools, entries, seen);
      forall e | e in entries
        ensures e.path in plan.merged
        ensures EntryResult(tools, e, ReadText(Read(Observe(files, e.path)))) == Take(plan.merged[e.path])
      {
        assert e.path in EntryPaths(entries);
        assert e.path in plan.merged && e.path in plan.expected;
        assert ExpectedHolds(files, plan.merged, plan.expected);
      }
    }
  }

  // ---------------------------------------------------------------------------------
  // Preservation
  // ---------------------------------------------------------------------------------

  /** Ids in the dictionaries have been handed out before. */
  lemma IdsKnown(sys: System)
    requires Inv(sys)
    ensures forall pid :: pid in sys.st.proposals ==> pid in sys.known
    ensures forall cid :: cid in sys.st.conflicts ==> cid in sys.used && sys.st.conflicts[cid].proposal in sys.st.proposals
    ensures forall pid :: WrittenFor(sys.log, pid) ==> pid in sys.known
  {
    forall pid | pid in sys.st.proposals ensures pid in sys.known {
      assert ProposalOk(sys, pid, sys.st.proposals[pid]);
    }
    forall cid | cid in sys.st.conflicts ensures cid in sys.used && sys.st.conflicts[cid].proposal in sys.st.proposals {
      assert ConflictOk(sys, cid, sys.st.conflicts[cid]);
    }
  }

  lemma AddProposalKeeps(sys: System, pid: Id, p: ChangeProposal)
    requires Inv(sys) && pid !in sys.known && DistinctPaths(p.entries)
    requires p.status == if p.invalid != [] then Invalid else Ready
    ensures Inv(sys.(st := sys.st.(proposals := sys.st.proposals[pid := p]), known := sys.known[pid := EntryPaths(p.entries)]))
  {
    var sys' := sys.(st := sys.st.(proposals := sys.st.proposals[pid := p]), known := sys.known[pid := EntryPaths(p.entries)]);
    IdsKnown(sys);
    assert LogOk(sys');
    assert forall c, q :: OpenFor(sys'.st, c, q) == OpenFor(sys.st, c, q);
    assert forall c :: !OpenFor(sys.st, c, pid);
    AddedProposals(sys, pid, p, sys');
    AddedConflicts(sys, pid, p, sys');
    hide *;
    assert OneOpen(sys'.st) by { OpenSame(sys.st, sys'.st); }
    InvMade(sys');
  }

  lemma OpenSame(st: StoreState, st': StoreState)
    requires OneOpen(st) && forall c, q :: OpenFor(st', c, q) ==> OpenFor(st, c, q)
    ensures OneOpen(st')
  {
    hide OpenFor;
  }

  lemma AddedProposals(sys: System, pid: Id, p: ChangeProposal, sys': System)
    requires ProposalsOk(sys) && DistinctPaths(p.entries) && p.status == if p.invalid != [] then Invalid else Ready
    requires sys'.st.proposals == sys.st.proposals[pid := p] && sys'.known == sys.known[pid := EntryPaths(p.entries)]
    requires pid !in sys.st.proposals && !WrittenFor(sys.log, pid) && sys'.log == sys.log
    requires (forall c, q :: OpenFor(sys'.st, c, q) == OpenFor(sys.st, c, q)) && forall c :: !OpenFor(sys.st, c, pid)
    ensures ProposalsOk(sys')
  {
    hide OpenFor, EntryPaths, WrittenFor, DistinctPaths;
    forall q | q in sys'.st.proposals ensures ProposalOk(sys', q, sys'.st.proposals[q]) {
      if q != pid {
        assert ProposalOk(sys, q, sys.st.proposals[q]);
      }
    }
  }

  lemma AddedConflicts(sys: System, pid: Id, p: ChangeProposal, sys': System)
    requires ConflictsOk(sys) && pid !in sys.st.proposals
    requires sys'.st.proposals == sys.st.proposals[pid := p] && sys'.st.conflicts == sys.st.conflicts && sys'.used == sys.used
    ensures ConflictsOk(sys')
  {
    hide EntryPaths;
    forall c | c in sys'.st.conflicts ensures ConflictOk(sys', c, sys'.st.conflicts[c]) {
      assert ConflictOk(sys, c, sys.st.conflicts[c]);
    }
  }

  /** Replacing one proposal's status. */
  function WithStatus(st: StoreState, pid: Id, status: ProposalStatus): StoreState
    requires pid in st.proposals
  {
    st.(proposals := st.proposals[pid := st.proposals[pid].(status := status)])
  }

  lemma ConflictFoundKeeps(sys: System, pid: Id, cid: Id, c: ConflictSet, sys': System)
    requires Inv(sys) && pid in sys.st.proposals && sys.st.proposals[pid].status == Ready && cid !in sys.used
    requires c.proposal == pid && c.status == Open && c.conflicts != map[] && c.merged.Keys !! c.conflicts.Keys
    requires c.merged.Keys + c.conflicts.Keys == EntryPaths(sys.st.proposals[pid].entries)
    requires sys' == sys.(st := WithStatus(sys.st, pid, InConflict).(conflicts := sys.st.conflicts[cid := c]),
                          used := sys.used + {cid})
    ensures Inv(sys')
  {
    assert ProposalOk(sys, pid, sys.st.proposals[pid]);
    IdsKnown(sys);
    FoundOpens(sys, pid, cid, c, sys');
    NoneOpen(sys, pid);
    FoundConflicts(sys, pid, cid, c, sys');
    assert LogOk(sys');
    hide OpenFor, ProposalOk, ConflictOk, LogOk, EntryPaths;
    assert ProposalsOk(sys') by {
      forall q | q in sys'.st.proposals ensures ProposalOk(sys', q, sys'.st.proposals[q]) {
        FoundProposalOk(sys, pid, cid, sys', q);
      }
    }
    assert OneOpen(sys'.st) by { FoundOneOpen(sys.st, sys'.st, cid, pid); }
    hide *;
    InvMade(sys');
  }

  lemma FoundOneOpen(st: StoreState, st': StoreState, cid: Id, pid: Id)
    requires OneOpen(st) && forall d, q :: OpenFor(st', d, q) <==> OpenFor(st, d, q) || (d == cid && q == pid)
    requires forall d :: !OpenFor(st, d, pid)
    ensures OneOpen(st')
  {
    hide OpenFor;
    forall d, e, q | OpenFor(st', d, q) && OpenFor(st', e, q) ensures d == e {
      assert OpenFor(st, d, q) || (d == cid && q == pid);
      assert OpenFor(st, e, q) || (e == cid && q == pid);
    }
  }

  lemma NoneOpen(sys: System, pid: Id)
    requires pid in sys.st.proposals && ProposalOk(sys, pid, sys.st.proposals[pid]) && sys.st.proposals[pid].status == Ready
    ensures forall d :: !OpenFor(sys.st, d, pid)
  {
  }

  lemma FoundOpens(sys: System, pid: Id, cid: Id, c: ConflictSet, sys': System)
    requires pid in sys.st.proposals && cid !in sys.st.conflicts && c.proposal == pid && c.status == Open
    requires sys'.st == WithStatus(sys.st, pid, InConflict).(conflicts := sys.st.conflicts[cid := c])
    ensures forall d, q :: OpenFor(sys'.st, d, q) <==> OpenFor(sys.st, d, q) || (d == cid && q == pid)
  {
  }

  lemma FoundProposalOk(sys: System, pid: Id, cid: Id, sys': System, q: Id)
    requires pid in sys.st.proposals && q in sys.st.proposals && ProposalOk(sys, q, sys.st.proposals[q])
    requires sys.st.proposals[pid].status == Ready
    requires sys'.st.proposals == WithStatus(sys.st, pid, InConflict).proposals && sys'.known == sys.known && sys'.log == sys.log
    requires forall d, p :: OpenFor(sys'.st, d, p) <==> OpenFor(sys.st, d, p) || (d == cid && p == pid)
    ensures ProposalOk(sys', q, sys'.st.proposals[q])
  {
    hide OpenFor;
    assert q == pid ==> OpenFor(sys'.st, cid, q);
  }

  lemma FoundConflicts(sys: System, pid: Id, cid: Id, c: ConflictSet, sys': System)
    requires ConflictsOk(sys) && pid in sys.st.proposals && sys.st.proposals[pid].status == Ready
    requires c.proposal == pid && c.status == Open && c.conflicts != map[] && c.merged.Keys !! c.conflicts.Keys
    requires c.merged.Keys + c.conflicts.Keys == EntryPaths(sys.st.proposals[pid].entries)
    requires sys'.st == WithStatus(sys.st, pid, InConflict).(conflicts := sys.st.conflicts[cid := c]) && sys'.used == sys.used + {cid}
    ensures ConflictsOk(sys')
  {
    hide EntryPaths;
    forall d | d in sys'.st.conflicts ensures ConflictOk(sys', d, sys'.st.conflicts[d]) {
      if d != cid {
        assert ConflictOk(sys, d, sys.st.conflicts[d]);
      }
    }
  }

  /** A ready proposal's batch reaches the workspace. */
  lemma AppliedKeeps(sys: System, pid: Id, changes: map<Path, string>, files: Files, cid: Id, sys': System)
    requires Inv(sys) && pid in sys.st.proposals && sys.st.proposals[pid].status == Ready
    requires changes.Keys == EntryPaths(sys.st.proposals[pid].entries)
    requires sys' == System(WithStatus(sys.st, pid, IsApplied), files, sys.log + [Write(pid, changes)], sys.known, sys.used + {cid})
    ensures Inv(sys')
  {
    assert ProposalOk(sys, pid, sys.st.proposals[pid]);
    assert forall d, q :: OpenFor(sys'.st, d, q) == OpenFor(sys.st, d, q);
    LogGrows(sys, pid, changes, sys');
    forall q | q in sys'.st.proposals ensures ProposalOk(sys', q, sys'.st.proposals[q]) {
      assert ProposalOk(sys, q, sys.st.proposals[q]);
    }
    forall d | d in sys'.st.conflicts ensures ConflictOk(sys', d, sys'.st.conflicts[d]) {
      assert ConflictOk(sys, d, sys.st.conflicts[d]);
    }
  }

  /** A first batch for `pid` keeps the log's laws, and only `pid` becomes written. */
  lemma LogGrows(sys: System, pid: Id, changes: map<Path, string>, sys': System)
    requires LogOk(sys) && pid in sys.known && changes.Keys == sys.known[pid] && !WrittenFor(sys.log, pid)
    requires sys'.log == sys.log + [Write(pid, changes)] && sys'.known == sys.known
    ensures LogOk(sys')
    ensures forall q :: WrittenFor(sys'.log, q) <==> q == pid || WrittenFor(sys.log, q)
  {
    var n := |sys.log|;
    assert sys'.log[n] == Write(pid, changes);
    assert forall i :: 0 <= i < n ==> sys'.log[i] == sys.log[i];
    forall q ensures WrittenFor(sys'.log, q) <==> q == pid || WrittenFor(sys.log, q) {
      if WrittenFor(sys.log, q) {
        var i :| 0 <= i < n && sys.log[i].pid == q;
        assert sys'.log[i].pid == q;
      }
    }
  }

  /** Closing the open conflict set `cid` as `status`, its proposal moving on. */
  function Settle(st: StoreState, cid: Id, status: ConflictStatus, next: ProposalStatus): StoreState
    requires cid in st.conflicts && st.conflicts[cid].proposal in st.proposals
  {
    WithStatus(st, st.conflicts[cid].proposal, next).(conflicts := st.conflicts[cid := st.conflicts[cid].(status := status)])
  }

  lemma SettledOpenFor(sys: System, cid: Id, status: ConflictStatus, next: ProposalStatus)
    requires Inv(sys) && cid in sys.st.conflicts && sys.st.conflicts[cid].status == Open && status != Open
    requires sys.st.conflicts[cid].proposal in sys.st.proposals
    ensures
      var pid := sys.st.conflicts[cid].proposal;
      var st' := Settle(sys.st, cid, status, next);
      && sys.st.proposals[pid].status == InConflict
      && (forall d, q :: OpenFor(st', d, q) <==> OpenFor(sys.st, d, q) && d != cid)
      && (forall d :: !OpenFor(st', d, pid)) && OpenFor(sys.st, cid, pid)
  {
    var pid := sys.st.conflicts[cid].proposal;
    assert OpenFor(sys.st, cid, pid);
    assert ProposalOk(sys, pid, sys.st.proposals[pid]);
  }

  lemma StaleKeeps(sys: System, cid: Id)
    requires Inv(sys) && cid in sys.st.conflicts && sys.st.conflicts[cid].status == Open
    requires sys.st.conflicts[cid].proposal in sys.st.proposals
    ensures Inv(sys.(st := Settle(sys.st, cid, Stale, Ready)))
  {
    var sys' := sys.(st := Settle(sys.st, cid, Stale, Ready));
    hide *;
    InvParts(sys);
    SettledOpenFor(sys, cid, Stale, Ready);
    StaleProposals(sys, cid, sys');
    StaleConflicts(sys, cid, sys');
    LogSame(sys, sys');
    assert OneOpen(sys'.st) by { OpenSame(sys.st, sys'.st); }
    InvMade(sys');
  }

  lemma StaleProposals(sys: System, cid: Id, sys': System)
    requires ProposalsOk(sys) && cid in sys.st.conflicts && sys.st.conflicts[cid].proposal in sys.st.proposals
    requires sys' == sys.(st := Settle(sys.st, cid, Stale, Ready))
    requires sys.st.proposals[sys.st.conflicts[cid].proposal].status == InConflict
    requires forall d, q :: OpenFor(sys'.st, d, q) <==> OpenFor(sys.st, d, q) && d != cid
    requires forall d :: !OpenFor(sys'.st, d, sys.st.conflicts[cid].proposal)
    requires OpenFor(sys.st, cid, sys.st.conflicts[cid].proposal)
    ensures ProposalsOk(sys')
  {
    hide EntryPaths, WrittenFor, DistinctPaths;
    var pid := sys.st.conflicts[cid].proposal;
    forall q | q in sys'.st.proposals ensures ProposalOk(sys', q, sys'.st.proposals[q]) {
      assert ProposalOk(sys, q, sys.st.proposals[q]);
      assert q != pid ==> forall d :: OpenFor(sys'.st, d, q) == OpenFor(sys.st, d, q);
    }
  }

  lemma StaleConflicts(sys: System, cid: Id, sys': System)
    requires ConflictsOk(sys) && cid in sys.st.conflicts && sys.st.conflicts[cid].proposal in sys.st.proposals
    requires sys' == sys.(st := Settle(sys.st, cid, Stale, Ready))
    requires sys.st.proposals[sys.st.conflicts[cid].proposal].status == InConflict
    ensures ConflictsOk(sys')
  {
    hide EntryPaths;
    forall d | d in sys'.st.conflicts ensures ConflictOk(sys', d, sys'.st.conflicts[d]) {
      assert ConflictOk(sys, d, sys.st.conflicts[d]);
    }
  }

  lemma ResolvedKeeps(sys: System, cid: Id, changes: map<Path, string>, files: Files, sys': System)
    requires Inv(sys) && cid in sys.st.conflicts && sys.st.conflicts[cid].status == Open
    requires sys.st.conflicts[cid].proposal in sys.st.proposals
    requires changes.Keys == EntryPaths(sys.st.proposals[sys.st.conflicts[cid].proposal].entries)
    requires sys' == System(Settle(sys.st, cid, Resolved, IsApplied), files,
                            sys.log + [Write(sys.st.conflicts[cid].proposal, changes)], sys.known, sys.used)
    ensures Inv(sys')
  {
    var pid := sys.st.conflicts[cid].proposal;
    SettledOpenFor(sys, cid, Resolved, IsApplied);
    assert ProposalOk(sys, pid, sys.st.proposals[pid]);
    LogGrows(sys, pid, changes, sys');
    forall q | q in sys'.st.proposals ensures ProposalOk(sys', q, sys'.st.proposals[q]) {
      assert ProposalOk(sys, q, sys.st.proposals[q]);
      assert q != pid ==> forall d :: OpenFor(sys'.st, d, q) == OpenFor(sys.st, d, q);
    }
    forall d | d in sys'.st.conflicts ensures ConflictOk(sys', d, sys'.st.conflicts[d]) {
      assert ConflictOk(sys, d, sys.st.conflicts[d]);
    }
  }

  lemma CloseKeeps(sys: System, agent: Id, discard: bool)
    requires Inv(sys)
    ensures Inv(sys.(st := CloseStep(sys.st, agent, discard).0))
  {
    var sys' := sys.(st := CloseStep(sys.st, agent, discard).0);
    if CloseStep(sys.st, agent, discard).1.Closed? {
      forall q | q in sys'.st.proposals ensures ProposalOk(sys', q, sys'.st.proposals[q]) {
        assert ProposalOk(sys, q, sys.st.proposals[q]);
        assert forall c :: OpenFor(sys'.st, c, q) == OpenFor(sys.st, c, q);
      }
      forall c | c in sys'.st.conflicts ensures ConflictOk(sys', c, sys'.st.conflicts[c]) {
        assert ConflictOk(sys, c, sys.st.conflicts[c]);
      }
      assert forall c, q :: OpenFor(sys'.st, c, q) ==> OpenFor(sys.st, c, q);
    }
  }

  lemma ApplyKeeps(tools: Tools, sys: System, op: Op)
    requires Sound(tools) && Inv(sys) && op.OpApply? && FreshIds(sys, op)
    ensures Inv(Next(tools, sys, op))
  {
    var pid, cid := op.pid, op.cid;
    var sys' := Next(tools, sys, op);
    if pid in sys.st.proposals && sys.st.proposals[pid].status == Ready {
      assert ProposalOk(sys, pid, sys.st.proposals[pid]);
      var plan := PlanFor(tools, sys.st.proposals[pid].entries, op.seen);
      if plan.Plan? {
        PlanPaths(tools, sys.st.proposals[pid].entries, op.seen);
        if plan.conflicts != map[] {
          var c := ConflictSet(pid, plan.observed, plan.merged, plan.conflicts, Open);
          ConflictFoundKeeps(sys, pid, cid, c, sys');
        } else if sys'.log != sys.log {
          AppliedKeeps(sys, pid, plan.merged, sys.files + AsText(plan.merged), cid, sys');
        } else {
          UsedGrows(sys, cid);
        }
      } else {
        UsedGrows(sys, cid);
      }
    } else {
      UsedGrows(sys, cid);
    }
  }

  lemma UsedGrows(sys: System, cid: Id)
    requires Inv(sys)
    ensures Inv(sys.(used := sys.used + {cid}))
  {
    var sys' := sys.(used := sys.used + {cid});
    forall q | q in sys'.st.proposals ensures ProposalOk(sys', q, sys'.st.proposals[q]) {
      assert ProposalOk(sys, q, sys.st.proposals[q]);
    }
    forall d | d in sys'.st.conflicts ensures ConflictOk(sys', d, sys'.st.conflicts[d]) {
      assert ConflictOk(sys, d, sys.st.conflicts[d]);
    }
  }

  /** The three ways a resolve can end: nothing, the conflict went stale, or it was settled. */
  lemma ResolveCases(tools: Tools, st: StoreState, files: Files, cid: Id, resolutions: map<Path, string>,
                     seen: Path -> Option<FileData>, failAt: nat)
    requires cid in st.conflicts ==> st.conflicts[cid].proposal in st.proposals
    ensures
      var r := ResolveStep(tools, st, files, cid, resolutions, seen, failAt);
      match r.outcome
      case WentStale(_) =>
        cid in st.conflicts && st.conflicts[cid].status == Open && r == StepResult(Settle(st, cid, Stale, Ready), files, r.outcome)
      case Applied(changes) =>
        && cid in st.conflicts && st.conflicts[cid].status == Open && resolutions.Keys == st.conflicts[cid].conflicts.Keys
        && changes == st.conflicts[cid].merged + resolutions
        && r == StepResult(Settle(st, cid, Resolved, IsApplied), files + AsText(changes), r.outcome)
      case _ => r.state == st && r.files == files
  {
  }

  lemma ResolveKeeps(tools: Tools, sys: System, op: Op)
    requires Sound(tools) && Inv(sys) && op.OpResolve?
    ensures Inv(Next(tools, sys, op))
  {
    IdsKnown(sys);
    ResolveCases(tools, sys.st, sys.files, op.cid, op.resolutions, op.seen, op.failAt);
    ResolveResultKeeps(sys, op, ResolveStep(tools, sys.st, sys.files, op.cid, op.resolutions, op.seen, op.failAt), Next(tools, sys, op));
  }

  lemma ResolveResultKeeps(sys: System, op: Op, r: StepResult, sys': System)
    requires Inv(sys) && op.OpResolve?
    requires sys' == Logged(sys, r, if op.cid in sys.st.conflicts then sys.st.conflicts[op.cid].proposal else op.cid)
    requires op.cid in sys.st.conflicts ==> sys.st.conflicts[op.cid].proposal in sys.st.proposals
    requires
      match r.outcome
      case WentStale(_) =>
        op.cid in sys.st.conflicts && sys.st.conflicts[op.cid].status == Open &&
        r == StepResult(Settle(sys.st, op.cid, Stale, Ready), sys.files, r.outcome)
      case Applied(changes) =>
        && op.cid in sys.st.conflicts && sys.st.conflicts[op.cid].status == Open
        && op.resolutions.Keys == sys.st.conflicts[op.cid].conflicts.Keys
        && changes == sys.st.conflicts[op.cid].merged + op.resolutions
        && r == StepResult(Settle(sys.st, op.cid, Resolved, IsApplied), sys.files + AsText(changes), r.outcome)
      case _ => r.state == sys.st && r.files == sys.files
    ensures Inv(sys')
  {
    if r.outcome.WentStale? {
      StaleKeeps(sys, op.cid);
    } else if r.outcome.Applied? {
      var c := sys.st.conflicts[op.cid];
      assert ConflictOk(sys, op.cid, c);
      assert (c.merged + op.resolutions).Keys == c.merged.Keys + c.conflicts.Keys;
      ResolvedKeeps(sys, op.cid, r.outcome.changes, r.files, sys');
    }
  }

  lemma OthersKeep(sys: System, st: StoreState, files: Files)
    requires Inv(sys) && st.proposals == sys.st.proposals && st.conflicts == sys.st.conflicts
    ensures Inv(sys.(st := st, files := files))
  {
    var sys' := sys.(st := st, files := files);
    forall q | q in sys'.st.proposals ensures ProposalOk(sys', q, sys'.st.proposals[q]) {
      assert ProposalOk(sys, q, sys.st.proposals[q]);
      assert forall c :: OpenFor(sys'.st, c, q) == OpenFor(sys.st, c, q);
    }
    forall d | d in sys'.st.conflicts ensures ConflictOk(sys', d, sys'.st.conflicts[d]) {
      assert ConflictOk(sys, d, sys.st.conflicts[d]);
    }
    assert forall c, q :: OpenFor(sys'.st, c, q) == OpenFor(sys.st, c, q);
  }

  lemma NextKeeps(tools: Tools, sys: System, op: Op)
    requires Sound(tools) && Inv(sys) && FreshIds(sys, op)
    ensures Inv(Next(tools, sys, op))
  {
    match op
    case OpSandbox(agent) => OthersKeep(sys, Next(tools, sys, op).st, sys.files);
    case OpFinalize(pid, agent, before, after, allowed) =>
      if agent in sys.st.sandboxes {
        CollectExactly(before, after, allowed, tools.order(before.Keys + after.Keys));
        AddProposalKeeps(sys, pid, FinalizeStep(tools, sys.st, pid, agent, before, after, allowed).0.proposals[pid]);
      }
    case OpApply(_, _, _, _) => ApplyKeeps(tools, sys, op);
    case OpResolve(_, _, _, _) => ResolveKeeps(tools, sys, op);
    case OpClose(agent, discard) => CloseKeeps(sys, agent, discard);
    case OpExternal(files) => OthersKeep(sys, sys.st, files);
  }

  // ---------------------------------------------------------------------------------
  // Whole runs
  // ---------------------------------------------------------------------------------

  ghost function Run(tools: Tools, sys: System, ops: seq<Op>): System
    requires Sound(tools)
    decreases ops
  {
    if ops == [] then sys else Run(tools, Next(tools, sys, ops[0]), ops[1..])
  }

  ghost predicate AlwaysFresh(tools: Tools, sys: System, ops: seq<Op>)
    requires Sound(tools)
    decreases ops
  {
    ops != [] ==> FreshIds(sys, ops[0]) && AlwaysFresh(tools, Next(tools, sys, ops[0]), ops[1..])
  }

  lemma {:induction false} RunKeeps(tools: Tools, sys: System, ops: seq<Op>)
    requires Sound(tools) && Inv(sys) && AlwaysFresh(tools, sys, ops)
    ensures Inv(Run(tools, sys, ops))
    decreases ops
  {
    if ops != [] {
      NextKeeps(tools, sys, ops[0]);
      RunKeeps(tools, Next(tools, sys, ops[0]), ops[1..]);
    }
  }

  function Empty(files: Files): System {
    System(StoreState({}, map[], map[]), files, [], map[], {})
  }

  /** Over every run from an empty store: a proposal is in conflict exactly when one open
      conflict set names it, and then only one does; every batch that reached the workspace
      wrote precisely the entry paths of its proposal; and no proposal was written twice. */
  lemma Lifecycle(tools: Tools, files: Files, ops: seq<Op>)
    requires Sound(tools) && AlwaysFresh(tools, Empty(files), ops)
    ensures
      var sys := Run(tools, Empty(files), ops);
      && (forall pid :: pid in sys.st.proposals ==>
            (sys.st.proposals[pid].status == InConflict <==> exists cid :: OpenFor(sys.st, cid, pid)))
      && (forall c, d, pid :: OpenFor(sys.st, c, pid) && OpenFor(sys.st, d, pid) ==> c == d)
      && (forall cid :: cid in sys.st.conflicts ==> sys.st.conflicts[cid].proposal in sys.st.proposals)
      && (forall i :: 0 <= i < |sys.log| ==> sys.log[i].pid in sys.known && sys.log[i].changes.Keys == sys.known[sys.log[i].pid])
      && (forall i, j :: 0 <= i < j < |sys.log| ==> sys.log[i].pid != sys.log[j].pid)
      && (forall pid :: pid in sys.st.proposals ==> (sys.st.proposals[pid].status == IsApplied <==> WrittenFor(sys.log, pid)))
  {
    RunKeeps(tools, Empty(files), ops);
    var sys := Run(tools, Empty(files), ops);
    IdsKnown(sys);
    forall pid | pid in sys.st.proposals
      ensures sys.st.proposals[pid].status == InConflict <==> exists cid :: OpenFor(sys.st, cid, pid)
      ensures sys.st.proposals[pid].status == IsApplied <==> WrittenFor(sys.log, pid)
    {
      assert ProposalOk(sys, pid, sys.st.proposals[pid]);
    }
  }

  /** The workspace changes only through a logged batch or an edit by someone else. */
  lemma OnlyLoggedWrites(tools: Tools, sys: System, op: Op)
    requires Sound(tools) && Inv(sys) && !op.OpExternal?
    ensures
      var sys' := Next(tools, sys, op);
      || (sys'.files == sys.files && sys'.log == sys.log)
      || exists w :: sys'.log == sys.log + [w] && sys'.files == sys.files + AsText(w.changes)
  {
    IdsKnown(sys);
    if op.OpApply? {
      var r := ApplyStep(tools, sys.st, sys.files, op.pid, op.cid, op.seen, op.failAt);
      ApplyCases(tools, sys.st, sys.files, op.pid, op.cid, op.seen, op.failAt);
      LoggedOne(sys, r, op.pid);
    } else if op.OpResolve? {
      var r := ResolveStep(tools, sys.st, sys.files, op.cid, op.resolutions, op.seen, op.failAt);
      ResolveCases(tools, sys.st, sys.files, op.cid, op.resolutions, op.seen, op.failAt);
      LoggedOne(sys, r, if op.cid in sys.st.conflicts then sys.st.conflicts[op.cid].proposal else op.cid);
    }
  }

  lemma ApplyCases(tools: Tools, st: StoreState, files: Files, pid: Id, cid: Id, seen: Path -> Option<FileData>, failAt: nat)
    requires Sound(tools)
    ensures
      var r := ApplyStep(tools, st, files, pid, cid, seen, failAt);
      r.files == if r.outcome.Applied? then files + AsText(r.outcome.changes) else files
  {
  }

  lemma LoggedOne(sys: System, r: StepResult, pid: Id)
    requires r.files == if r.outcome.Applied? then sys.files + AsText(r.outcome.changes) else sys.files
    ensures
      var sys' := Logged(sys, r, pid);
      || (sys'.files == sys.files && sys'.log == sys.log)
      || exists w :: sys'.log == sys.log + [w] && sys'.files == sys.files + AsText(w.changes)
  {
    if r.outcome.Applied? {
      var w := Write(pid, r.outcome.changes);
      assert Logged(sys, r, pid).log == sys.log + [w];
    }
  }
}
