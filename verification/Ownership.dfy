/**
  Ownership over whole runs, and what it implies: two open workers' proposals share no path,
  and applying them in either order gives the same workspace and the same outcomes.
 */
module Ownership {
  import opened Wrappers
  import opened Paths
  import opened WorkspaceFiles
  import opened Proposals
  import opened ProposalStore
  import opened ProposalRuns
  import opened Coordinator
  import opened FiniteSets

  // ---------------------------------------------------------------------------------
  // Ownership is kept
  // ---------------------------------------------------------------------------------

  lemma OverlapSymmetric(lefts: seq<Path>, rights: seq<Path>)
    ensures ListsOverlap(lefts, rights) == ListsOverlap(rights, lefts)
  {
    forall l, r ensures PathsOverlap(l, r) == PathsOverlap(r, l) {
      OverlapMeansSharedPath(l, r);
    }
  }

  lemma SpawnKeeps(tools: Tools, capacity: nat, st: CoordState, id: Id, req: SpawnRequest)
    requires CoordInv(capacity, st) && id !in st.records
    ensures CoordInv(capacity, SpawnStep(tools, capacity, st, id, req).0)
  {
    hide CheckRequest;
    var st' := SpawnStep(tools, capacity, st, id, req).0;
    if st' != st {
      AddedKeeps(capacity, st, id, st'.records[id]);
    }
  }

  lemma AddedKeeps(capacity: nat, st: CoordState, id: Id, record: AgentRecord)
    requires CoordInv(capacity, st) && id !in st.records && |st.records| < capacity && record.name !in st.names
    requires record.role == Worker ==> !OwnershipClash(st.records, record.allowed)
    ensures CoordInv(capacity, st.(records := st.records[id := record], names := st.names[record.name := id]))
  {
    hide ListsOverlap;
    forall j | j in st.records && st.records[j].role == Worker {
      OverlapSymmetric(record.allowed, st.records[j].allowed);
    }
    assert forall name :: name in st.names ==> st.names[name] != id;
    assert |st.records[id := record]| == |st.records| + 1;
  }

  lemma CloseAgentKeeps(capacity: nat, st: CoordState, store: StoreState, key: string, discard: bool, fault: CloseFault)
    requires CoordInv(capacity, st)
    ensures CoordInv(capacity, CloseAgentStep(st, store, key, discard, fault).0)
  {
    if CanClose(st, key) {
      WithoutRecordKeeps(capacity, st, Resolve(st, key));
    }
  }

  lemma WithoutRecordKeeps(capacity: nat, st: CoordState, id: Id)
    requires CoordInv(capacity, st) && id in st.records
    ensures CoordInv(capacity, WithoutRecord(st, id))
  {
    var st' := WithoutRecord(st, id);
    assert |st'.records.Keys| <= |st.records.Keys| by { SubsetSize(st'.records.Keys, st.records.Keys); }
    assert forall name :: name in st'.names ==> st.names[name] != id;
  }

  /** Steps that keep every proposal's agent and entries, or drop the proposal. */
  ghost predicate KeepsEntries(st: StoreState, st': StoreState) {
    forall pid :: pid in st'.proposals ==>
      pid in st.proposals && st'.proposals[pid].agent == st.proposals[pid].agent && st'.proposals[pid].entries == st.proposals[pid].entries
  }

  lemma ApplyKeepsEntries(tools: Tools, st: StoreState, files: Files, pid: Id, cid: Id, seen: Path -> Option<FileData>, failAt: nat)
    requires Sound(tools)
    ensures KeepsEntries(st, ApplyStep(tools, st, files, pid, cid, seen, failAt).state)
  {
    hide Sound, PlanFor, BatchOutcome, ExpectedHolds;
  }

  lemma ResolveKeepsEntries(tools: Tools, st: StoreState, files: Files, cid: Id, resolutions: map<Path, string>,
                            seen: Path -> Option<FileData>, failAt: nat)
    requires cid in st.conflicts ==> st.conflicts[cid].proposal in st.proposals
    ensures KeepsEntries(st, ResolveStep(tools, st, files, cid, resolutions, seen, failAt).state)
  {
    ResolveCases(tools, st, files, cid, resolutions, seen, failAt);
  }

  lemma StoreCallKeepsEntries(tools: Tools, sys: System, op: Op)
    requires Sound(tools) && StoreCall(op)
    requires forall cid :: cid in sys.st.conflicts ==> sys.st.conflicts[cid].proposal in sys.st.proposals
    ensures KeepsEntries(sys.st, Next(tools, sys, op).st)
  {
    match op
    case OpResolve(cid, resolutions, seen, failAt) =>
      ResolveKeepsEntries(tools, sys.st, sys.files, cid, resolutions, seen, failAt);
      assert Next(tools, sys, op).st == ResolveStep(tools, sys.st, sys.files, cid, resolutions, seen, failAt).state;
    case OpApply(pid, cid, seen, failAt) =>
      ApplyKeepsEntries(tools, sys.st, sys.files, pid, cid, seen, failAt);
      assert Next(tools, sys, op).st == ApplyStep(tools, sys.st, sys.files, pid, cid, seen, failAt).state;
    case OpSandbox(_) =>
    case OpExternal(_) =>
    case OpFinalize(_, _, _, _, _) =>
    case OpClose(_, _) =>
  }

  ghost predicate ProposedBy(p: ChangeProposal, agent: Id, allowed: seq<Path>) {
    p.agent == agent && forall e :: e in p.entries ==> PathAllowed(e.path, allowed)
  }

  lemma FinalizeAllowed(tools: Tools, sys: System, pid: Id, agent: Id, before: Files, after: Files, allowed: seq<Path>)
    requires Sound(tools) && pid !in sys.st.proposals
    ensures
      var sys' := Next(tools, sys, OpFinalize(pid, agent, before, after, allowed));
      && (pid in sys'.st.proposals ==> ProposedBy(sys'.st.proposals[pid], agent, allowed))
      && KeepsEntries(sys.st, sys'.st.(proposals := sys'.st.proposals - {pid}))
  {
    if agent in sys.st.sandboxes {
      CollectExactly(before, after, allowed, tools.order(before.Keys + after.Keys));
    }
  }

  lemma TeamFinalizeKeeps(tools: Tools, capacity: nat, team: Team, pid: Id, id: Id, before: Files, after: Files)
    requires Sound(tools) && Inv(team.sys) && TeamInv(capacity, team) && pid !in team.sys.known
    requires id in team.coord.records && team.coord.records[id].role == Worker
    ensures
      var sys' := Next(tools, team.sys, OpFinalize(pid, id, before, after, team.coord.records[id].allowed));
      Inv(sys') && TeamInv(capacity, team.(sys := sys'))
  {
    var allowed := team.coord.records[id].allowed;
    var op := OpFinalize(pid, id, before, after, allowed);
    IdsKnown(team.sys);
    NextKeeps(tools, team.sys, op);
    FinalizeAllowed(tools, team.sys, pid, id, before, after, allowed);
    FinalizedTeam(capacity, team, pid, id, Next(tools, team.sys, op));
  }

  lemma TeamCloseKeeps(capacity: nat, team: Team, key: string, discard: bool, fault: CloseFault)
    requires Inv(team.sys) && TeamInv(capacity, team)
    ensures
      var (coord, store, _) := CloseAgentStep(team.coord, team.sys.st, key, discard, fault);
      Inv(team.sys.(st := store)) && TeamInv(capacity, team.(coord := coord, sys := team.sys.(st := store)))
  {
    CloseAgentKeeps(capacity, team.coord, team.sys.st, key, discard, fault);
    CloseKeeps(team.sys, Resolve(team.coord, key), discard);
    CloseShrinks(team.coord, team.sys.st, key, discard, fault);
    hide *;
    var (coord, store, _) := CloseAgentStep(team.coord, team.sys.st, key, discard, fault);
    ClosedTeam(capacity, team, coord, store);
  }

  lemma ClosedTeam(capacity: nat, team: Team, coord: CoordState, store: StoreState)
    requires TeamInv(capacity, team) && CoordInv(capacity, coord)
    requires forall id :: id in coord.records ==> id in team.coord.records && coord.records[id] == team.coord.records[id]
    requires forall pid :: pid in store.proposals ==>
               pid in team.sys.st.proposals && store.proposals[pid] == team.sys.st.proposals[pid]
    ensures TeamInv(capacity, team.(coord := coord, sys := team.sys.(st := store)))
  {
    hide CoordInv, EntriesAllowed;
  }

  lemma CloseShrinks(st: CoordState, store: StoreState, key: string, discard: bool, fault: CloseFault)
    ensures
      var (coord, store', _) := CloseAgentStep(st, store, key, discard, fault);
      && (forall id :: id in coord.records ==> id in st.records && coord.records[id] == st.records[id])
      && (forall pid :: pid in store'.proposals ==> pid in store.proposals && store'.proposals[pid] == store.proposals[pid])
      && (store' == store || store' == CloseStep(store, Resolve(st, key), discard).0)
  {
  }

  lemma TeamStoreKeeps(tools: Tools, capacity: nat, team: Team, op: Op)
    requires Sound(tools) && Inv(team.sys) && TeamInv(capacity, team) && FreshIds(team.sys, op) && StoreCall(op)
    ensures Inv(Next(tools, team.sys, op)) && TeamInv(capacity, team.(sys := Next(tools, team.sys, op)))
  {
    IdsKnown(team.sys);
    NextKeeps(tools, team.sys, op);
    StoreCallKeepsEntries(tools, team.sys, op);
    StoreCallTeam(capacity, team, Next(tools, team.sys, op));
  }

  lemma StoreCallTeam(capacity: nat, team: Team, sys': System)
    requires TeamInv(capacity, team) && KeepsEntries(team.sys.st, sys'.st)
    ensures TeamInv(capacity, team.(sys := sys'))
  {
  }

  lemma TeamStateKeeps(capacity: nat, team: Team, id: Id, state: AgentState)
    requires TeamInv(capacity, team) && id in team.coord.records
    ensures
      var record := team.coord.records[id].(state := state);
      TeamInv(capacity, team.(coord := team.coord.(records := team.coord.records[id := record])))
  {
    assert team.coord.records[id := team.coord.records[id].(state := state)].Keys == team.coord.records.Keys;
  }

  lemma SpawnAdds(tools: Tools, capacity: nat, st: CoordState, id: Id, req: SpawnRequest)
    ensures var records := SpawnStep(tools, capacity, st, id, req).0.records;
            records == st.records || (id in records && records == st.records[id := records[id]])
  {
    hide CheckRequest, OwnershipClash;
  }

  lemma TeamSpawnKeeps(tools: Tools, capacity: nat, team: Team, id: Id, req: SpawnRequest)
    requires TeamInv(capacity, team) && id !in team.agents
    ensures TeamInv(capacity, team.(coord := SpawnStep(tools, capacity, team.coord, id, req).0, agents := team.agents + {id}))
  {
    SpawnKeeps(tools, capacity, team.coord, id, req);
    SpawnAdds(tools, capacity, team.coord, id, req);
    hide *;
    SpawnedTeam(capacity, team, id, SpawnStep(tools, capacity, team.coord, id, req).0);
  }

  lemma SpawnedTeam(capacity: nat, team: Team, id: Id, coord: CoordState)
    requires TeamInv(capacity, team) && id !in team.agents && CoordInv(capacity, coord)
    requires coord.records == team.coord.records ||
             (id in coord.records && coord.records == team.coord.records[id := coord.records[id]])
    ensures TeamInv(capacity, team.(coord := coord, agents := team.agents + {id}))
  {
    hide CoordInv, EntriesAllowed;
  }

  /** A suspended team comes back with its records, names and ownership, and no proposals. */
  lemma SuspendKeeps(tools: Tools, capacity: nat, team: Team, entries: seq<Saved>)
    requires Sound(tools) && Inv(team.sys) && TeamInv(capacity, team)
    requires MaySuspend(team) && IsExport(team.coord.records, entries)
    ensures
      var team' := TeamNext(tools, capacity, team, TeamSuspend(entries));
      && team'.coord == team.coord.(closed := false) && team'.sys.files == team.sys.files
      && Inv(team'.sys) && TeamInv(capacity, team')
  {
    hide Sound, Imported, IsExport, MaySuspend, Named, ListsOverlap, Inv, TeamInv;
    EmptiedKeeps(team.sys);
    EmptiedTeam(capacity, team);
    TeamNamed(capacity, team);
    ExportImports(team.coord, entries);
  }

  lemma TeamNamed(capacity: nat, team: Team)
    requires TeamInv(capacity, team)
    ensures Named(team.coord)
  {
  }

  lemma EmptiedKeeps(sys: System)
    requires Inv(sys)
    ensures Inv(sys.(st := StoreState({}, map[], map[])))
  {
  }

  lemma EmptiedTeam(capacity: nat, team: Team)
    requires TeamInv(capacity, team)
    ensures TeamInv(capacity, team.(coord := team.coord.(closed := false), sys := team.sys.(st := StoreState({}, map[], map[]))))
  {
    hide ListsOverlap;
  }

  lemma TeamNextKeeps(tools: Tools, capacity: nat, team: Team, op: TeamOp)
    requires Sound(tools) && Inv(team.sys) && TeamInv(capacity, team) && TeamFresh(team, op)
    ensures Inv(TeamNext(tools, capacity, team, op).sys) && TeamInv(capacity, TeamNext(tools, capacity, team, op))
  {
    match op
    case TeamSpawn(id, req) => TeamSpawnKeeps(tools, capacity, team, id, req);
    case TeamState(id, state) => if id in team.coord.records { TeamStateKeeps(capacity, team, id, state); }
    case TeamFinalize(pid, id, before, after) =>
      if id in team.coord.records && team.coord.records[id].role == Worker {
        TeamFinalizeKeeps(tools, capacity, team, pid, id, before, after);
      }
    case TeamClose(key, discard, fault) => TeamCloseKeeps(capacity, team, key, discard, fault);
    case TeamStore(inner) => if StoreCall(inner) { TeamStoreKeeps(tools, capacity, team, inner); }
    case TeamSuspend(entries) =>
      if MaySuspend(team) && IsExport(team.coord.records, entries) {
        SuspendKeeps(tools, capacity, team, entries);
      }
  }

  lemma FinalizedTeam(capacity: nat, team: Team, pid: Id, id: Id, sys': System)
    requires TeamInv(capacity, team) && id in team.coord.records && team.coord.records[id].role == Worker
    requires pid in sys'.st.proposals ==> ProposedBy(sys'.st.proposals[pid], id, team.coord.records[id].allowed)
    requires KeepsEntries(team.sys.st, sys'.st.(proposals := sys'.st.proposals - {pid}))
    ensures TeamInv(capacity, team.(sys := sys'))
  {
    var others := sys'.st.proposals - {pid};
    forall q | q in sys'.st.proposals
      ensures sys'.st.proposals[q].agent in team.agents
      ensures sys'.st.proposals[q].agent in team.coord.records ==>
                EntriesAllowed(sys'.st.proposals[q], team.coord.records[sys'.st.proposals[q].agent])
    {
      if q != pid {
        assert q in others && others[q] == sys'.st.proposals[q];
      }
    }
  }

  // ---------------------------------------------------------------------------------
  // Whole runs
  // ---------------------------------------------------------------------------------

  ghost function TeamRun(tools: Tools, capacity: nat, team: Team, ops: seq<TeamOp>): Team
    requires Sound(tools)
    decreases ops
  {
    if ops == [] then team else TeamRun(tools, capacity, TeamNext(tools, capacity, team, ops[0]), ops[1..])
  }

  ghost predicate TeamAlwaysFresh(tools: Tools, capacity: nat, team: Team, ops: seq<TeamOp>)
    requires Sound(tools)
    decreases ops
  {
    ops != [] ==> TeamFresh(team, ops[0]) && TeamAlwaysFresh(tools, capacity, TeamNext(tools, capacity, team, ops[0]), ops[1..])
  }

  lemma {:induction false} TeamRunKeeps(tools: Tools, capacity: nat, team: Team, ops: seq<TeamOp>)
    requires Sound(tools) && Inv(team.sys) && TeamInv(capacity, team) && TeamAlwaysFresh(tools, capacity, team, ops)
    ensures
      var team' := TeamRun(tools, capacity, team, ops);
      Inv(team'.sys) && TeamInv(capacity, team')
    decreases ops
  {
    if ops != [] {
      TeamNextKeeps(tools, capacity, team, ops[0]);
      TeamRunKeeps(tools, capacity, TeamNext(tools, capacity, team, ops[0]), ops[1..]);
    }
  }

  function NewTeam(files: Files): Team {
    Team(CoordState(map[], map[], false), Empty(files), {})
  }

  /** In every run: open workers own pairwise disjoint parts of the workspace, and proposals
      of two different open workers change disjoint sets of files. */
  lemma OwnershipHolds(tools: Tools, capacity: nat, files: Files, ops: seq<TeamOp>, p: Id, q: Id)
    requires Sound(tools) && TeamAlwaysFresh(tools, capacity, NewTeam(files), ops)
    ensures
      var team := TeamRun(tools, capacity, NewTeam(files), ops);
      var (records, proposals) := (team.coord.records, team.sys.st.proposals);
      && |records| <= capacity
      && (forall i, j, path :: i in records && j in records && i != j && records[i].role == Worker && records[j].role == Worker ==>
            !(PathAllowed(path, records[i].allowed) && PathAllowed(path, records[j].allowed)))
      && (p in proposals && q in proposals && proposals[p].agent != proposals[q].agent
          && proposals[p].agent in records && proposals[q].agent in records ==>
            EntryPaths(proposals[p].entries) !! EntryPaths(proposals[q].entries))
  {
    TeamRunKeeps(tools, capacity, NewTeam(files), ops);
    var team := TeamRun(tools, capacity, NewTeam(files), ops);
    var (records, proposals) := (team.coord.records, team.sys.st.proposals);
    forall i, j, path | i in records && j in records && i != j && records[i].role == Worker && records[j].role == Worker
      ensures !(PathAllowed(path, records[i].allowed) && PathAllowed(path, records[j].allowed))
    {
      assert !ListsOverlap(records[i].allowed, records[j].allowed);
      if PathAllowed(path, records[i].allowed) && PathAllowed(path, records[j].allowed) {
        SharedPathOverlaps(records[i].allowed, records[j].allowed, path);
      }
    }
  }

  // ---------------------------------------------------------------------------------
  // Commutation
  // ---------------------------------------------------------------------------------

  /** An apply whose reads return what is in the workspace. */
  ghost function ApplyNow(tools: Tools, st: StoreState, files: Files, pid: Id, cid: Id, failAt: nat): StepResult
    requires Sound(tools)
  {
    ApplyStep(tools, st, files, pid, cid, path => Observe(files, path), failAt)
  }

  /** A plan depends on the files of its own entries only. */
  lemma {:induction false} PlanLocal(tools: Tools, entries: seq<ChangeEntry>, seen: Path -> Option<FileData>, seen': Path -> Option<FileData>)
    requires Sound(tools)
    requires forall e :: e in entries ==> seen(e.path) == seen'(e.path)
    ensures PlanFor(tools, entries, seen) == PlanFor(tools, entries, seen')
  {
    if entries != [] {
      PlanLocal(tools, entries[..|entries| - 1], seen, seen');
    }
  }

  /** What an apply answers is fixed by its proposal, its plan, and whether the batch fits. */
  ghost function OutcomeOf(tools: Tools, p: ChangeProposal, plan: Plan, fits: bool, failAt: nat): Outcome {
    if p.status != Ready then WrongStatus
    else if plan.PlanFailed? then ReadFailed
    else if plan.conflicts != map[] then FoundConflict(plan.conflicts.Keys)
    else if plan.merged == map[] then Applied(plan.merged)
    else if !fits then NotWritten(VersionConflict)
    else if failAt < |tools.order(plan.merged.Keys)| then NotWritten(WriteOutcome.WriteRefused)
    else Applied(plan.merged)
  }

  ghost predicate Fits(files: Files, plan: Plan) {
    plan.Plan? ==> ExpectedHolds(files, plan.merged, plan.expected)
  }

  lemma ApplyOutcomeOf(tools: Tools, st: StoreState, files: Files, pid: Id, cid: Id, seen: Path -> Option<FileData>, failAt: nat)
    requires Sound(tools) && pid in st.proposals
    ensures
      var plan := PlanFor(tools, st.proposals[pid].entries, seen);
      ApplyStep(tools, st, files, pid, cid, seen, failAt).outcome == OutcomeOf(tools, st.proposals[pid], plan, Fits(files, plan), failAt)
  {
  }

  lemma FitsLocal(tools: Tools, entries: seq<ChangeEntry>, seen: Path -> Option<FileData>, files: Files, files': Files)
    requires Sound(tools) && DistinctPaths(entries)
    requires forall path :: path in EntryPaths(entries) ==> Observe(files', path) == Observe(files, path)
    ensures Fits(files, PlanFor(tools, entries, seen)) == Fits(files', PlanFor(tools, entries, seen))
  {
    var plan := PlanFor(tools, entries, seen);
    if plan.Plan? {
      PlanPaths(tools, entries, seen);
    }
  }

  /** An earlier apply of other files does not change what applying `pid` answers. */
  lemma ApplyUnaffected(tools: Tools, st: StoreState, files: Files, pid: Id, cid: Id, failAt: nat, st': StoreState, files': Files)
    requires Sound(tools) && pid in st.proposals && DistinctPaths(st.proposals[pid].entries)
    requires pid in st'.proposals && st'.proposals[pid] == st.proposals[pid]
    requires forall path :: path in EntryPaths(st.proposals[pid].entries) ==> Observe(files', path) == Observe(files, path)
    ensures ApplyNow(tools, st', files', pid, cid, failAt).outcome == ApplyNow(tools, st, files, pid, cid, failAt).outcome
    ensures PlanFor(tools, st.proposals[pid].entries, path => Observe(files', path)) ==
            PlanFor(tools, st.proposals[pid].entries, path => Observe(files, path))
  {
    var entries := st.proposals[pid].entries;
    var seen, seen' := path => Observe(files, path), path => Observe(files', path);
    forall e | e in entries ensures seen(e.path) == seen'(e.path) {
      assert e.path in EntryPaths(entries);
    }
    PlanLocal(tools, entries, seen, seen');
    FitsLocal(tools, entries, seen, files, files');
    ApplyOutcomeOf(tools, st, files, pid, cid, seen, failAt);
    ApplyOutcomeOf(tools, st', files', pid, cid, seen', failAt);
  }

  /** The effect of an apply, read off its outcome. */
  lemma ApplyEffect(tools: Tools, st: StoreState, files: Files, pid: Id, cid: Id, failAt: nat)
    requires Sound(tools) && pid in st.proposals && DistinctPaths(st.proposals[pid].entries)
    ensures
      var r := ApplyNow(tools, st, files, pid, cid, failAt);
      && r.files == (if r.outcome.Applied? then files + AsText(r.outcome.changes) else files)
      && (r.outcome.Applied? ==> r.outcome.changes.Keys == EntryPaths(st.proposals[pid].entries))
      && (forall path :: path !in EntryPaths(st.proposals[pid].entries) ==> Observe(r.files, path) == Observe(files, path))
      && (forall q :: q != pid ==> (q in r.state.proposals <==> q in st.proposals) && (q in st.proposals ==> r.state.proposals[q] == st.proposals[q]))
  {
    hide Sound, ApplyStep, PlanFor, StateAfter, EntryResult, DistinctPaths;
    var seen := path => Observe(files, path);
    var r := ApplyNow(tools, st, files, pid, cid, failAt);
    ApplyWritesEntries(tools, st, files, pid, cid, seen, failAt);
    ApplyStateAfter(tools, st, files, pid, cid, seen, failAt);
    AfterParts(st, pid, cid, PlanFor(tools, st.proposals[pid].entries, seen), r.outcome);
  }

  /** The new state of an apply in terms of its plan. */
  ghost function StateAfter(st: StoreState, pid: Id, cid: Id, plan: Plan, outcome: Outcome): StoreState
    requires pid in st.proposals
  {
    match outcome
    case FoundConflict(_) =>
      if plan.Plan? then
        WithStatus(st, pid, InConflict).(conflicts := st.conflicts[cid := ConflictSet(pid, plan.observed, plan.merged, plan.conflicts, Open)])
      else st
    case Applied(_) => WithStatus(st, pid, IsApplied)
    case _ => st
  }

  lemma ApplyStateAfter(tools: Tools, st: StoreState, files: Files, pid: Id, cid: Id, seen: Path -> Option<FileData>, failAt: nat)
    requires Sound(tools) && pid in st.proposals
    ensures
      var r := ApplyStep(tools, st, files, pid, cid, seen, failAt);
      r.state == StateAfter(st, pid, cid, PlanFor(tools, st.proposals[pid].entries, seen), r.outcome)
  {
  }

  /** What one apply leaves, field by field. */
  ghost function StatusAfter(plan: Plan, outcome: Outcome, before: ProposalStatus): ProposalStatus {
    if outcome.FoundConflict? && plan.Plan? then InConflict else if outcome.Applied? then IsApplied else before
  }

  lemma AfterParts(st: StoreState, pid: Id, cid: Id, plan: Plan, outcome: Outcome)
    requires pid in st.proposals
    ensures var t := StateAfter(st, pid, cid, plan, outcome);
            && t.sandboxes == st.sandboxes
            && t.proposals == st.proposals[pid := st.proposals[pid].(status := StatusAfter(plan, outcome, st.proposals[pid].status))]
            && t.conflicts == (if outcome.FoundConflict? && plan.Plan? then
                 st.conflicts[cid := ConflictSet(pid, plan.observed, plan.merged, plan.conflicts, Open)] else st.conflicts)
  {
  }

  lemma StatesCommute(st: StoreState, p: Id, cp: Id, planP: Plan, outP: Outcome, q: Id, cq: Id, planQ: Plan, outQ: Outcome)
    requires p in st.proposals && q in st.proposals && p != q && cp != cq
    ensures StateAfter(StateAfter(st, p, cp, planP, outP), q, cq, planQ, outQ) ==
            StateAfter(StateAfter(st, q, cq, planQ, outQ), p, cp, planP, outP)
  {
    AfterParts(st, p, cp, planP, outP);
    AfterParts(st, q, cq, planQ, outQ);
    AfterParts(StateAfter(st, p, cp, planP, outP), q, cq, planQ, outQ);
    AfterParts(StateAfter(st, q, cq, planQ, outQ), p, cp, planP, outP);
    hide StateAfter;
    var x, y := StateAfter(StateAfter(st, p, cp, planP, outP), q, cq, planQ, outQ),
                StateAfter(StateAfter(st, q, cq, planQ, outQ), p, cp, planP, outP);
    assert x.proposals == y.proposals;
    assert x.conflicts == y.conflicts;
  }

  /** The one-sided part: after applying `p`, applying `q` answers and does what it would
      have done before. */
  lemma SecondApply(tools: Tools, st: StoreState, files: Files, p: Id, cp: Id, failP: nat, q: Id, cq: Id, failQ: nat)
    requires Sound(tools) && p in st.proposals && q in st.proposals && p != q
    requires DistinctPaths(st.proposals[p].entries) && DistinctPaths(st.proposals[q].entries)
    requires EntryPaths(st.proposals[p].entries) !! EntryPaths(st.proposals[q].entries)
    ensures
      var p1 := ApplyNow(tools, st, files, p, cp, failP);
      var q1 := ApplyNow(tools, st, files, q, cq, failQ);
      var q2 := ApplyNow(tools, p1.state, p1.files, q, cq, failQ);
      var planP := PlanFor(tools, st.proposals[p].entries, path => Observe(files, path));
      var planQ := PlanFor(tools, st.proposals[q].entries, path => Observe(files, path));
      && q2.outcome == q1.outcome
      && q2.files == Onto(Onto(files, p1.outcome), q1.outcome)
      && q2.state == StateAfter(StateAfter(st, p, cp, planP, p1.outcome), q, cq, planQ, q1.outcome)
  {
    var p1 := ApplyNow(tools, st, files, p, cp, failP);
    ApplyEffect(tools, st, files, p, cp, failP);
    ApplyUnaffected(tools, st, files, q, cq, failQ, p1.state, p1.files);
    ApplyEffect(tools, p1.state, p1.files, q, cq, failQ);
    ApplyStateAfter(tools, st, files, p, cp, path => Observe(files, path), failP);
    ApplyStateAfter(tools, p1.state, p1.files, q, cq, path => Observe(p1.files, path), failQ);
  }

  /** What an outcome writes onto the files. */
  ghost function Onto(files: Files, outcome: Outcome): Files {
    if outcome.Applied? then files + AsText(outcome.changes) else files
  }

  lemma OntoCommute(files: Files, x: Outcome, y: Outcome)
    requires x.Applied? && y.Applied? ==> x.changes.Keys !! y.changes.Keys
    ensures Onto(Onto(files, x), y) == Onto(Onto(files, y), x)
  {
    if x.Applied? && y.Applied? {
      SameFiles(Onto(Onto(files, x), y), Onto(Onto(files, y), x));
    }
  }

  /** Two proposals without a common path, in any store: applying them in either order gives
      the same workspace, the same store and, proposal by proposal, the same outcome. */
  lemma AppliesCommute(tools: Tools, st: StoreState, files: Files, p: Id, cp: Id, failP: nat, q: Id, cq: Id, failQ: nat)
    requires Sound(tools) && p in st.proposals && q in st.proposals && p != q && cp != cq
    requires DistinctPaths(st.proposals[p].entries) && DistinctPaths(st.proposals[q].entries)
    requires EntryPaths(st.proposals[p].entries) !! EntryPaths(st.proposals[q].entries)
    ensures
      var p1 := ApplyNow(tools, st, files, p, cp, failP);
      var q2 := ApplyNow(tools, p1.state, p1.files, q, cq, failQ);
      var q1 := ApplyNow(tools, st, files, q, cq, failQ);
      var p2 := ApplyNow(tools, q1.state, q1.files, p, cp, failP);
      && q2.files == p2.files && q2.state == p2.state
      && p1.outcome == p2.outcome && q1.outcome == q2.outcome
  {
    var x, y := ApplyNow(tools, st, files, p, cp, failP).outcome, ApplyNow(tools, st, files, q, cq, failQ).outcome;
    SecondApply(tools, st, files, p, cp, failP, q, cq, failQ);
    SecondApply(tools, st, files, q, cq, failQ, p, cp, failP);
    ApplyEffect(tools, st, files, p, cp, failP);
    ApplyEffect(tools, st, files, q, cq, failQ);
    OntoCommute(files, x, y);
    StatesCommute(st, p, cp, PlanFor(tools, st.proposals[p].entries, path => Observe(files, path)), x,
                  q, cq, PlanFor(tools, st.proposals[q].entries, path => Observe(files, path)), y);
  }

  /** In every run: the proposals of two different open workers can be applied in either
      order. */
  lemma OpenWorkersCommute(tools: Tools, capacity: nat, files: Files, ops: seq<TeamOp>, p: Id, cp: Id, failP: nat, q: Id, cq: Id, failQ: nat)
    requires Sound(tools) && TeamAlwaysFresh(tools, capacity, NewTeam(files), ops) && cp != cq
    requires
      var team := TeamRun(tools, capacity, NewTeam(files), ops);
      var (records, proposals) := (team.coord.records, team.sys.st.proposals);
      && p in proposals && q in proposals && proposals[p].agent != proposals[q].agent
      && proposals[p].agent in records && proposals[q].agent in records
    ensures
      var sys := TeamRun(tools, capacity, NewTeam(files), ops).sys;
      var p1 := ApplyNow(tools, sys.st, sys.files, p, cp, failP);
      var q2 := ApplyNow(tools, p1.state, p1.files, q, cq, failQ);
      var q1 := ApplyNow(tools, sys.st, sys.files, q, cq, failQ);
      var p2 := ApplyNow(tools, q1.state, q1.files, p, cp, failP);
      q2.files == p2.files && q2.state == p2.state && p1.outcome == p2.outcome && q1.outcome == q2.outcome
  {
    OwnershipHolds(tools, capacity, files, ops, p, q);
    TeamRunKeeps(tools, capacity, NewTeam(files), ops);
    var sys := TeamRun(tools, capacity, NewTeam(files), ops).sys;
    assert ProposalOk(sys, p, sys.st.proposals[p]) && ProposalOk(sys, q, sys.st.proposals[q]);
    AppliesCommute(tools, sys.st, sys.files, p, cp, failP, q, cq, failQ);
  }
}
