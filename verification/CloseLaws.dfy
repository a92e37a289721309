/**
  What `close_agent` does to the proposals of the agent it closes. The record and its name go
  before the store is asked, so a close that raises has an effect all the same. The module
  says for every state when it does, for every run when a pending proposal can outlive its
  owner, and shows a run in which a second worker gets the same paths.
 */
module CloseLaws {
  import opened Wrappers
  import opened PyStrings
  import opened Paths
  import opened WorkspaceFiles
  import opened Proposals
  import opened ProposalStore
  import opened ProposalRuns
  import opened Coordinator
  import opened Ownership

  predicate HasPending(store: StoreState, id: Id) {
    exists pid :: pid in store.proposals && IsPending(store.proposals[pid], id)
  }

  // ---------------------------------------------------------------------------------
  // One close
  // ---------------------------------------------------------------------------------

  /** A raising close changes nothing, except when it gets past its two checks and then
      something raises: the cleanup, or the store because of a pending proposal. */
  lemma RaisingClose(st: CoordState, store: StoreState, key: string, discard: bool, fault: CloseFault)
    ensures
      var (coord, store', r) := CloseAgentStep(st, store, key, discard, fault);
      (r.Err? ==> coord == st && store' == store) <==>
      !(CanClose(st, key) && (fault != NoFault || (!discard && HasPending(store, Resolve(st, key)))))
  {
    if CanClose(st, key) {
      var id := Resolve(st, key);
      assert id in st.records && id !in WithoutRecord(st, id).records;
    }
  }

  /** The close takes the owner away from a pending proposal. */
  predicate LosesOwner(st: CoordState, store: StoreState, key: string, discard: bool, fault: CloseFault) {
    CanClose(st, key) && HasPending(store, Resolve(st, key)) && (fault.BeforeStore? || !discard)
  }

  lemma CloseLosesOwner(st: CoordState, store: StoreState, key: string, discard: bool, fault: CloseFault)
    ensures
      var id := Resolve(st, key);
      var (coord, store', r) := CloseAgentStep(st, store, key, discard, fault);
      id in st.records && id !in coord.records && HasPending(store', id) <==> LosesOwner(st, store, key, discard, fault)
  {
  }

  // ---------------------------------------------------------------------------------
  // Whole runs
  // ---------------------------------------------------------------------------------

  /** Every proposal still to be decided belongs to an agent that is still open. */
  ghost predicate PendingOwned(team: Team) {
    forall pid :: pid in team.sys.st.proposals && team.sys.st.proposals[pid].status in {Ready, InConflict} ==>
      team.sys.st.proposals[pid].agent in team.coord.records
  }

  ghost predicate BadClose(team: Team, op: TeamOp) {
    op.TeamClose? && LosesOwner(team.coord, team.sys.st, op.key, op.discard, op.fault)
  }

  /** What is pending after a store call was pending before, by the same agent. */
  ghost predicate PendingBefore(st: StoreState, st': StoreState) {
    forall pid :: pid in st'.proposals && st'.proposals[pid].status in {Ready, InConflict} ==>
      pid in st.proposals && st.proposals[pid].status in {Ready, InConflict} && st.proposals[pid].agent == st'.proposals[pid].agent
  }

  lemma ApplyPending(tools: Tools, st: StoreState, files: Files, pid: Id, cid: Id, seen: Path -> Option<FileData>, failAt: nat)
    requires Sound(tools)
    ensures PendingBefore(st, ApplyStep(tools, st, files, pid, cid, seen, failAt).state)
  {
    hide Sound, PlanFor, ExpectedHolds, BatchOutcome;
  }

  lemma OpenIsInConflict(sys: System, cid: Id)
    requires Inv(sys) && cid in sys.st.conflicts
    ensures var c := sys.st.conflicts[cid];
            c.proposal in sys.st.proposals && (c.status == Open ==> sys.st.proposals[c.proposal].status == InConflict)
  {
    var c := sys.st.conflicts[cid];
    assert ConflictOk(sys, cid, c);
    assert ProposalOk(sys, c.proposal, sys.st.proposals[c.proposal]);
    assert c.status == Open ==> OpenFor(sys.st, cid, c.proposal);
  }

  lemma SettlePending(st: StoreState, cid: Id, status: ConflictStatus, next: ProposalStatus)
    requires cid in st.conflicts && st.conflicts[cid].proposal in st.proposals
    requires st.proposals[st.conflicts[cid].proposal].status == InConflict
    ensures PendingBefore(st, Settle(st, cid, status, next))
  {
  }

  lemma ResolvePending(tools: Tools, sys: System, cid: Id, resolutions: map<Path, string>, seen: Path -> Option<FileData>, failAt: nat)
    requires Inv(sys)
    ensures PendingBefore(sys.st, ResolveStep(tools, sys.st, sys.files, cid, resolutions, seen, failAt).state)
  {
    if cid in sys.st.conflicts {
      OpenIsInConflict(sys, cid);
      ResolveCases(tools, sys.st, sys.files, cid, resolutions, seen, failAt);
      var r := ResolveStep(tools, sys.st, sys.files, cid, resolutions, seen, failAt);
      hide *;
      match r.outcome
      case WentStale(_) => SettlePending(sys.st, cid, Stale, Ready);
      case Applied(_) => SettlePending(sys.st, cid, Resolved, IsApplied);
      case _ => assert PendingBefore(sys.st, sys.st) by { Unchanged(sys.st); }
    }
  }

  lemma Unchanged(st: StoreState)
    ensures PendingBefore(st, st)
  {
  }

  lemma StoreCallPending(tools: Tools, sys: System, op: Op)
    requires Sound(tools) && Inv(sys) && StoreCall(op)
    ensures PendingBefore(sys.st, Next(tools, sys, op).st)
  {
    match op
    case OpApply(pid, cid, seen, failAt) =>
      ApplyPending(tools, sys.st, sys.files, pid, cid, seen, failAt);
    case OpResolve(cid, resolutions, seen, failAt) =>
      ResolvePending(tools, sys, cid, resolutions, seen, failAt);
    case OpSandbox(_) =>
    case OpExternal(_) =>
    case OpFinalize(_, _, _, _, _) =>
    case OpClose(_, _) =>
  }

  lemma StoreCallOwned(team: Team, sys': System)
    requires PendingOwned(team) && PendingBefore(team.sys.st, sys'.st)
    ensures PendingOwned(team.(sys := sys'))
  {
  }

  lemma SpawnOwned(tools: Tools, capacity: nat, team: Team, id: Id, req: SpawnRequest)
    requires PendingOwned(team)
    ensures PendingOwned(TeamNext(tools, capacity, team, TeamSpawn(id, req)))
    requires Sound(tools)
  {
    SpawnAdds(tools, capacity, team.coord, id, req);
    hide SpawnStep, Sound;
  }

  lemma FinalizeOwned(tools: Tools, team: Team, pid: Id, id: Id, before: Files, after: Files)
    requires Sound(tools) && PendingOwned(team) && id in team.coord.records
    ensures PendingOwned(team.(sys := Next(tools, team.sys, OpFinalize(pid, id, before, after, team.coord.records[id].allowed))))
  {
    hide Sound, CollectEntries, CollectReasons, EntryPaths;
  }

  lemma CloseOwned(team: Team, key: string, discard: bool, fault: CloseFault)
    requires PendingOwned(team)
    ensures
      var (coord, store, _) := CloseAgentStep(team.coord, team.sys.st, key, discard, fault);
      PendingOwned(team.(coord := coord, sys := team.sys.(st := store))) <==>
      !LosesOwner(team.coord, team.sys.st, key, discard, fault)
  {
    var (coord, store, _) := CloseAgentStep(team.coord, team.sys.st, key, discard, fault);
    if LosesOwner(team.coord, team.sys.st, key, discard, fault) {
      var pid :| pid in store.proposals && IsPending(store.proposals[pid], Resolve(team.coord, key));
    }
  }

  /** One step from a state where every pending proposal has its owner: the owner is lost
      exactly by a bad close. */
  lemma StepOwned(tools: Tools, capacity: nat, team: Team, op: TeamOp)
    requires Sound(tools) && Inv(team.sys) && PendingOwned(team)
    ensures PendingOwned(TeamNext(tools, capacity, team, op)) <==> !BadClose(team, op)
  {
    match op
    case TeamSpawn(id, req) => SpawnOwned(tools, capacity, team, id, req);
    case TeamState(id, state) => hide Sound;
    case TeamFinalize(pid, id, before, after) =>
      if id in team.coord.records && team.coord.records[id].role == Worker {
        FinalizeOwned(tools, team, pid, id, before, after);
        hide Sound, PendingOwned, Next;
      }
    case TeamClose(key, discard, fault) =>
      CloseOwned(team, key, discard, fault);
      hide Sound, PendingOwned, LosesOwner, CloseAgentStep;
    case TeamStore(inner) =>
      if StoreCall(inner) {
        StoreCallPending(tools, team.sys, inner);
        StoreCallOwned(team, Next(tools, team.sys, inner));
        hide Sound, PendingOwned, Next;
      }
    case TeamSuspend(entries) => hide Sound, Imported, IsExport, MaySuspend;
  }

  lemma {:induction false} RunSnoc(tools: Tools, capacity: nat, team: Team, ops: seq<TeamOp>, op: TeamOp)
    requires Sound(tools)
    ensures TeamRun(tools, capacity, team, ops + [op]) == TeamNext(tools, capacity, TeamRun(tools, capacity, team, ops), op)
    ensures TeamAlwaysFresh(tools, capacity, team, ops + [op]) <==>
            TeamAlwaysFresh(tools, capacity, team, ops) && TeamFresh(TeamRun(tools, capacity, team, ops), op)
    decreases ops
  {
    hide Sound, TeamNext, TeamFresh;
    if ops == [] {
      assert [op][1..] == [] && [] + [op] == [op];
    } else {
      var next := TeamNext(tools, capacity, team, ops[0]);
      assert (ops + [op])[1..] == ops[1..] + [op] && (ops + [op])[0] == ops[0];
      RunSnoc(tools, capacity, next, ops[1..], op);
    }
  }

  /** The team after the first `k` steps of a run. */
  ghost function TeamAt(tools: Tools, capacity: nat, files: Files, ops: seq<TeamOp>, k: nat): Team
    requires Sound(tools) && k <= |ops|
  {
    TeamRun(tools, capacity, NewTeam(files), ops[..k])
  }

  lemma {:induction false} TeamSteps(tools: Tools, capacity: nat, files: Files, ops: seq<TeamOp>, k: nat)
    requires Sound(tools) && TeamAlwaysFresh(tools, capacity, NewTeam(files), ops) && k <= |ops|
    ensures TeamAlwaysFresh(tools, capacity, NewTeam(files), ops[..k])
    ensures Inv(TeamAt(tools, capacity, files, ops, k).sys) && TeamInv(capacity, TeamAt(tools, capacity, files, ops, k))
    ensures k < |ops| ==> TeamAt(tools, capacity, files, ops, k + 1) ==
                          TeamNext(tools, capacity, TeamAt(tools, capacity, files, ops, k), ops[k])
    decreases |ops| - k
  {
    hide TeamNext, TeamAlwaysFresh, TeamRun, Inv, TeamInv;
    if k < |ops| {
      assert ops[..k + 1] == ops[..k] + [ops[k]];
      TeamSteps(tools, capacity, files, ops, k + 1);
      RunSnoc(tools, capacity, NewTeam(files), ops[..k], ops[k]);
    } else {
      assert ops[..k] == ops;
    }
    StartInv(capacity, files);
    TeamRunKeeps(tools, capacity, NewTeam(files), ops[..k]);
  }

  lemma StartInv(capacity: nat, files: Files)
    ensures Inv(NewTeam(files).sys) && TeamInv(capacity, NewTeam(files))
  {
  }

  ghost predicate NoBadClose(tools: Tools, capacity: nat, files: Files, ops: seq<TeamOp>, n: nat)
    requires Sound(tools) && n <= |ops|
  {
    forall k :: 0 <= k < n ==> !BadClose(TeamAt(tools, capacity, files, ops, k), ops[k])
  }

  ghost predicate AlwaysOwned(tools: Tools, capacity: nat, files: Files, ops: seq<TeamOp>, n: nat)
    requires Sound(tools) && n <= |ops|
  {
    forall k :: 0 <= k <= n ==> PendingOwned(TeamAt(tools, capacity, files, ops, k))
  }

  /** In every run: all along, each proposal still to be decided belongs to an open agent
      exactly when no step closes an agent whose pending proposal then stays. */
  lemma {:induction false} OwnersStay(tools: Tools, capacity: nat, files: Files, ops: seq<TeamOp>, n: nat)
    requires Sound(tools) && TeamAlwaysFresh(tools, capacity, NewTeam(files), ops) && n <= |ops|
    ensures AlwaysOwned(tools, capacity, files, ops, n) <==> NoBadClose(tools, capacity, files, ops, n)
  {
    hide TeamNext, Sound, Inv, TeamInv, BadClose, TeamAlwaysFresh;
    if n == 0 {
      assert PendingOwned(TeamAt(tools, capacity, files, ops, 0));
    } else {
      OwnersStay(tools, capacity, files, ops, n - 1);
      hide TeamAt, PendingOwned;
      var before := TeamAt(tools, capacity, files, ops, n - 1);
      TeamSteps(tools, capacity, files, ops, n - 1);
      if AlwaysOwned(tools, capacity, files, ops, n - 1) {
        assert PendingOwned(before);
        StepOwned(tools, capacity, before, ops[n - 1]);
      }
    }
  }

  /** Where no step is a bad close, any two proposals of different agents still to be decided
      change different files, whether their agents run, wait, or have failed. */
  lemma PendingDisjoint(tools: Tools, capacity: nat, files: Files, ops: seq<TeamOp>, p: Id, q: Id)
    requires Sound(tools) && TeamAlwaysFresh(tools, capacity, NewTeam(files), ops)
    requires NoBadClose(tools, capacity, files, ops, |ops|)
    requires
      var proposals := TeamRun(tools, capacity, NewTeam(files), ops).sys.st.proposals;
      && p in proposals && q in proposals && proposals[p].agent != proposals[q].agent
      && proposals[p].status in {Ready, InConflict} && proposals[q].status in {Ready, InConflict}
    ensures
      var proposals := TeamRun(tools, capacity, NewTeam(files), ops).sys.st.proposals;
      EntryPaths(proposals[p].entries) !! EntryPaths(proposals[q].entries)
  {
    OwnersStay(tools, capacity, files, ops, |ops|);
    OwnershipHolds(tools, capacity, files, ops, p, q);
    assert ops[..|ops|] == ops;
    assert PendingOwned(TeamAt(tools, capacity, files, ops, |ops|));
  }

  // ---------------------------------------------------------------------------------
  // A run with a bad close
  // ---------------------------------------------------------------------------------

  const ROOT: Path := ["a"]

  const REQUEST := SpawnRequest("w", "worker", "t", [RawPath(false, ROOT)], None, ForkCount(1), false, false, false)

  function OneFile(text: string): Files { map[ROOT := Text(text)] }

  function OneEntry(text: string): ChangeEntry { ChangeEntry(ROOT, Create, None, text) }

  function OneProposal(agent: Id, text: string): ChangeProposal { ChangeProposal(agent, [OneEntry(text)], [], Ready) }

  /** A worker's whole life: it is spawned, runs in its sandbox, and proposes one new file. */
  function Lifetime(id: Id, pid: Id, text: string): seq<TeamOp> {
    [TeamSpawn(id, REQUEST), TeamStore(OpSandbox(id)), TeamState(id, Running),
     TeamFinalize(pid, id, map[], OneFile(text)), TeamState(id, Completed)]
  }

  lemma {:induction false} LowerFixed(s: string)
    requires forall c :: c in s ==> LowerChar(c) == c
    ensures Lower(s) == s
  {
    if s != "" {
      LowerFixed(s[1..]);
    }
  }

  lemma StripFixed(s: string)
    requires s != "" && !IsSpace(s[0]) && !IsSpace(s[|s| - 1])
    ensures Strip(s) == s
  {
  }

  lemma RequestStrings(tools: Tools)
    ensures Lower(Strip("worker")) == "worker" && Strip("t") == "t" && |AgentName(tools, "w")| == 1
  {
    LowerFixed("worker");
    StripFixed("worker");
    StripFixed("w");
    StripFixed("t");
  }

  lemma RequestOk(tools: Tools)
    ensures CheckRequest(tools, REQUEST) == Ok((AgentName(tools, "w"), Worker, [ROOT]))
  {
    RequestStrings(tools);
    RootPath();
    hide Lower, Strip, AgentName, NormalizeAllRel;
    assert ParseRole(Lower(Strip(REQUEST.role))) == Some(Worker);
  }

  lemma RootPath()
    ensures NormalizeAllRel([RawPath(false, ROOT)]) == Some([ROOT])
  {
    assert [RawPath(false, ROOT)][1..] == [];
    assert NormalizeAllRel([RawPath(false, ROOT)]) == Some([ROOT] + []);
    assert [ROOT] + [] == [ROOT];
  }

  lemma {:induction false} OrderOne(tools: Tools)
    requires Sound(tools)
    ensures tools.order({ROOT}) == [ROOT]
  {
    var s := tools.order({ROOT});
    assert ROOT in {ROOT};
    assert ROOT in s;
    assert |s| > 1 ==> s[0] != s[1];
    forall i | 0 <= i < |s| ensures s[i] == ROOT {
      assert s[i] in s;
      assert s[i] in {ROOT};
    }
  }

  /** What the worker proposes: its one new file. */
  lemma FinalizesOne(tools: Tools, st: StoreState, pid: Id, id: Id, c: char)
    requires Sound(tools) && id in st.sandboxes && c != '\r'
    ensures FinalizeStep(tools, st, pid, id, map[], OneFile([c]), [ROOT]) ==
            (st.(proposals := st.proposals[pid := OneProposal(id, [c])]), Finalized)
  {
    OrderOne(tools);
    hide Sound;
    var before: Files := map[];
    var after := OneFile([c]);
    assert before.Keys + after.Keys == {ROOT};
    assert PathAllowed(ROOT, [ROOT]) by { assert ROOT in [ROOT]; }
    assert NormalizeAll([c]) == [c] + NormalizeAll("");
    assert CollectOne(before, after, [ROOT], ROOT) == Collected.Collected(OneEntry([c]));
    assert [ROOT][..0] == [];
    assert CollectEntries(before, after, [ROOT], [ROOT]) == [] + [OneEntry([c])];
    assert CollectReasons(before, after, [ROOT], [ROOT]) == [];
    assert [] + [OneEntry([c])] == [OneEntry([c])];
    assert tools.order(before.Keys + after.Keys) == [ROOT];
  }

  ghost predicate Idle(team: Team, id: Id, pid: Id) {
    && team.coord == CoordState(map[], map[], false)
    && id !in team.agents && pid !in team.sys.known
  }

  function OneRecord(tools: Tools, id: Id, state: AgentState): CoordState {
    var name := AgentName(tools, "w");
    CoordState(map[id := AgentRecord(name, Worker, [ROOT], state)], map[name := id], false)
  }

  function Boxed(sys: System, id: Id): System {
    sys.(st := sys.st.(sandboxes := sys.st.sandboxes + {id}))
  }

  function Proposed(sys: System, id: Id, pid: Id, text: string): System {
    sys.(st := sys.st.(proposals := sys.st.proposals[pid := OneProposal(id, text)]), known := sys.known[pid := {ROOT}])
  }

  lemma NextSpawn(tools: Tools, capacity: nat, sys: System, agents: set<Id>, id: Id)
    requires Sound(tools) && capacity > 0
    ensures TeamNext(tools, capacity, Team(CoordState(map[], map[], false), sys, agents), TeamSpawn(id, REQUEST)) ==
            Team(OneRecord(tools, id, Queued), sys, agents + {id})
  {
    RequestOk(tools);
    hide Sound, CheckRequest, AgentName;
  }

  lemma NextSandbox(tools: Tools, capacity: nat, coord: CoordState, sys: System, agents: set<Id>, id: Id)
    requires Sound(tools)
    ensures TeamNext(tools, capacity, Team(coord, sys, agents), TeamStore(OpSandbox(id))) == Team(coord, Boxed(sys, id), agents)
  {
    hide Sound;
  }

  lemma NextState(tools: Tools, capacity: nat, sys: System, agents: set<Id>, id: Id, before: AgentState, after: AgentState)
    requires Sound(tools)
    ensures TeamNext(tools, capacity, Team(OneRecord(tools, id, before), sys, agents), TeamState(id, after)) ==
            Team(OneRecord(tools, id, after), sys, agents)
  {
    hide Sound, AgentName;
  }

  lemma NextFinalize(tools: Tools, capacity: nat, sys: System, agents: set<Id>, id: Id, pid: Id, c: char)
    requires Sound(tools) && id in sys.st.sandboxes && c != '\r'
    ensures TeamNext(tools, capacity, Team(OneRecord(tools, id, Running), sys, agents),
                     TeamFinalize(pid, id, map[], OneFile([c]))) ==
            Team(OneRecord(tools, id, Running), Proposed(sys, id, pid, [c]), agents)
  {
    FinalizesOne(tools, sys.st, pid, id, c);
    assert EntryPaths([OneEntry([c])]) == {ROOT} by { assert OneEntry([c]) in [OneEntry([c])]; }
    hide Sound, FinalizeStep, AgentName, EntryPaths;
  }

  lemma LivesOnce(tools: Tools, capacity: nat, team: Team, id: Id, pid: Id, c: char)
    requires Sound(tools) && capacity > 0 && Idle(team, id, pid) && c != '\r'
    ensures TeamAlwaysFresh(tools, capacity, team, Lifetime(id, pid, [c]))
    ensures TeamRun(tools, capacity, team, Lifetime(id, pid, [c])) ==
            Team(OneRecord(tools, id, Completed), Proposed(Boxed(team.sys, id), id, pid, [c]), team.agents + {id})
  {
    var (ops, agents) := (Lifetime(id, pid, [c]), team.agents + {id});
    var boxed := Boxed(team.sys, id);
    var proposed := Proposed(boxed, id, pid, [c]);
    hide Sound, TeamNext, OneRecord;
    NextSpawn(tools, capacity, team.sys, team.agents, id);
    NextSandbox(tools, capacity, OneRecord(tools, id, Queued), team.sys, agents, id);
    NextState(tools, capacity, boxed, agents, id, Queued, Running);
    NextFinalize(tools, capacity, boxed, agents, id, pid, c);
    NextState(tools, capacity, proposed, agents, id, Running, Completed);
    FiveSteps(tools, capacity, team, ops,
              Team(OneRecord(tools, id, Queued), team.sys, agents), Team(OneRecord(tools, id, Queued), boxed, agents),
              Team(OneRecord(tools, id, Running), boxed, agents), Team(OneRecord(tools, id, Running), proposed, agents),
              Team(OneRecord(tools, id, Completed), proposed, agents));
  }

  lemma FiveSteps(tools: Tools, capacity: nat, team: Team, ops: seq<TeamOp>, t1: Team, t2: Team, t3: Team, t4: Team, t5: Team)
    requires Sound(tools) && |ops| == 5
    requires TeamFresh(team, ops[0]) && t1 == TeamNext(tools, capacity, team, ops[0])
    requires TeamFresh(t1, ops[1]) && t2 == TeamNext(tools, capacity, t1, ops[1])
    requires TeamFresh(t2, ops[2]) && t3 == TeamNext(tools, capacity, t2, ops[2])
    requires TeamFresh(t3, ops[3]) && t4 == TeamNext(tools, capacity, t3, ops[3])
    requires TeamFresh(t4, ops[4]) && t5 == TeamNext(tools, capacity, t4, ops[4])
    ensures TeamAlwaysFresh(tools, capacity, team, ops) && TeamRun(tools, capacity, team, ops) == t5
  {
    hide Sound, TeamNext, TeamFresh;
    var (a, b, c, d) := (ops[1..], ops[2..], ops[3..], ops[4..]);
    assert a[1..] == b && b[1..] == c && c[1..] == d && d[1..] == [];
    assert TeamRun(tools, capacity, t4, d) == t5 && TeamAlwaysFresh(tools, capacity, t4, d);
    assert TeamRun(tools, capacity, t3, c) == t5 && TeamAlwaysFresh(tools, capacity, t3, c);
    assert TeamRun(tools, capacity, t2, b) == t5 && TeamAlwaysFresh(tools, capacity, t2, b);
    assert TeamRun(tools, capacity, t1, a) == t5 && TeamAlwaysFresh(tools, capacity, t1, a);
  }

  lemma {:induction false} RunAppend(tools: Tools, capacity: nat, team: Team, ops: seq<TeamOp>, more: seq<TeamOp>)
    requires Sound(tools)
    ensures TeamRun(tools, capacity, team, ops + more) == TeamRun(tools, capacity, TeamRun(tools, capacity, team, ops), more)
    ensures TeamAlwaysFresh(tools, capacity, team, ops + more) <==>
            TeamAlwaysFresh(tools, capacity, team, ops) &&
            TeamAlwaysFresh(tools, capacity, TeamRun(tools, capacity, team, ops), more)
    decreases ops
  {
    hide Sound, TeamNext, TeamFresh;
    if ops == [] {
      assert [] + more == more;
    } else {
      assert (ops + more)[1..] == ops[1..] + more && (ops + more)[0] == ops[0];
      RunAppend(tools, capacity, TeamNext(tools, capacity, team, ops[0]), ops[1..], more);
    }
  }

  /** The refused close of the one open worker leaves no record and the store as it was. */
  lemma RefusesClose(tools: Tools, capacity: nat, sys: System, agents: set<Id>, id: Id, pid: Id)
    requires Sound(tools) && |id| > 1 && pid in sys.st.proposals && IsPending(sys.st.proposals[pid], id)
    ensures CloseAgentStep(OneRecord(tools, id, Completed), sys.st, id, false, NoFault) ==
            (CoordState(map[], map[], false), sys.st, Err(ProposalPending))
    ensures TeamNext(tools, capacity, Team(OneRecord(tools, id, Completed), sys, agents), TeamClose(id, false, NoFault)) ==
            Team(CoordState(map[], map[], false), sys, agents)
  {
    var st := OneRecord(tools, id, Completed);
    assert |AgentName(tools, "w")| == 1 by { StripFixed("w"); }
    hide Sound, AgentName;
    assert Resolve(st, id) == id;
    assert WithoutRecord(st, id) == CoordState(map[], map[], false);
  }

  /** Applied first, a proposed new file is written. */
  lemma CreatesFile(tools: Tools, st: StoreState, pid: Id, cid: Id, id: Id, c: char)
    requires Sound(tools) && pid in st.proposals && st.proposals[pid] == OneProposal(id, [c])
    ensures
      var r := ApplyNow(tools, st, map[], pid, cid, 1);
      r.files == OneFile([c]) && r.state == WithStatus(st, pid, IsApplied)
  {
    var files: Files := map[];
    var seen := path => Observe(files, path);
    OrderOne(tools);
    PlanOne(tools, OneEntry([c]), seen);
    hide Sound, PlanFor, EntryResult;
    var plan := PlanFor(tools, [OneEntry([c])], seen);
    assert plan.merged.Keys == {ROOT};
    assert AsText(plan.merged) == OneFile([c]);
  }

  /** Applied second, it meets the other one's file. */
  lemma MeetsFile(tools: Tools, st: StoreState, pid: Id, cid: Id, id: Id, c: char, d: char)
    requires Sound(tools) && pid in st.proposals && st.proposals[pid] == OneProposal(id, [c]) && c != d
    ensures ApplyNow(tools, st, OneFile([d]), pid, cid, 1).outcome == FoundConflict({ROOT})
    ensures ApplyNow(tools, st, OneFile([d]), pid, cid, 1).files == OneFile([d])
  {
    var files := OneFile([d]);
    var seen := path => Observe(files, path);
    assert NormalizeNewlines([d]) == [d] + "" == [d];
    assert [c][0] != [d][0];
    PlanOne(tools, OneEntry([c]), seen);
    hide Sound, PlanFor, EntryResult;
    var plan := PlanFor(tools, [OneEntry([c])], seen);
    assert plan.conflicts.Keys == {ROOT};
  }

  lemma PlanOne(tools: Tools, e: ChangeEntry, seen: Path -> Option<FileData>)
    requires Sound(tools) && e.operation.Create? && !Read(seen(e.path)).Unreadable?
    ensures
      var current := ReadText(Read(seen(e.path)));
      var plan := PlanFor(tools, [e], seen);
      && plan.Plan? && plan.expected == map[e.path := seen(e.path)]
      && (if current.None? || current.value == e.result then
            plan.merged == map[e.path := e.result] && plan.conflicts == map[]
          else plan.merged == map[] && plan.conflicts.Keys == {e.path})
  {
    hide Sound, DisjointMerge;
    assert [e][..0] == [];
  }

  function ClashOps(): seq<TeamOp> {
    Lifetime("a1", "p1", "x") + ([TeamClose("a1", false, NoFault)] + Lifetime("a2", "p2", "y"))
  }

  function ClashEnd(): System {
    Proposed(Boxed(Proposed(Boxed(Empty(map[]), "a1"), "a1", "p1", "x"), "a2"), "a2", "p2", "y")
  }

  lemma ClashApplies(tools: Tools)
    requires Sound(tools)
    ensures
      var (st, files) := (ClashEnd().st, ClashEnd().files);
      var first := ApplyNow(tools, st, files, "p1", "c1", 1);
      var other := ApplyNow(tools, st, files, "p2", "c2", 1);
      && ApplyNow(tools, first.state, first.files, "p2", "c2", 1).files == OneFile("x")
      && ApplyNow(tools, other.state, other.files, "p1", "c1", 1).files == OneFile("y")
  {
    hide Sound, ApplyNow;
    var st := ClashEnd().st;
    CreatesFile(tools, st, "p1", "c1", "a1", 'x');
    MeetsFile(tools, WithStatus(st, "p1", IsApplied), "p2", "c2", "a2", 'y', 'x');
    CreatesFile(tools, st, "p2", "c2", "a2", 'y');
    MeetsFile(tools, WithStatus(st, "p2", IsApplied), "p1", "c1", "a1", 'x', 'y');
  }

  lemma FirstStep(tools: Tools, capacity: nat, team: Team, op: TeamOp, more: seq<TeamOp>)
    requires Sound(tools)
    ensures TeamRun(tools, capacity, team, [op] + more) == TeamRun(tools, capacity, TeamNext(tools, capacity, team, op), more)
    ensures TeamAlwaysFresh(tools, capacity, team, [op] + more) <==>
            TeamFresh(team, op) && TeamAlwaysFresh(tools, capacity, TeamNext(tools, capacity, team, op), more)
  {
    hide Sound, TeamNext, TeamFresh;
    assert ([op] + more)[1..] == more;
  }

  lemma ClashTeam(tools: Tools, capacity: nat)
    requires Sound(tools) && capacity > 0
    ensures TeamAlwaysFresh(tools, capacity, NewTeam(map[]), ClashOps())
    ensures TeamRun(tools, capacity, NewTeam(map[]), ClashOps()) ==
            Team(OneRecord(tools, "a2", Completed), ClashEnd(), {"a1"} + {"a2"})
  {
    var start := NewTeam(map[]);
    var sys := Proposed(Boxed(Empty(map[]), "a1"), "a1", "p1", "x");
    var finished := Team(OneRecord(tools, "a1", Completed), sys, {"a1"});
    var closed := Team(CoordState(map[], map[], false), sys, {"a1"});
    var close := TeamClose("a1", false, NoFault);
    var second := Lifetime("a2", "p2", "y");
    assert start.agents + {"a1"} == {"a1"};
    assert IsPending(sys.st.proposals["p1"], "a1");
    hide Sound, TeamNext, OneRecord, CloseAgentStep, TeamRun, TeamAlwaysFresh, Lifetime, IsPending;
    LivesOnce(tools, capacity, start, "a1", "p1", 'x');
    RefusesClose(tools, capacity, sys, {"a1"}, "a1", "p1");
    LivesOnce(tools, capacity, closed, "a2", "p2", 'y');
    hide Proposed, Boxed;
    RunAppend(tools, capacity, start, Lifetime("a1", "p1", "x"), [close] + second);
    FirstStep(tools, capacity, finished, close, second);
  }

  lemma ClashProposals(tools: Tools)
    ensures ClashEnd().st.proposals == map["p1" := OneProposal("a1", "x"), "p2" := OneProposal("a2", "y")]
    ensures "a1" !in OneRecord(tools, "a2", Completed).records && "a2" in OneRecord(tools, "a2", Completed).records
  {
    hide AgentName;
  }

  /** From a fresh team: a worker proposes a file, closing it is refused, and yet a second
      worker is spawned on the same path and proposes the same file. Both proposals are then
      ready, and which of them is applied first decides the file. */
  lemma ClashRun(tools: Tools, capacity: nat)
    requires Sound(tools) && capacity > 0
    ensures TeamAlwaysFresh(tools, capacity, NewTeam(map[]), ClashOps())
    ensures
      var team := TeamRun(tools, capacity, NewTeam(map[]), ClashOps());
      var (st, files) := (team.sys.st, team.sys.files);
      && "a1" !in team.coord.records && "a2" in team.coord.records
      && st.proposals == map["p1" := OneProposal("a1", "x"), "p2" := OneProposal("a2", "y")]
      && var first := ApplyNow(tools, st, files, "p1", "c1", 1);
         var other := ApplyNow(tools, st, files, "p2", "c2", 1);
         && ApplyNow(tools, first.state, first.files, "p2", "c2", 1).files == OneFile("x")
         && ApplyNow(tools, other.state, other.files, "p1", "c1", 1).files == OneFile("y")
  {
    hide *;
    ClashTeam(tools, capacity);
    ClashProposals(tools);
    ClashApplies(tools);
  }
}
