/**
  The agent coordinator: its records and names, spawning with the worker ownership check,
  and closing, as methods equal to step functions; and the runs of a coordinator with its
  proposal store. What ownership buys is proved in `Ownership`, what closing does to
  pending proposals in `CloseLaws`.
 */
module Coordinator {
  import opened Wrappers
  import opened PyStrings
  import opened Paths
  import opened WorkspaceFiles
  import opened Proposals
  import opened ProposalStore
  import opened ProposalRuns

  datatype Role = Explorer | TestDesigner | Reviewer | Verifier | Worker

  datatype AgentState = Queued | Running | Completed | Blocked | Failed | Interrupted

  datatype AgentRecord = AgentRecord(name: string, role: Role, allowed: seq<Path>, state: AgentState)

  datatype CoordState = CoordState(records: map<Id, AgentRecord>, names: map<string, Id>, closed: bool)

  datatype SpawnError =
    | NameRequired | BadPath | UnknownRole | TaskRequired | PathsRequired | UnknownIntensity | TurnCancelled
    | BadForkTurns | CoordinatorClosed | AtCapacity | NameInUse | PathsOverlapOpenWorker | SubmitFailed

  function ParseRole(role: string): Option<Role> {
    match role
    case "explorer" => Some(Explorer)
    case "test_designer" => Some(TestDesigner)
    case "reviewer" => Some(Reviewer)
    case "verifier" => Some(Verifier)
    case "worker" => Some(Worker)
    case _ => None
  }

  /** All of the raw paths, or nothing when one of them leaves the workspace. */
  function NormalizeAllRel(raws: seq<RawPath>): Option<seq<Path>> {
    if raws == [] then Some([])
    else
      match (NormalizeRel(raws[0]), NormalizeAllRel(raws[1..]))
      case (Ok(p), Some(ps)) => Some([p] + ps)
      case _ => None
  }

  datatype ForkTurns = ForkCount(n: int) | ForkText(text: string)

  /** The arguments of `spawn`, what the caller's token says before and under the lock, and
      whether handing the new record to the executor raises. */
  datatype SpawnRequest = SpawnRequest(
    name: string, role: string, task: string, paths: seq<RawPath>, intensity: Option<string>, fork: ForkTurns,
    cancelled: bool, cancelledLate: bool, submitFails: bool)

  /** `_agent_name`: at most 48 letters, digits, "_" and "-". */
  function AgentName(tools: Tools, raw: string): string {
    var text := Strip(raw);
    var clean := seq(|text|, i requires 0 <= i < |text| =>
                              if tools.isAlnum(text[i]) || text[i] in {'_', '-'} then text[i] else '_');
    if |clean| > 48 then clean[..48] else clean
  }

  /** A name keeps the first 48 characters of its stripped text, with "_" for every character
      that is not a letter, a digit, "_" or "-". */
  lemma AgentNameExactly(tools: Tools, raw: string)
    ensures
      var (text, name) := (Strip(raw), AgentName(tools, raw));
      && |name| == (if |text| < 48 then |text| else 48)
      && forall i :: 0 <= i < |name| ==>
           name[i] == if tools.isAlnum(text[i]) || text[i] == '_' || text[i] == '-' then text[i] else '_'
  {
  }

  /** `int(text)`, where every character has a digit value. */
  function Number(tools: Tools, text: string): Option<nat> {
    if text == "" then Some(0)
    else
      match (Number(tools, text[..|text| - 1]), tools.digit(text[|text| - 1]))
      case (Some(n), Some(d)) => Some(10 * n + d)
      case _ => None
  }

  /** `_normalize_fork_turns` accepts "none", "all", and the numbers from 1 to 5. */
  predicate ForkOk(tools: Tools, fork: ForkTurns) {
    match fork
    case ForkCount(n) => 1 <= n <= 5
    case ForkText(raw) =>
      var text := Lower(Strip(raw));
      var n := Number(tools, text);
      raw == "" || text in {"none", "all"} || (text != "" && n.Some? && 1 <= n.value <= 5)
  }

  predicate ListsOverlap(lefts: seq<Path>, rights: seq<Path>) {
    exists l, r :: l in lefts && r in rights && PathsOverlap(l, r)
  }

  predicate OwnershipClash(records: map<Id, AgentRecord>, paths: seq<Path>) {
    exists id :: id in records && records[id].role == Worker && ListsOverlap(paths, records[id].allowed)
  }

  /** The checks of `spawn` before the lock is taken: the clean name, role and paths. */
  function CheckRequest(tools: Tools, req: SpawnRequest): Result<(string, Role, seq<Path>), SpawnError> {
    var name := AgentName(tools, req.name);
    if name == "" then Err(NameRequired)
    else
      match NormalizeAllRel(req.paths)
      case None => Err(BadPath)
      case Some(paths) =>
        match ParseRole(Lower(Strip(req.role)))
        case None => Err(UnknownRole)
        case Some(role) =>
          if Strip(req.task) == "" then Err(TaskRequired)
          else if role == Worker && paths == [] then Err(PathsRequired)
          else if req.intensity.Some? && req.intensity.value !in {"fast", "normal", "hard", "max"} then Err(UnknownIntensity)
          else if req.cancelled then Err(TurnCancelled)
          else if !ForkOk(tools, req.fork) then Err(BadForkTurns)
          else Ok((name, role, paths))
  }

  /** A record that could not be handed to the executor stays registered all the same. */
  function SpawnStep(tools: Tools, capacity: nat, st: CoordState, id: Id, req: SpawnRequest)
    : (CoordState, Result<Id, SpawnError>)
  {
    match CheckRequest(tools, req)
    case Err(e) => (st, Err(e))
    case Ok((name, role, paths)) =>
      if st.closed then (st, Err(CoordinatorClosed))
      else if |st.records| >= capacity then (st, Err(AtCapacity))
      else if name in st.names then (st, Err(NameInUse))
      else if role == Worker && OwnershipClash(st.records, paths) then (st, Err(PathsOverlapOpenWorker))
      else if req.cancelledLate then (st, Err(TurnCancelled))
      else
        (st.(records := st.records[id := AgentRecord(name, role, paths, Queued)], names := st.names[name := id]),
         if req.submitFails then Err(SubmitFailed) else Ok(id))
  }

  /** A spawn succeeds exactly for a named, known role with a task and relative paths, with
      some path for a worker, an accepted intensity and fork range, before its turn is
      cancelled, in an open coordinator that has room, a free name, and no open worker that
      owns an overlapping path; and if the run can be started. It adds the one record. */
  lemma SpawnExactly(tools: Tools, capacity: nat, st: CoordState, id: Id, req: SpawnRequest)
    ensures
      var (st', r) := SpawnStep(tools, capacity, st, id, req);
      var (name, role, paths) := (AgentName(tools, req.name), ParseRole(Lower(Strip(req.role))), NormalizeAllRel(req.paths));
      var accepted :=
        && name != "" && role.Some? && paths.Some? && Strip(req.task) != "" && (role == Some(Worker) ==> paths.value != [])
        && (req.intensity.Some? ==> req.intensity.value in {"fast", "normal", "hard", "max"})
        && !req.cancelled && !req.cancelledLate && ForkOk(tools, req.fork)
        && !st.closed && |st.records| < capacity && name !in st.names
        && (role == Some(Worker) ==> forall other :: other in st.records && st.records[other].role == Worker ==>
              !ListsOverlap(paths.value, st.records[other].allowed));
      && (r == Ok(id) <==> accepted && !req.submitFails) && (r.Ok? ==> r.value == id)
      && (r == Err(SubmitFailed) <==> accepted && req.submitFails)
      && (!accepted ==> st' == st)
      && (accepted ==>
            && st'.records == st.records[id := AgentRecord(name, role.value, paths.value, Queued)]
            && st'.names == st.names[name := id] && st'.closed == st.closed)
  {
    hide AgentName, ParseRole, Lower, Strip, NormalizeAllRel, ForkOk, ListsOverlap;
  }

  predicate IsActive(state: AgentState) { state == Queued || state == Running }

  datatype CloseError = UnknownAgent | StillRunning | ProposalPending | CleanupFailed

  /** What raises besides the store: closing the conversation or publishing its outputs,
      before the store is asked, or closing the conversation once more after it. */
  datatype CloseFault = NoFault | BeforeStore | AfterStore

  /** `_record` finds an agent by name or by id. */
  function Resolve(st: CoordState, key: string): Id {
    if key in st.names then st.names[key] else key
  }

  predicate CanClose(st: CoordState, key: string) {
    var id := Resolve(st, key);
    id in st.records && !IsActive(st.records[id].state)
  }

  function WithoutRecord(st: CoordState, id: Id): CoordState
    requires id in st.records
  {
    st.(records := st.records - {id}, names := st.names - {st.records[id].name})
  }

  /** `close_agent`: the record and its name go first, the proposal store is asked after. */
  function CloseAgentStep(st: CoordState, store: StoreState, key: string, discard: bool, fault: CloseFault)
    : (CoordState, StoreState, Result<Id, CloseError>)
  {
    var id := Resolve(st, key);
    if id !in st.records then (st, store, Err(UnknownAgent))
    else if IsActive(st.records[id].state) then (st, store, Err(StillRunning))
    else if fault.BeforeStore? then (WithoutRecord(st, id), store, Err(CleanupFailed))
    else
      var (store', outcome) := CloseStep(store, id, discard);
      (WithoutRecord(st, id), store',
       if outcome.Pending? then Err(ProposalPending) else if fault.AfterStore? then Err(CleanupFailed) else Ok(id))
  }

  // ---------------------------------------------------------------------------------
  // Suspension
  // ---------------------------------------------------------------------------------

  /** What `export_state` writes for one agent. */
  type Saved = (Id, AgentRecord)

  predicate AnyActive(records: map<Id, AgentRecord>) {
    exists id :: id in records && IsActive(records[id].state)
  }

  predicate Lists(entries: seq<Saved>, id: Id) {
    exists k :: 0 <= k < |entries| && entries[k].0 == id
  }

  predicate RecordsOf(records: map<Id, AgentRecord>, entries: seq<Saved>) {
    forall k :: 0 <= k < |entries| ==> entries[k].0 in records && entries[k].1 == records[entries[k].0]
  }

  /** Every record, in any order. */
  ghost predicate IsExport(records: map<Id, AgentRecord>, entries: seq<Saved>) {
    RecordsOf(records, entries) && forall id :: id in records ==> Lists(entries, id)
  }

  /** `import_state`: one entry after the other, without any check. */
  function Imported(st: CoordState, entries: seq<Saved>): CoordState {
    if entries == [] then st
    else
      var (id, record) := entries[|entries| - 1];
      var before := Imported(st, entries[..|entries| - 1]);
      before.(records := before.records[id := record], names := before.names[record.name := id])
  }

  /** Names and records point at each other. */
  ghost predicate Named(st: CoordState) {
    && (forall id :: id in st.records ==> st.records[id].name in st.names && st.names[st.records[id].name] == id)
    && (forall name :: name in st.names ==> st.names[name] in st.records && st.records[st.names[name]].name == name)
  }

  lemma {:induction false} ImportedPart(st: CoordState, entries: seq<Saved>, id: Id, name: string)
    requires Named(st) && RecordsOf(st.records, entries)
    ensures
      var part := Imported(CoordState(map[], map[], false), entries);
      && !part.closed && (id in part.records <==> Lists(entries, id))
      && (id in part.records ==> id in st.records && part.records[id] == st.records[id])
      && (name in part.names <==> name in st.names && Lists(entries, st.names[name]))
      && (name in part.names ==> part.names[name] == st.names[name])
    decreases |entries|
  {
    if entries != [] {
      var n := |entries| - 1;
      var (front, last) := (entries[..n], entries[n]);
      ImportedPart(st, front, id, name);
      assert forall other :: Lists(entries, other) <==> Lists(front, other) || other == last.0 by {
        assert entries == front + [last];
        assert forall k :: 0 <= k < n ==> entries[k] == front[k];
      }
      assert st.records[last.0] == last.1;
      hide Lists, Imported;
      assert Imported(CoordState(map[], map[], false), entries) ==
        var before := Imported(CoordState(map[], map[], false), front);
        before.(records := before.records[last.0 := last.1], names := before.names[last.1.name := last.0]) by {
        ImportedLast(CoordState(map[], map[], false), entries);
      }
    }
  }

  lemma ImportedLast(st: CoordState, entries: seq<Saved>)
    requires entries != []
    ensures
      var (front, last) := (entries[..|entries| - 1], entries[|entries| - 1]);
      Imported(st, entries) ==
      Imported(st, front).(records := Imported(st, front).records[last.0 := last.1],
                           names := Imported(st, front).names[last.1.name := last.0])
  {
  }

  /** A new coordinator that imports an export, in whatever order it was written, has the
      records and the names of the exporting one. */
  lemma ExportImports(st: CoordState, entries: seq<Saved>)
    requires Named(st) && IsExport(st.records, entries)
    ensures Imported(CoordState(map[], map[], false), entries) == st.(closed := false)
  {
    var part := Imported(CoordState(map[], map[], false), entries);
    forall id, name ensures id in part.records <==> id in st.records
                    ensures id in part.records ==> part.records[id] == st.records[id]
                    ensures name in part.names <==> name in st.names
                    ensures name in part.names ==> part.names[name] == st.names[name] {
      ImportedPart(st, entries, id, name);
    }
    assert part.records == st.records && part.names == st.names;
    ImportedPart(st, entries, "", "");
  }

  /** A close succeeds exactly for a known agent that is not active, without a clean-up
      failure, and with its changes discarded or nothing pending; then record, name and what
      the store kept of the agent are gone. */
  lemma CloseAgentExactly(st: CoordState, store: StoreState, key: string, discard: bool, fault: CloseFault)
    ensures
      var (st', store', r) := CloseAgentStep(st, store, key, discard, fault);
      var id := if key in st.names then st.names[key] else key;
      && (r.Ok? <==>
            && id in st.records && st.records[id].state !in {Queued, Running} && fault == NoFault
            && (discard || forall pid :: pid in store.proposals ==> !IsPending(store.proposals[pid], id)))
      && (r.Ok? ==>
            && r.value == id && st'.records == st.records - {id} && st'.names == st.names - {st.records[id].name}
            && st'.closed == st.closed && (store', Outcome.Closed) == CloseStep(store, id, discard))
  {
  }

  class AgentCoordinator {
    const tools: Tools
    const capacity: nat
    const changes: ChangeProposalStore
    var records: map<Id, AgentRecord>
    var names: map<string, Id>
    var closed: bool

    ghost function State(): CoordState
      reads this
    {
      CoordState(records, names, closed)
    }

    constructor (tools: Tools, capacity: nat)
      ensures State() == CoordState(map[], map[], false) && this.tools == tools && this.capacity == capacity
      ensures fresh(changes) && changes.State() == StoreState({}, map[], map[])
    {
      this.tools, this.capacity := tools, capacity;
      records, names, closed := map[], map[], false;
      changes := new ChangeProposalStore();
    }

    /** `_check_worker_ownership`: the loop over the open records, in any order. */
    method CheckWorkerOwnership(paths: seq<Path>) returns (clash: bool)
      ensures clash == OwnershipClash(records, paths)
    {
      var rest := records.Keys;
      while rest != {}
        invariant rest <= records.Keys
        invariant forall id :: id in records && id !in rest && records[id].role == Worker ==> !ListsOverlap(paths, records[id].allowed)
        decreases rest
      {
        var id :| id in rest;
        rest := rest - {id};
        if records[id].role == Worker && ListsOverlap(paths, records[id].allowed) {
          return true;
        }
      }
      return false;
    }

    method Spawn(id: Id, req: SpawnRequest) returns (result: Result<Id, SpawnError>)
      modifies this
      ensures (State(), result) == SpawnStep(tools, capacity, old(State()), id, req)
    {
      match CheckRequest(tools, req) {
        case Err(e) => return Err(e);
        case Ok((name, role, paths)) =>
          if closed {
            return Err(CoordinatorClosed);
          }
          if |records| >= capacity {
            return Err(AtCapacity);
          }
          if name in names {
            return Err(NameInUse);
          }
          if role == Worker {
            var clash := CheckWorkerOwnership(paths);
            if clash {
              return Err(PathsOverlapOpenWorker);
            }
          }
          if req.cancelledLate {
            return Err(TurnCancelled);
          }
          records := records[id := AgentRecord(name, role, paths, Queued)];
          names := names[name := id];
          if req.submitFails {
            return Err(SubmitFailed);
          }
          return Ok(id);
      }
    }

    method CloseAgent(key: string, discard: bool, fault: CloseFault) returns (result: Result<Id, CloseError>)
      modifies this, changes
      ensures (State(), changes.State(), result) ==
              CloseAgentStep(old(State()), old(changes.State()), key, discard, fault)
    {
      var id := if key in names then names[key] else key;
      if id !in records {
        return Err(UnknownAgent);
      }
      if IsActive(records[id].state) {
        return Err(StillRunning);
      }
      names := names - {records[id].name};
      records := records - {id};
      if fault == BeforeStore {
        return Err(CleanupFailed);
      }
      var outcome := changes.CloseAgent(id, discard);
      if outcome == Outcome.Pending {
        return Err(ProposalPending);
      }
      if fault == AfterStore {
        return Err(CleanupFailed);
      }
      return Ok(id);
    }

    /** `export_state`: refused while an agent is active. */
    method ExportState() returns (result: Option<seq<Saved>>)
      ensures result.None? <==> AnyActive(records)
      ensures result.Some? ==> IsExport(records, result.value) && |result.value| == |records|
    {
      var rest, entries: seq<Saved> := records.Keys, [];
      while rest != {}
        invariant rest <= records.Keys && RecordsOf(records, entries) && |entries| + |rest| == |records.Keys|
        invariant forall id :: id in records && id !in rest ==> !IsActive(records[id].state) && Lists(entries, id)
        decreases rest
      {
        var id :| id in rest;
        if IsActive(records[id].state) {
          return None;
        }
        ghost var before := entries;
        entries := entries + [(id, records[id])];
        assert entries[|before|].0 == id;
        forall other | Lists(before, other) ensures Lists(entries, other) {
          var k :| 0 <= k < |before| && before[k].0 == other;
          assert entries[k].0 == other;
        }
        rest := rest - {id};
      }
      return Some(entries);
    }

    /** `import_state`: refused by a closed coordinator. */
    method ImportState(entries: seq<Saved>) returns (imported: bool)
      modifies this`records, this`names
      ensures imported == !closed
      ensures State() == if imported then Imported(old(State()), entries) else old(State())
    {
      if closed {
        return false;
      }
      for k := 0 to |entries|
        invariant State() == Imported(old(State()), entries[..k])
      {
        var (id, record) := entries[k];
        records := records[id := record];
        names := names[record.name := id];
        assert entries[..k + 1][..k] == entries[..k];
      }
      assert entries[..|entries|] == entries;
      return true;
    }
  }

  // ---------------------------------------------------------------------------------
  // Runs of the coordinator and its store
  // ---------------------------------------------------------------------------------

  /** The coordinator, its store and workspace, and every agent id handed out so far. */
  datatype Team = Team(coord: CoordState, sys: System, agents: set<Id>)

  datatype TeamOp =
    | TeamSpawn(id: Id, req: SpawnRequest)
    | TeamState(id: Id, state: AgentState)
    | TeamFinalize(pid: Id, id: Id, before: Files, after: Files)
    | TeamClose(key: string, discard: bool, fault: CloseFault)
    | TeamStore(op: Op)
    | TeamSuspend(entries: seq<Saved>)

  predicate TeamFresh(team: Team, op: TeamOp) {
    match op
    case TeamSpawn(id, _) => id !in team.agents
    case TeamFinalize(pid, _, _, _) => pid !in team.sys.known
    case TeamStore(inner) => FreshIds(team.sys, inner)
    case _ => true
  }

  /** Proposals are finalized by the agent's own run, with the record's allowed paths, and
      closed only together with the record; the other store calls come from anyone. */
  predicate StoreCall(op: Op) {
    op.OpSandbox? || op.OpApply? || op.OpResolve? || op.OpExternal?
  }

  /** `_suspend_blocker`: neither an undecided proposal, nor an open conflict, nor a running
      agent. What is decided goes with the session; the agents come back with the next one. */
  ghost predicate MaySuspend(team: Team) {
    && (forall pid :: pid in team.sys.st.proposals ==> team.sys.st.proposals[pid].status !in {Ready, InConflict})
    && (forall cid :: cid in team.sys.st.conflicts ==> team.sys.st.conflicts[cid].status != Open)
    && !AnyActive(team.coord.records)
  }

  ghost function TeamNext(tools: Tools, capacity: nat, team: Team, op: TeamOp): Team
    requires Sound(tools)
  {
    match op
    case TeamSpawn(id, req) =>
      team.(coord := SpawnStep(tools, capacity, team.coord, id, req).0, agents := team.agents + {id})
    case TeamState(id, state) =>
      if id in team.coord.records then
        team.(coord := team.coord.(records := team.coord.records[id := team.coord.records[id].(state := state)]))
      else team
    case TeamFinalize(pid, id, before, after) =>
      if id in team.coord.records && team.coord.records[id].role == Worker then
        team.(sys := Next(tools, team.sys, OpFinalize(pid, id, before, after, team.coord.records[id].allowed)))
      else team
    case TeamClose(key, discard, fault) =>
      var (coord, store, _) := CloseAgentStep(team.coord, team.sys.st, key, discard, fault);
      team.(coord := coord, sys := team.sys.(st := store))
    case TeamStore(inner) => if StoreCall(inner) then team.(sys := Next(tools, team.sys, inner)) else team
    case TeamSuspend(entries) =>
      if MaySuspend(team) && IsExport(team.coord.records, entries) then
        team.(coord := Imported(CoordState(map[], map[], false), entries), sys := team.sys.(st := StoreState({}, map[], map[])))
      else team
  }

  ghost predicate CoordInv(capacity: nat, st: CoordState) {
    && |st.records| <= capacity && Named(st)
    && (forall i, j :: i in st.records && j in st.records && i != j && st.records[i].role == Worker && st.records[j].role == Worker ==>
          !ListsOverlap(st.records[i].allowed, st.records[j].allowed))
  }

  ghost predicate EntriesAllowed(p: ChangeProposal, record: AgentRecord) {
    record.role == Worker && forall e :: e in p.entries ==> PathAllowed(e.path, record.allowed)
  }

  ghost predicate TeamInv(capacity: nat, team: Team) {
    && CoordInv(capacity, team.coord)
    && team.coord.records.Keys <= team.agents
    && (forall pid :: pid in team.sys.st.proposals ==> team.sys.st.proposals[pid].agent in team.agents)
    && (forall pid :: pid in team.sys.st.proposals && team.sys.st.proposals[pid].agent in team.coord.records ==>
          EntriesAllowed(team.sys.st.proposals[pid], team.coord.records[team.sys.st.proposals[pid].agent]))
  }
}
