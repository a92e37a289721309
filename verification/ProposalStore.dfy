/**
  `ChangeProposalStore`: finalize, apply, resolve and close_agent as methods that update the
  proposal and conflict dictionaries, each equal to a step function on `StoreState`.
 */
module ProposalStore {
  import opened Wrappers
  import opened Paths
  import opened WorkspaceFiles
  import opened Proposals

  datatype Outcome =
    | Finalized
    | UnknownId
    | WrongStatus
    | ReadFailed
    | FoundConflict(paths: set<Path>)
    | WrongPaths
    | WentStale(path: Path)
    | NotWritten(why: WriteOutcome)
    | Applied(changes: map<Path, string>)
    | Pending
    | Closed

  datatype Reading = Missing | Content(text: string) | Unreadable

  /** `read_bytes`, `decode`, and the CRLF replacement. */
  function Read(data: Option<FileData>): Reading {
    if data.None? then Missing
    else if data.value.Undecodable? then Unreadable
    else Content(NormalizeNewlines(data.value.raw))
  }

  function ReadText(r: Reading): Option<string> {
    if r.Content? then Some(r.text) else None
  }

  // ---------------------------------------------------------------------------------
  // The loop of `apply`
  // ---------------------------------------------------------------------------------

  datatype Plan = PlanFailed | Plan(
    merged: map<Path, string>,
    conflicts: map<Path, ConflictFile>,
    observed: seq<(Path, Option<string>)>,
    expected: map<Path, Option<FileData>>)

  /** Reading and merging the entries in order; `seen` is what each read returned. */
  ghost function PlanFor(tools: Tools, entries: seq<ChangeEntry>, seen: Path -> Option<FileData>): Plan
    requires Sound(tools)
  {
    if entries == [] then Plan(map[], map[], [], map[])
    else
      var p := PlanFor(tools, entries[..|entries| - 1], seen);
      var e := entries[|entries| - 1];
      if p.PlanFailed? || Read(seen(e.path)).Unreadable? then PlanFailed
      else PlanStep(tools, p, e, seen)
  }

  ghost function PlanStep(tools: Tools, p: Plan, e: ChangeEntry, seen: Path -> Option<FileData>): Plan
    requires Sound(tools) && p.Plan?
  {
    var current := ReadText(Read(seen(e.path)));
    var q := p.(observed := p.observed + [(e.path, current)], expected := p.expected[e.path := seen(e.path)]);
    match EntryResult(tools, e, current)
    case Take(text) => q.(merged := q.merged[e.path := text])
    case Clash(file) => q.(conflicts := q.conflicts[e.path := file])
    case MergeFailed => PlanFailed
  }

  // ---------------------------------------------------------------------------------
  // Step functions
  // ---------------------------------------------------------------------------------

  datatype StepResult = StepResult(state: StoreState, files: Files, outcome: Outcome)

  ghost function FinalizeStep(tools: Tools, st: StoreState, pid: Id, agent: Id, before: Files, after: Files, allowed: seq<Path>)
    : (StoreState, Outcome)
  {
    if agent !in st.sandboxes then (st, UnknownId)
    else
      var paths := tools.order(before.Keys + after.Keys);
      var invalid := CollectReasons(before, after, allowed, paths);
      var proposal := ChangeProposal(agent, CollectEntries(before, after, allowed, paths), invalid,
                                     if invalid != [] then Invalid else Ready);
      (st.(proposals := st.proposals[pid := proposal]), Finalized)
  }

  ghost function ApplyStep(tools: Tools, st: StoreState, files: Files, pid: Id, cid: Id,
                           seen: Path -> Option<FileData>, failAt: nat): StepResult
    requires Sound(tools)
  {
    if pid !in st.proposals then StepResult(st, files, UnknownId)
    else
      var p := st.proposals[pid];
      var plan := PlanFor(tools, p.entries, seen);
      if p.status != Ready then StepResult(st, files, WrongStatus)
      else if plan.PlanFailed? then StepResult(st, files, ReadFailed)
      else if plan.conflicts != map[] then
        StepResult(st.(conflicts := st.conflicts[cid := ConflictSet(pid, plan.observed, plan.merged, plan.conflicts, Open)],
                       proposals := st.proposals[pid := p.(status := InConflict)]),
                   files, FoundConflict(plan.conflicts.Keys))
      else
        var why := BatchOutcome(files, plan.merged, plan.expected, failAt < |tools.order(plan.merged.Keys)|);
        if !why.Written? then StepResult(st, files, NotWritten(why))
        else StepResult(st.(proposals := st.proposals[pid := p.(status := IsApplied)]),
                        files + AsText(plan.merged), Applied(plan.merged))
  }

  datatype Staleness = Current | Changed(path: Path) | CannotRead

  /** The first observed file that cannot be read or no longer has the observed text. */
  function CheckObserved(observed: seq<(Path, Option<string>)>, seen: Path -> Option<FileData>): Staleness {
    if observed == [] then Current
    else
      var (path, text) := observed[0];
      var r := Read(seen(path));
      if r.Unreadable? then CannotRead
      else if ReadText(r) != text then Changed(path)
      else CheckObserved(observed[1..], seen)
  }

  function ExpectedFor(observed: seq<(Path, Option<string>)>, seen: Path -> Option<FileData>): map<Path, Option<FileData>> {
    map o | o in observed :: o.0 := seen(o.0)
  }

  /** The conflict gets its status before its proposal is looked up, which raises when the
      proposal is gone; in a run it never is. */
  function SettledResult(st: StoreState, files: Files, cid: Id, status: ConflictStatus, next: ProposalStatus, outcome: Outcome)
    : StepResult
    requires cid in st.conflicts
  {
    var c := st.conflicts[cid];
    var marked := st.(conflicts := st.conflicts[cid := c.(status := status)]);
    if c.proposal !in st.proposals then StepResult(marked, files, UnknownId)
    else StepResult(marked.(proposals := st.proposals[c.proposal := st.proposals[c.proposal].(status := next)]), files, outcome)
  }

  ghost function ResolveStep(tools: Tools, st: StoreState, files: Files, cid: Id, resolutions: map<Path, string>,
                             seen: Path -> Option<FileData>, failAt: nat): StepResult
  {
    if cid !in st.conflicts then StepResult(st, files, UnknownId)
    else
      var c := st.conflicts[cid];
      if c.status != Open then StepResult(st, files, WrongStatus)
      else if resolutions.Keys != c.conflicts.Keys then StepResult(st, files, WrongPaths)
      else
        match CheckObserved(c.observed, seen)
        case CannotRead => StepResult(st, files, ReadFailed)
        case Changed(path) => SettledResult(st, files, cid, Stale, Ready, WentStale(path))
        case Current =>
          var changes := c.merged + resolutions;
          var why := BatchOutcome(files, changes, ExpectedFor(c.observed, seen), failAt < |tools.order(changes.Keys)|);
          if !why.Written? then StepResult(st, files, NotWritten(why))
          else SettledResult(st, files + AsText(changes), cid, Resolved, IsApplied, Applied(changes))
  }

  predicate IsPending(p: ChangeProposal, agent: Id) {
    p.agent == agent && p.status in {Ready, InConflict}
  }

  function CloseStep(st: StoreState, agent: Id, discard: bool): (StoreState, Outcome) {
    if !discard && (exists pid :: pid in st.proposals && IsPending(st.proposals[pid], agent)) then (st, Pending)
    else
      var gone := set pid | pid in st.proposals && st.proposals[pid].agent == agent;
      (StoreState(st.sandboxes - {agent},
                  map pid | pid in st.proposals && pid !in gone :: st.proposals[pid],
                  map cid | cid in st.conflicts && st.conflicts[cid].proposal !in gone :: st.conflicts[cid]),
       Closed)
  }

  // ---------------------------------------------------------------------------------
  // The class
  // ---------------------------------------------------------------------------------

  class ChangeProposalStore {
    var sandboxes: set<Id>
    var proposals: map<Id, ChangeProposal>
    var conflicts: map<Id, ConflictSet>

    ghost function State(): StoreState
      reads this
    {
      StoreState(sandboxes, proposals, conflicts)
    }

    constructor ()
      ensures State() == StoreState({}, map[], map[])
    {
      sandboxes, proposals, conflicts := {}, map[], map[];
    }

    method CreateSandbox(agent: Id)
      modifies this
      ensures State() == old(State()).(sandboxes := old(sandboxes) + {agent})
    {
      sandboxes := sandboxes + {agent};
    }

    /** `before` and `after` are the two directories of the agent's sandbox. */
    method Finalize(tools: Tools, pid: Id, agent: Id, before: Files, after: Files, allowed: seq<Path>)
      returns (outcome: Outcome)
      modifies this
      ensures (State(), outcome) == FinalizeStep(tools, old(State()), pid, agent, before, after, allowed)
    {
      if agent !in sandboxes {
        return UnknownId;
      }
      var entries, invalid := CollectChanges(before, after, allowed, tools.order(before.Keys + after.Keys));
      proposals := proposals[pid := ChangeProposal(agent, entries, invalid, if |invalid| > 0 then Invalid else Ready)];
      return Finalized;
    }

    /** The merge loop of `apply`: one pass over the entries, filling three dictionaries. */
    method Prepare(tools: Tools, entries: seq<ChangeEntry>, seen: Path -> Option<FileData>) returns (plan: Plan)
      requires Sound(tools)
      ensures plan == PlanFor(tools, entries, seen)
    {
      hide Sound, NormalizeNewlines, EntryResult;
      var merged: map<Path, string>, conflicting: map<Path, ConflictFile> := map[], map[];
      var observed: seq<(Path, Option<string>)>, expected: map<Path, Option<FileData>> := [], map[];
      for i := 0 to |entries|
        invariant Plan(merged, conflicting, observed, expected) == PlanFor(tools, entries[..i], seen)
      {
        assert entries[..i + 1][..i] == entries[..i];
        var e := entries[i];
        var data := seen(e.path);
        if Read(data).Unreadable? {
          PlanFailedStays(tools, entries, i + 1, seen);
          return PlanFailed;
        }
        var current := ReadText(Read(data));
        expected, observed := expected[e.path := data], observed + [(e.path, current)];
        var outcome := MergeEntry(tools, e, current);
        match outcome {
          case Take(text) => merged := merged[e.path := text];
          case Clash(file) => conflicting := conflicting[e.path := file];
          case MergeFailed =>
            PlanFailedStays(tools, entries, i + 1, seen);
            return PlanFailed;
        }
      }
      assert entries[..|entries|] == entries;
      return Plan(merged, conflicting, observed, expected);
    }

    method Apply(tools: Tools, ws: Workspace, pid: Id, cid: Id, seen: Path -> Option<FileData>, failAt: nat)
      returns (outcome: Outcome)
      requires Sound(tools)
      modifies this, ws
      ensures StepResult(State(), ws.files, outcome) ==
              ApplyStep(tools, old(State()), old(ws.files), pid, cid, seen, failAt)
    {
      if pid !in proposals {
        return UnknownId;
      }
      var proposal := proposals[pid];
      if proposal.status != Ready {
        return WrongStatus;
      }
      var plan := Prepare(tools, proposal.entries, seen);
      if plan.PlanFailed? {
        return ReadFailed;
      }
      if |plan.conflicts| > 0 {
        conflicts := conflicts[cid := ConflictSet(pid, plan.observed, plan.merged, plan.conflicts, Open)];
        proposals := proposals[pid := proposal.(status := InConflict)];
        return FoundConflict(plan.conflicts.Keys);
      }
      var why := ws.WriteTextBatch(plan.merged, plan.expected, tools.order(plan.merged.Keys), failAt);
      if !why.Written? {
        return NotWritten(why);
      }
      proposals := proposals[pid := proposal.(status := IsApplied)];
      return Applied(plan.merged);
    }

    /** The staleness loop of `resolve`. */
    method Recheck(observed: seq<(Path, Option<string>)>, seen: Path -> Option<FileData>) returns (s: Staleness)
      ensures s == CheckObserved(observed, seen)
    {
      for i := 0 to |observed|
        invariant CheckObserved(observed, seen) == CheckObserved(observed[i..], seen)
      {
        var (path, text) := observed[i];
        var r := Read(seen(path));
        if r.Unreadable? {
          return CannotRead;
        }
        if ReadText(r) != text {
          return Changed(path);
        }
      }
      return Current;
    }

    method Resolve(tools: Tools, ws: Workspace, cid: Id, resolutions: map<Path, string>, seen: Path -> Option<FileData>, failAt: nat)
      returns (outcome: Outcome)
      requires Sound(tools)
      modifies this, ws
      ensures StepResult(State(), ws.files, outcome) ==
              ResolveStep(tools, old(State()), old(ws.files), cid, resolutions, seen, failAt)
    {
      if cid !in conflicts {
        return UnknownId;
      }
      var conflict := conflicts[cid];
      if conflict.status != Open {
        return WrongStatus;
      }
      if resolutions.Keys != conflict.conflicts.Keys {
        return WrongPaths;
      }
      var s := Recheck(conflict.observed, seen);
      match s {
        case CannotRead =>
          return ReadFailed;
        case Changed(path) =>
          conflicts := conflicts[cid := conflict.(status := Stale)];
          if conflict.proposal !in proposals {
            return UnknownId;
          }
          proposals := proposals[conflict.proposal := proposals[conflict.proposal].(status := Ready)];
          return WentStale(path);
        case Current =>
          var changes := conflict.merged + resolutions;
          var why := ws.WriteTextBatch(changes, ExpectedFor(conflict.observed, seen), tools.order(changes.Keys), failAt);
          if !why.Written? {
            return NotWritten(why);
          }
          conflicts := conflicts[cid := conflict.(status := Resolved)];
          if conflict.proposal !in proposals {
            return UnknownId;
          }
          proposals := proposals[conflict.proposal := proposals[conflict.proposal].(status := IsApplied)];
          return Applied(changes);
      }
    }

    method CloseAgent(agent: Id, discard: bool) returns (outcome: Outcome)
      modifies this
      ensures (State(), outcome) == CloseStep(old(State()), agent, discard)
    {
      if !discard && exists pid :: pid in proposals && IsPending(proposals[pid], agent) {
        return Pending;
      }
      var gone := set pid | pid in proposals && proposals[pid].agent == agent;
      sandboxes := sandboxes - {agent};
      proposals := map pid | pid in proposals && pid !in gone :: proposals[pid];
      conflicts := map cid | cid in conflicts && conflicts[cid].proposal !in gone :: conflicts[cid];
      return Closed;
    }
  }

  /** Once an entry fails, the whole plan has failed. */
  lemma {:induction false} PlanFailedStays(tools: Tools, entries: seq<ChangeEntry>, i: nat, seen: Path -> Option<FileData>)
    requires Sound(tools) && i <= |entries| && PlanFor(tools, entries[..i], seen).PlanFailed?
    ensures PlanFor(tools, entries, seen).PlanFailed?
    decreases |entries| - i
  {
    if i == |entries| {
      assert entries[..i] == entries;
    } else {
      assert entries[..i + 1][..i] == entries[..i];
      PlanFailedStays(tools, entries, i + 1, seen);
    }
  }
}
