/**
  `FactTracker` and the observation list: generation counters stand for the log of counted
  mutations, and an observation is flagged when a later mutation overtook it.
 */
module Observations {
  import opened Wrappers

  type Path = string
  type ObservationId = nat

  datatype Mutation = WroteFile(path: Path) | ChangedWorkspace

  /** The generations that were current when the tool's result was recorded. */
  datatype Observation = Observation(id: ObservationId, files: map<Path, nat>, workspace: nat, stale: bool)

  const MAX_OBSERVATIONS: nat := 300

  function Generation(files: map<Path, nat>, path: Path): nat {
    if path in files then files[path] else 0
  }

  function IsStale(observation: Observation, files: map<Path, nat>, workspace: nat): bool {
    observation.workspace < workspace ||
    exists path :: path in observation.files && observation.files[path] < Generation(files, path)
  }

  // ---------------------------------------------------------------------------------
  // The log behind the counters
  // ---------------------------------------------------------------------------------

  function Count(log: seq<Mutation>, mutation: Mutation): nat {
    if log == [] then 0
    else Count(log[..|log| - 1], mutation) + if log[|log| - 1] == mutation then 1 else 0
  }

  /** A mutation of a file the observation saw, or of the workspace. */
  predicate Concerns(mutation: Mutation, observation: Observation) {
    mutation.ChangedWorkspace? || mutation.path in observation.files
  }

  /** Some mutation logged at or after `birth` concerns the observation. */
  predicate Overtaken(observation: Observation, log: seq<Mutation>, birth: nat) {
    exists j :: birth <= j < |log| && Concerns(log[j], observation)
  }

  lemma {:induction false} CountGrows(log: seq<Mutation>, birth: nat, mutation: Mutation)
    requires birth <= |log|
    ensures Count(log[..birth], mutation) <= Count(log, mutation)
    ensures Count(log[..birth], mutation) < Count(log, mutation) <==> exists j :: birth <= j < |log| && log[j] == mutation
    decreases |log|
  {
    if birth == |log| {
      assert log[..birth] == log;
    } else {
      var front := log[..|log| - 1];
      CountGrows(front, birth, mutation);
      assert front[..birth] == log[..birth];
      if log[|log| - 1] == mutation {
        assert birth <= |log| - 1 < |log| && log[|log| - 1] == mutation;
      }
      if exists j :: birth <= j < |front| && front[j] == mutation {
        var j :| birth <= j < |front| && front[j] == mutation;
        assert log[j] == mutation;
      }
      if exists j :: birth <= j < |log| && log[j] == mutation {
        var j :| birth <= j < |log| && log[j] == mutation;
        assert j < |front| ==> front[j] == mutation;
      }
    }
  }

  /** The counters are the numbers of logged mutations. */
  ghost predicate Counts(files: map<Path, nat>, workspace: nat, log: seq<Mutation>) {
    && workspace == Count(log, ChangedWorkspace)
    && forall path :: Generation(files, path) == Count(log, WroteFile(path))
  }

  /** The observation saw the counters as they stood after `birth` mutations. */
  ghost predicate Saw(observation: Observation, log: seq<Mutation>, birth: nat) {
    && birth <= |log| && observation.workspace == Count(log[..birth], ChangedWorkspace)
    && forall path :: path in observation.files ==> observation.files[path] == Count(log[..birth], WroteFile(path))
  }

  /** Comparing generations decides whether the observation was overtaken. */
  lemma StaleMeansOvertaken(observation: Observation, files: map<Path, nat>, workspace: nat, log: seq<Mutation>, birth: nat)
    requires Counts(files, workspace, log) && Saw(observation, log, birth)
    ensures IsStale(observation, files, workspace) <==> Overtaken(observation, log, birth)
  {
    CountGrows(log, birth, ChangedWorkspace);
    forall path | path in observation.files
      ensures observation.files[path] < Generation(files, path) <==> exists j :: birth <= j < |log| && log[j] == WroteFile(path)
    {
      CountGrows(log, birth, WroteFile(path));
    }
    if Overtaken(observation, log, birth) {
      var j :| birth <= j < |log| && Concerns(log[j], observation);
      assert log[j] == ChangedWorkspace || log[j] == WroteFile(log[j].path);
    }
    if IsStale(observation, files, workspace) {
      if observation.workspace < workspace {
        var j :| birth <= j < |log| && log[j] == ChangedWorkspace;
        assert Concerns(log[j], observation);
      } else {
        var path :| path in observation.files && observation.files[path] < Generation(files, path);
        var j :| birth <= j < |log| && log[j] == WroteFile(path);
        assert Concerns(log[j], observation);
      }
    }
  }

  // ---------------------------------------------------------------------------------
  // The tracker
  // ---------------------------------------------------------------------------------

  /** A flag is never wrong, and it is missing at most from the observation that the latest
      counted mutation itself produced. */
  ghost predicate Flagged(observation: Observation, log: seq<Mutation>, birth: nat, lastMutant: Option<ObservationId>) {
    && Saw(observation, log, birth)
    && (observation.stale ==> Overtaken(observation, log, birth))
    && (!observation.stale && Overtaken(observation, log, birth) ==> lastMutant == Some(observation.id))
  }

  ghost predicate AllFlagged(observations: seq<Observation>, log: seq<Mutation>, births: seq<nat>, lastMutant: Option<ObservationId>) {
    && |births| == |observations|
    && forall k :: 0 <= k < |observations| ==> Flagged(observations[k], log, births[k], lastMutant)
  }

  lemma StillSaw(observation: Observation, log: seq<Mutation>, mutation: Mutation, birth: nat)
    requires Saw(observation, log, birth)
    ensures Saw(observation, log + [mutation], birth)
    ensures Overtaken(observation, log, birth) ==> Overtaken(observation, log + [mutation], birth)
  {
    var more := log + [mutation];
    assert more[..birth] == log[..birth];
    if Overtaken(observation, log, birth) {
      var j :| birth <= j < |log| && Concerns(log[j], observation);
      assert more[j] == log[j];
    }
  }

  /** Before a new mutation: every observation also fits the longer log. */
  lemma OldFlagged(observations: seq<Observation>, log: seq<Mutation>, mutation: Mutation, births: seq<nat>, lastMutant: Option<ObservationId>)
    requires AllFlagged(observations, log, births, lastMutant)
    ensures |births| == |observations|
    ensures forall k :: 0 <= k < |observations| ==> Saw(observations[k], log + [mutation], births[k])
  {
    forall k | 0 <= k < |observations| ensures Saw(observations[k], log + [mutation], births[k]) {
      assert Flagged(observations[k], log, births[k], lastMutant);
      StillSaw(observations[k], log, mutation, births[k]);
    }
  }

  function Latest(observations: seq<Observation>): seq<Observation> {
    if |observations| > MAX_OBSERVATIONS then observations[|observations| - MAX_OBSERVATIONS..] else observations
  }

  function LatestBirths(births: seq<nat>): seq<nat> {
    if |births| > MAX_OBSERVATIONS then births[|births| - MAX_OBSERVATIONS..] else births
  }

  /** The observation with this id was not flagged before and is now. */
  predicate NewlyFlagged(before: seq<Observation>, after: seq<Observation>, id: ObservationId) {
    |before| == |after| && exists k :: 0 <= k < |after| && after[k].id == id && after[k].stale && !before[k].stale
  }

  lemma FlaggedNext(before: seq<Observation>, after: seq<Observation>, k: nat, ids: seq<ObservationId>)
    requires |before| == |after| && k < |after| && after[k] == before[k] && !after[k].stale
    requires forall id :: id in ids ==> NewlyFlagged(before, after, id)
    ensures forall id :: id in ids + [after[k].id] ==> NewlyFlagged(before, after[k := after[k].(stale := true)], id)
  {
    var more := after[k := after[k].(stale := true)];
    forall id | id in ids + [after[k].id] ensures NewlyFlagged(before, more, id) {
      if id in ids {
        var i :| 0 <= i < |after| && after[i].id == id && after[i].stale && !before[i].stale;
        assert more[i] == after[i];
      } else {
        assert more[k].id == id;
      }
    }
  }

  /** Nothing but the flag changes, and it is set exactly when the observation is overtaken
      and did not itself produce the mutation. */
  predicate Updated(before: Observation, after: Observation, log: seq<Mutation>, birth: nat, exclude: ObservationId) {
    after == before.(stale := before.stale || (before.id != exclude && Overtaken(before, log, birth)))
  }

  lemma CountMutation(files: map<Path, nat>, workspace: nat, log: seq<Mutation>, mutation: Mutation)
    requires Counts(files, workspace, log)
    ensures match mutation
            case WroteFile(path) => Counts(files[path := Generation(files, path) + 1], workspace, log + [mutation])
            case ChangedWorkspace => Counts(files, workspace + 1, log + [mutation])
  {
    assert (log + [mutation])[..|log|] == log;
    assert forall m :: Count(log + [mutation], m) == Count(log, m) + if m == mutation then 1 else 0;
  }

  lemma NewObservation(observations: seq<Observation>, observation: Observation, files: map<Path, nat>, workspace: nat,
                       log: seq<Mutation>, births: seq<nat>, lastMutant: Option<ObservationId>)
    requires Counts(files, workspace, log) && observation.workspace == workspace && !observation.stale
    requires forall p :: p in observation.files ==> observation.files[p] == Generation(files, p)
    requires AllFlagged(observations, log, births, lastMutant)
    ensures AllFlagged(observations + [observation], log, births + [|log|], lastMutant)
  {
    assert log[..|log|] == log;
    assert Flagged(observation, log, |log|, lastMutant);
    hide Flagged;
  }

  lemma LatestFlagged(observations: seq<Observation>, log: seq<Mutation>, births: seq<nat>, lastMutant: Option<ObservationId>)
    requires AllFlagged(observations, log, births, lastMutant)
    ensures AllFlagged(Latest(observations), log, LatestBirths(births), lastMutant)
  {
    hide Flagged;
  }

  lemma UpdatedFlagged(before: seq<Observation>, after: seq<Observation>, log: seq<Mutation>, mutation: Mutation, births: seq<nat>,
                       lastMutant: Option<ObservationId>, exclude: ObservationId)
    requires AllFlagged(before, log, births, lastMutant) && |after| == |before|
    requires forall k :: 0 <= k < |after| ==> Updated(before[k], after[k], log + [mutation], births[k], exclude)
    ensures AllFlagged(after, log + [mutation], births, Some(exclude))
  {
    forall k | 0 <= k < |after| ensures Flagged(after[k], log + [mutation], births[k], Some(exclude)) {
      assert Flagged(before[k], log, births[k], lastMutant);
      StillSaw(before[k], log, mutation, births[k]);
      assert Overtaken(after[k], log + [mutation], births[k]) == Overtaken(before[k], log + [mutation], births[k]) by {
        assert forall m :: Concerns(m, after[k]) == Concerns(m, before[k]);
      }
    }
  }

  class FactTracker {
    var fileGeneration: map<Path, nat>
    var workspaceGeneration: nat
    var observations: seq<Observation>
    var nextId: ObservationId
    /** Every counted mutation, and how many there were when each observation was made. */
    ghost var log: seq<Mutation>
    ghost var births: seq<nat>
    ghost var lastMutant: Option<ObservationId>

    constructor ()
      ensures Valid() && log == [] && observations == []
    {
      fileGeneration, workspaceGeneration, observations, nextId := map[], 0, [], 0;
      log, births, lastMutant := [], [], None;
    }

    ghost predicate Valid()
      reads this
    {
      && Counts(fileGeneration, workspaceGeneration, log)
      && AllFlagged(observations, log, births, lastMutant)
      && |observations| <= MAX_OBSERVATIONS
      && (forall k :: 0 <= k < |observations| ==> observations[k].id < nextId)
      && (lastMutant.Some? ==> lastMutant.value < nextId)
    }

    method ObservedFileGenerations(paths: seq<Path>) returns (files: map<Path, nat>)
      ensures files.Keys == set p | p in paths
      ensures forall p :: p in files ==> files[p] == Generation(fileGeneration, p)
    {
      files := map[];
      for k := 0 to |paths|
        invariant files.Keys == set p | p in paths[..k]
        invariant forall p :: p in files ==> files[p] == Generation(fileGeneration, p)
      {
        assert paths[..k + 1] == paths[..k] + [paths[k]];
        files := files[paths[k] := Generation(fileGeneration, paths[k])];
      }
      assert paths[..|paths|] == paths;
    }

    /** `ObservationStore.create`, with the generations of the files the tool names; only
        the latest observations are kept. */
    method Observe(paths: seq<Path>) returns (observation: Observation)
      requires Valid()
      modifies this
      ensures Valid() && log == old(log) && lastMutant == old(lastMutant)
      ensures observation.id == old(nextId) && !observation.stale && nextId == old(nextId) + 1
      ensures observation.files.Keys == set p | p in paths
      ensures forall p :: p in observation.files ==> observation.files[p] == Generation(fileGeneration, p)
      ensures observation.workspace == workspaceGeneration
      ensures observations == Latest(old(observations) + [observation])
      ensures fileGeneration == old(fileGeneration) && workspaceGeneration == old(workspaceGeneration)
    {
      var files := ObservedFileGenerations(paths);
      observation := Observation(nextId, files, workspaceGeneration, false);
      NewObservation(observations, observation, fileGeneration, workspaceGeneration, log, births, lastMutant);
      LatestFlagged(observations + [observation], log, births + [|log|], lastMutant);
      hide AllFlagged, Counts;
      nextId := nextId + 1;
      births := LatestBirths(births + [|log|]);
      observations := Latest(observations + [observation]);
    }

    /** The generation of what was changed goes up by one. */
    method Advance(mutation: Mutation)
      requires Counts(fileGeneration, workspaceGeneration, log)
      modifies this`fileGeneration, this`workspaceGeneration, this`log
      ensures log == old(log) + [mutation] && Counts(fileGeneration, workspaceGeneration, log)
    {
      CountMutation(fileGeneration, workspaceGeneration, log, mutation);
      hide Counts;
      match mutation {
        case WroteFile(path) => fileGeneration := fileGeneration[path := Generation(fileGeneration, path) + 1];
        case ChangedWorkspace => workspaceGeneration := workspaceGeneration + 1;
      }
      log := log + [mutation];
    }

    /** `apply_mutation` for a successful result: counts it, then flags what it overtook,
        except the observation it produced. */
    method ApplyMutation(mutation: Mutation, exclude: ObservationId) returns (staleIds: seq<ObservationId>)
      requires Valid() && exclude < nextId
      modifies this
      ensures Valid() && log == old(log) + [mutation] && lastMutant == Some(exclude)
      ensures births == old(births) && nextId == old(nextId)
      ensures |observations| == |old(observations)| == |births|
      ensures forall k :: 0 <= k < |observations| ==> Updated(old(observations)[k], observations[k], log, births[k], exclude)
      ensures forall k :: 0 <= k < |observations| && observations[k].stale && !old(observations)[k].stale ==>
                observations[k].id in staleIds
      ensures forall id :: id in staleIds ==> NewlyFlagged(old(observations), observations, id)
    {
      OldFlagged(observations, log, mutation, births, lastMutant);
      hide Saw, AllFlagged, Counts, Overtaken, IsStale, Generation;
      Advance(mutation);
      lastMutant := Some(exclude);
      staleIds := [];
      ghost var files, workspace := fileGeneration, workspaceGeneration;
      for k := 0 to |observations|
        invariant |observations| == |old(observations)| && births == old(births) && nextId == old(nextId)
        invariant log == old(log) + [mutation] && lastMutant == Some(exclude)
        invariant fileGeneration == files && workspaceGeneration == workspace
        invariant forall i :: 0 <= i < k ==> Updated(old(observations)[i], observations[i], log, births[i], exclude)
        invariant forall i :: k <= i < |observations| ==> observations[i] == old(observations)[i]
        invariant forall i :: 0 <= i < k && observations[i].stale && !old(observations)[i].stale ==> observations[i].id in staleIds
        invariant forall id :: id in staleIds ==> NewlyFlagged(old(observations), observations, id)
      {
        var obs := observations[k];
        StaleMeansOvertaken(obs, fileGeneration, workspaceGeneration, log, births[k]);
        if obs.id != exclude && !obs.stale && IsStale(obs, fileGeneration, workspaceGeneration) {
          FlaggedNext(old(observations), observations, k, staleIds);
          observations := observations[k := obs.(stale := true)];
          staleIds := staleIds + [obs.id];
        }
      }
      UpdatedFlagged(old(observations), observations, old(log), mutation, births, old(lastMutant), exclude);
    }
  }

  /** Recording one tool result: the observation first, then its mutation, if it counts. */
  method Record(tracker: FactTracker, paths: seq<Path>, mutation: Option<Mutation>) returns (observation: Observation)
    requires tracker.Valid()
    modifies tracker
    ensures tracker.Valid()
    ensures tracker.log == old(tracker.log) + if mutation.Some? then [mutation.value] else []
    ensures tracker.observations != [] && tracker.observations[|tracker.observations| - 1] == observation && !observation.stale
    ensures mutation.Some? ==> tracker.lastMutant == Some(observation.id)
  {
    observation := tracker.Observe(paths);
    if mutation.Some? {
      var _ := tracker.ApplyMutation(mutation.value, observation.id);
    }
  }

  /** Generations only grow along the log. */
  lemma GenerationsGrow(files: map<Path, nat>, workspace: nat, log: seq<Mutation>, files': map<Path, nat>, workspace': nat, log': seq<Mutation>, path: Path)
    requires Counts(files, workspace, log) && Counts(files', workspace', log') && log <= log'
    ensures Generation(files, path) <= Generation(files', path) && workspace <= workspace'
  {
    assert log == log'[..|log|];
    CountGrows(log', |log|, WroteFile(path));
    CountGrows(log', |log|, ChangedWorkspace);
  }

  /** In any valid tracker: a flagged observation was overtaken by a counted mutation and its
      generations show it; the only one overtaken without a flag is the one the latest
      counted mutation produced. */
  lemma StalenessRefinesLog(observations: seq<Observation>, files: map<Path, nat>, workspace: nat,
                            log: seq<Mutation>, births: seq<nat>, lastMutant: Option<ObservationId>, k: nat)
    requires AllFlagged(observations, log, births, lastMutant) && Counts(files, workspace, log) && k < |observations|
    ensures observations[k].stale ==>
              Overtaken(observations[k], log, births[k]) && IsStale(observations[k], files, workspace)
    ensures IsStale(observations[k], files, workspace) && !observations[k].stale ==> lastMutant == Some(observations[k].id)
  {
    assert Flagged(observations[k], log, births[k], lastMutant);
    StaleMeansOvertaken(observations[k], files, workspace, log, births[k]);
  }
}
