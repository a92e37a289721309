/**
  `ToolExecutor`: runs one batch of tool calls, records one result per call in the model's
  order, and answers what is still open when an exception escapes.  Middleware decisions,
  cancellation, failures and the completion order are arbitrary; what a call does is its
  action on the world, taken at the moment it completes.
 */
module ToolExecution {
  import opened Wrappers
  import opened Messages
  import opened Answering
  import opened Planner
  import opened History
  import opened RuntimeStates
  import opened FiniteSets
  import opened ToolBatch
  import PlannedOrder

  /** The batch is complete, or an exception escaped: behind the last answer, where only
      deferred messages are lost, or before, and then the repair got to its end or not. */
  datatype Outcome = Finished(stopped: bool) | NotesLost(stopped: bool) | Raised(repaired: bool)

  /** `CallEffect.global_exclusive` */
  const EXCLUSIVE := CallEffect([ResourceClaim("global", ["*"], Everywhere, Write)], true)

  /** Everything the calls work on, and what may come in between from outside. */
  class World {
    var store: PlannedOrder.Store
    /** Nothing raises an exception, and nothing but the tool-call limit asks the turn to
        stop. */
    const calm: bool

    constructor (store: PlannedOrder.Store, calm: bool)
      ensures this.store == store && this.calm == calm
    {
      this.store, this.calm := store, calm;
    }

    /** Whether something from outside comes in at this point. */
    method Disturbs() returns (disturbed: bool)
      ensures disturbed ==> !calm
    {
      var may: bool := *;
      disturbed := may && !calm;
    }
  }

  class ToolExecutor {
    const history: ContextHistory
    const state: RuntimeState
    const world: World
    var deferred: seq<string>
    var cancelledResults: map<CallId, ToolResult>

    constructor (history: ContextHistory, state: RuntimeState, world: World)
      ensures this.history == history && this.state == state && this.world == world
      ensures deferred == [] && cancelledResults == map[]
    {
      this.history, this.state, this.world := history, state, world;
      deferred, cancelledResults := [], map[];
    }

    /** `_prepare_calls`: rejected and profile-blocked calls become barriers, every other
        call has the effect it is classified with. */
    method PrepareCalls(calls: seq<RawCall>, classify: nat -> CallEffect, admits: Guard) returns (raised: bool, prepared: seq<PreparedCall>)
      ensures !raised ==> InBatch(prepared, calls) && RefusedBy(prepared, admits)
      ensures !raised ==> BlockedMarked(prepared) && ClassifiedBy(prepared, classify)
      ensures world.calm ==> !raised
    {
      prepared, raised := [], false;
      hide AnswerId;
      for index := 0 to |calls|
        invariant |prepared| == index
        invariant forall i :: 0 <= i < index ==> prepared[i].callId == AnswerId(calls[i], i)
        invariant BlockedMarked(prepared) && ClassifiedBy(prepared, classify) && RefusedBy(prepared, admits)
      {
        var disturbed := world.Disturbs();
        if disturbed {
          return true, [];
        }
        var id := AnswerId(calls[index], index);
        var rejected: bool := *;
        if rejected && !admits(index) {
          var output: string := *;
          prepared := prepared + [PreparedCall(id, EXCLUSIVE, Some(ToolResult(output, Intercepted)), false)];
        } else {
          var ask: bool := *;
          prepared := prepared + [PreparedCall(id, classify(index), None, ask)];
        }
      }
    }

    /** One group: budget, policy and middleware first; then the allowed calls run and
        complete in any order. */
    method ExecuteGroup(selected: seq<nat>, prepared: seq<PreparedCall>, actions: Actions, admits: Guard, ghost runs: Runs, ghost done: set<nat>)
      returns (raised: bool, executed: seq<ExecutedCall>, ghost ran: seq<nat>, ghost after: Runs)
      requires selected != [] && DistinctNats(selected) && forall i :: i in selected ==> i < |prepared| && i !in runs.order
      requires BlockedMarked(prepared) && Memory(cancelledResults, prepared, runs, done) && forall i :: i in selected ==> i !in done
      requires Performed(actions, runs) && world.store == WorldAfter(actions, runs)
      requires RefusedBy(prepared, admits) && AllAdmitted(runs.order, admits)
      modifies this`cancelledResults, state, world
      ensures AllAdmitted(after.order, admits) && (!raised ==> Justified(executed, admits))
      ensures world.calm ==> !raised
      ensures world.calm && !old(state.stopRequested) && !state.stopRequested ==>
        && state.toolCallCount == old(state.toolCallCount) + |selected| && Indices(executed) == Elements(selected)
        && (state.toolLimit > 0 ==> state.toolCallCount <= state.toolLimit)
      ensures world.calm && !old(state.stopRequested) && state.stopRequested ==>
        0 < state.toolLimit < old(state.toolCallCount) + |selected| && state.toolLimit <= state.toolCallCount
      ensures raised ==> Recall(cancelledResults, prepared, after)
      ensures raised ==> (forall i :: i in runs.order ==> i in after.order) && forall i :: i in after.order ==> i in runs.order || i in selected
      ensures !raised ==> cancelledResults == old(cancelledResults) && Truthful(cancelledResults, prepared, after.outputs)
      ensures Performed(actions, after) && after.start == runs.start && Grows(runs.outputs, after.outputs)
      ensures old(state.stopRequested) ==> state.stopRequested
      ensures !raised ==>
        && executed != [] && Items(executed, Elements(ran), after.outputs) && Indices(executed) <= Elements(selected)
        && DistinctNats(ran) && Elements(ran) <= Indices(executed) && Unblocked(prepared, ran)
        && after.order == runs.order + ran && world.store == WorldAfter(actions, after)
        && (AnyStop(executed) ==> state.stopRequested)
    {
      hide *;
      var ready: seq<nat>;
      ghost var looked;
      raised, executed, ready, looked := Admit(selected, prepared, admits, runs.outputs);
      ran, after := [], runs;
      GrowsSame(runs.outputs);
      NoRuns(runs.order);
      MemoryParts(cancelledResults, prepared, runs, done);
      if raised {
        return;
      }
      AdmittingParts(executed, ready, looked, prepared, runs.outputs, admits);
      if ready != [] {
        raised, executed, ran, after := RunReady(executed, ready, looked, selected, prepared, actions, admits, runs, done);
      }
    }

    /** The allowed calls of a group run and complete in any order. */
    method RunReady(answered: seq<ExecutedCall>, ready: seq<nat>, ghost looked: set<nat>, ghost selected: seq<nat>,
                    prepared: seq<PreparedCall>, actions: Actions, ghost admits: Guard, ghost runs: Runs, ghost done: set<nat>)
      returns (raised: bool, executed: seq<ExecutedCall>, ghost ran: seq<nat>, ghost after: Runs)
      requires Admitting(answered, ready, looked, prepared, runs.outputs, admits) && looked <= Elements(selected) && ready != []
      requires forall i :: i in selected ==> i < |prepared| && i !in runs.order && i !in done
      requires Memory(cancelledResults, prepared, runs, done) && AllAdmitted(runs.order, admits)
      requires Performed(actions, runs) && world.store == WorldAfter(actions, runs)
      modifies this`cancelledResults, world
      ensures AllAdmitted(after.order, admits) && (world.calm ==> !raised)
      ensures raised ==> Recall(cancelledResults, prepared, after)
      ensures raised ==> (forall i :: i in runs.order ==> i in after.order) && forall i :: i in after.order ==> i in runs.order || i in selected
      ensures !raised ==> cancelledResults == old(cancelledResults) && Truthful(cancelledResults, prepared, after.outputs)
      ensures Performed(actions, after) && after.start == runs.start && Grows(runs.outputs, after.outputs)
      ensures !raised ==>
        && executed != [] && Items(executed, Elements(ran), after.outputs) && Justified(executed, admits)
        && Indices(executed) == looked && (AnyStop(executed) <==> AnyStop(answered))
        && DistinctNats(ran) && Elements(ran) <= Indices(executed) && Unblocked(prepared, ran)
        && after.order == runs.order + ran && world.store == WorldAfter(actions, after)
    {
      hide *;
      raised, executed, ran, after := false, answered, [], runs;
      AdmittingParts(executed, ready, looked, prepared, runs.outputs, admits);
      MemoryParts(cancelledResults, prepared, runs, done);
      UnderwayStarts(executed, ready, selected, prepared, cancelledResults, actions, runs);
      var running := Elements(ready);
      while running != {}
        invariant Underway(executed, ran, running, ready, selected, prepared, cancelledResults, actions, runs, after)
        invariant world.store == WorldAfter(actions, after) && cancelledResults == old(cancelledResults)
        invariant Justified(executed, admits) && AllAdmitted(after.order, admits) && running <= Elements(ready)
        invariant Indices(executed) + running == looked && (AnyStop(executed) <==> AnyStop(answered))
        decreases |running|
      {
        var disturbed := world.Disturbs();
        if disturbed {
          after := Interrupt(executed, ran, running, ready, selected, prepared, actions, admits, runs, after, done);
          return true, [], [], after;
        }
        var index :| index in running;
        UnderwayNext(executed, ran, running, ready, selected, prepared, cancelledResults, actions, runs, after, index);
        AdmittedNext(after.order, ready, index, admits);
        var step := actions(index)(world.store);
        var item := ExecutedCall(index, ToolResult(step.result, Executed), false);
        RunNextOrder(after, index, step.result);
        JustifiedNext(executed, admits, item);
        world.store := step.store;
        after := RunNext(after, index, step.result);
        executed, ran, running := executed + [item], ran + [index], running - {index};
      }
      var disturbed := world.Disturbs();
      if disturbed {
        after := Interrupt(executed, ran, running, ready, selected, prepared, actions, admits, runs, after, done);
        return true, [], [], after;
      }
      UnderwayEnds(executed, ran, ready, selected, prepared, cancelledResults, actions, runs, after);
      UnderwayStops(executed, ran, {}, ready, selected, prepared, cancelledResults, actions, runs, after);
    }

    /** The exception path of a group: cancel what runs, and keep what is there. */
    method Interrupt(executed: seq<ExecutedCall>, ghost ran: seq<nat>, running: set<nat>, ready: seq<nat>, ghost selected: seq<nat>,
                     prepared: seq<PreparedCall>, actions: Actions, ghost admits: Guard, ghost before: Runs, ghost during: Runs, ghost done: set<nat>)
      returns (ghost after: Runs)
      requires AllAdmitted(during.order, admits) && AllAdmitted(ready, admits) && running <= Elements(ready)
      requires Underway(executed, ran, running, ready, selected, prepared, cancelledResults, actions, before, during)
      requires world.store == WorldAfter(actions, during)
      requires forall i :: i in selected ==> i < |prepared| && i !in before.order
      requires Unblocked(prepared, ready) && DistinctNats(ready)
      requires Memory(cancelledResults, prepared, before, done) && forall i :: i in selected ==> i !in done
      modifies this`cancelledResults, world
      ensures Recall(cancelledResults, prepared, after) && AllAdmitted(after.order, admits)
      ensures (forall i :: i in before.order ==> i in after.order) && forall i :: i in after.order ==> i in before.order || i in selected
      ensures Performed(actions, after) && after.start == before.start && Grows(before.outputs, after.outputs)
    {
      hide *;
      UnderwayStops(executed, ran, running, ready, selected, prepared, cancelledResults, actions, before, during);
      InterruptedParts(executed, ran, running, selected, prepared, cancelledResults, actions, before, during, done);
      after := KeepResults(executed, ready, running, prepared, actions, Elements(ran), during, Elements(before.order), done);
      GrowsOn(before.outputs, during.outputs, after.outputs);
      InterruptedRuns(before.order, ran, running, selected, after.order);
      AdmittedAfter(during.order, running, ready, after.order, admits);
    }

    /** The checks before a call may run: the tool-call budget, a validation or profile
        refusal, and the middlewares. */
    method Admit(selected: seq<nat>, prepared: seq<PreparedCall>, admits: Guard, ghost outputs: Outputs)
      returns (raised: bool, executed: seq<ExecutedCall>, ready: seq<nat>, ghost looked: set<nat>)
      requires selected != [] && DistinctNats(selected) && forall i :: i in selected ==> i < |prepared|
      requires BlockedMarked(prepared) && RefusedBy(prepared, admits)
      modifies state
      ensures old(state.stopRequested) ==> state.stopRequested
      ensures world.calm ==> !raised
      ensures !raised ==>
        && Admitting(executed, ready, looked, prepared, outputs, admits) && looked != {} && looked <= Elements(selected)
        && (AnyStop(executed) ==> state.stopRequested)
      ensures world.calm && !old(state.stopRequested) && !state.stopRequested ==>
        && state.toolCallCount == old(state.toolCallCount) + |selected| && looked == Elements(selected)
        && (state.toolLimit > 0 ==> state.toolCallCount <= state.toolLimit)
      ensures world.calm && !old(state.stopRequested) && state.stopRequested ==>
        0 < state.toolLimit < old(state.toolCallCount) + |selected| && state.toolLimit <= state.toolCallCount
    {
      hide *;
      executed, ready, raised, looked := [], [], false, {};
      AdmittingStarts(prepared, outputs, admits);
      LookNext(selected, 0);
      for k := 0 to |selected|
        invariant looked == Elements(selected[..k]) && looked <= Elements(selected) && (k > 0 ==> looked != {})
        invariant Admitting(executed, ready, looked, prepared, outputs, admits)
        invariant old(state.stopRequested) || AnyStop(executed) ==> state.stopRequested
        invariant world.calm && !old(state.stopRequested) ==>
          && !state.stopRequested && state.toolCallCount == old(state.toolCallCount) + k
          && (k > 0 && state.toolLimit > 0 ==> state.toolCallCount <= state.toolLimit)
      {
        var index := selected[k];
        LookNext(selected, k);
        RefusedParts(prepared, admits, index);
        var disturbed := world.Disturbs();
        if disturbed {
          return true, [], [], {};
        }
        var granted := state.RecordToolCallBudget();
        var output: string := *;
        if !granted {
          var item := ExecutedCall(index, ToolResult(output, OverBudget), true);
          AdmittingItem(executed, ready, looked, prepared, outputs, admits, item);
          return false, executed + [item], ready, looked + {index};
        }
        if prepared[index].blocked.Some? {
          var item := ExecutedCall(index, prepared[index].blocked.value, false);
          AdmittingItem(executed, ready, looked, prepared, outputs, admits, item);
          executed, looked := executed + [item], looked + {index};
          continue;
        }
        disturbed := world.Disturbs();
        if disturbed {
          state.RequestStop();
        }
        disturbed := world.Disturbs();
        if disturbed {
          return true, [], [], {};
        }
        if !admits(index) {
          var item := ExecutedCall(index, ToolResult(output, Intercepted), false);
          AdmittingItem(executed, ready, looked, prepared, outputs, admits, item);
          executed, looked := executed + [item], looked + {index};
          if state.stopRequested {
            return;
          }
          continue;
        }
        AdmittingReady(executed, ready, looked, prepared, outputs, admits, index);
        ready, looked := ready + [index], looked + {index};
      }
    }

    /** The exception path remembers the results that exist: of the calls that completed, and
        of those that finish meanwhile. What the others leave behind is unknown. */
    method KeepResults(executed: seq<ExecutedCall>, started: seq<nat>, running: set<nat>, prepared: seq<PreparedCall>,
                       actions: Actions, ghost ran: set<nat>, ghost runs: Runs, ghost early: set<nat>, ghost done: set<nat>)
      returns (ghost after: Runs)
      requires forall i :: i in Indices(executed) ==> i < |prepared|
      requires forall i :: i in started ==> i < |prepared|
      requires DistinctNats(started) && forall i :: i in running ==> i !in runs.order
      requires Items(executed, ran, runs.outputs) && Truthful(cancelledResults, prepared, runs.outputs)
      requires Performed(actions, runs) && world.store == WorldAfter(actions, runs)
      requires Remembers(cancelledResults, prepared, runs.outputs, early) && KnownBy(cancelledResults, prepared, done)
      requires Elements(runs.order) == early + ran && ran <= Indices(executed) && early <= done
      requires Indices(executed) !! done && running !! done && running !! Indices(executed)
      modifies this`cancelledResults, world
      ensures Recall(cancelledResults, prepared, after)
      ensures runs.order <= after.order && Elements(after.order) <= Elements(runs.order) + running
      ensures Performed(actions, after) && after.start == runs.start && Grows(runs.outputs, after.outputs)
    {
      hide *;
      after := runs;
      GrowsSame(runs.outputs);
      KeptAll(executed, early, ran, done);
      for k := 0 to |executed|
        invariant Truthful(cancelledResults, prepared, runs.outputs) && world.store == WorldAfter(actions, runs)
        invariant Remembers(cancelledResults, prepared, runs.outputs, early + ran * Indices(executed[..k]))
        invariant KnownBy(cancelledResults, prepared, done + Indices(executed[..k]))
      {
        IndexOfItem(executed, k);
        var id := prepared[executed[k].index].callId;
        ghost var known := cancelledResults;
        if id !in cancelledResults {
          OwnItem(executed, ran, runs.outputs, k);
          TruthfulNext(cancelledResults, prepared, runs.outputs, executed[k].index, executed[k].result);
          cancelledResults := cancelledResults[id := executed[k].result];
        }
        KeepOne(executed, k, known, cancelledResults, prepared, runs.outputs, early, ran, done);
      }
      ghost var seen := done + Indices(executed);
      NothingStarted(started, seen);
      for k := 0 to |started|
        invariant Truthful(cancelledResults, prepared, after.outputs)
        invariant Remembers(cancelledResults, prepared, after.outputs, Elements(after.order))
        invariant KnownBy(cancelledResults, prepared, seen + Elements(started[..k]))
        invariant Performed(actions, after) && world.store == WorldAfter(actions, after)
        invariant after.start == runs.start && Grows(runs.outputs, after.outputs)
        invariant runs.order <= after.order && Elements(after.order) <= Elements(runs.order) + running
        invariant forall i :: i in running && i !in started[..k] ==> i !in after.order
      {
        var index := started[k];
        StartedNext(started, k);
        StartedSeen(started, k, seen, cancelledResults, prepared);
        var finished: bool := *;
        if finished && index in running {
          ghost var known := cancelledResults;
          NotSeen(started, k, seen);
          PerformNext(actions, after, index);
          GrowsOn(runs.outputs, after.outputs, RunNext(after, index, actions(index)(world.store).result).outputs);
          var step := actions(index)(world.store);
          world.store := step.store;
          FinishedMeanwhile(cancelledResults, prepared, after, index, step.result);
          var id := prepared[index].callId;
          if id !in cancelledResults {
            cancelledResults := cancelledResults[id := ToolResult(step.result, Executed)];
          }
          KeepFinished(known, cancelledResults, prepared, after, seen + Elements(started[..k]), index, step.result);
          FinishedOrder(runs.order, after.order, running, index);
          after := RunNext(after, index, step.result);
        }
      }
      RecallMade(cancelledResults, prepared, after);
      var left: PlannedOrder.Store := *;
      world.store := left;
    }

    /** `_record_executed_result`: may raise before or after the result is in the history,
        may ask the turn to stop, and may leave messages for after the batch. */
    method RecordResult(item: ExecutedCall, prepared: seq<PreparedCall>, ghost next: nat) returns (raised: bool, ghost recorded: nat)
      requires history.Valid() && item.index < |prepared|
      modifies history, state`stopRequested, this`deferred
      ensures world.calm ==> !raised && state.stopRequested == old(state.stopRequested)
      ensures history.Valid() && history.marks == old(history.marks)
      ensures next <= recorded <= next + 1 && (!raised ==> recorded == next + 1)
      ensures recorded == next ==> history.messages == old(history.messages) && history.raw == old(history.raw)
      ensures recorded == next + 1 ==>
                var added := [Tool(prepared[item.index].callId, item.result)];
                history.messages == old(history.messages) + added && history.raw == old(history.raw) + added
      ensures old(state.stopRequested) ==> state.stopRequested
    {
      hide *;
      raised, recorded := false, next;
      var stops := world.Disturbs();
      if * {
        var note: string := *;
        deferred := deferred + [note];
      } else if stops {
        state.RequestStop();
      }
      var disturbed := world.Disturbs();
      if disturbed {
        return true, next;
      }
      recorded := next + 1;
      var _ := history.Append(Tool(prepared[item.index].callId, item.result));
      var notes: seq<string> := *;
      deferred := deferred + notes;
      stops := world.Disturbs();
      if stops {
        state.RequestStop();
      }
      raised := world.Disturbs();
    }

    /** The recording loop: every buffered result that is next in the model's order. */
    method RecordReady(prepared: seq<PreparedCall>, buffered: map<nat, ExecutedCall>, next: nat,
                       ghost p: Progress, ghost base: seq<Message>, ghost rawBase: seq<Message>)
      returns (raised: bool, left: map<nat, ExecutedCall>, upTo: nat, ghost recorded: nat)
      requires history.Valid() && SoundProgress(p, |prepared|) && p.buffered == buffered && p.next == next
      requires Recording(history.messages, history.raw, base, rawBase, prepared, p.given, next)
      modifies history, state`stopRequested, this`deferred
      ensures history.Valid() && history.marks == old(history.marks)
      ensures world.calm ==> !raised && state.stopRequested == old(state.stopRequested)
      ensures Recording(history.messages, history.raw, base, rawBase, prepared, p.given, recorded)
      ensures !raised ==> SoundProgress(p.(buffered := left, next := upTo), |prepared|) && upTo !in left && recorded == upTo
      ensures old(state.stopRequested) ==> state.stopRequested
    {
      left, upTo, raised, recorded := buffered, next, false, next;
      NextInRange(p, |prepared|);
      hide *;
      while upTo in left
        invariant history.Valid() && history.marks == old(history.marks)
        invariant upTo <= |prepared| && SoundProgress(p.(buffered := left, next := upTo), |prepared|)
        invariant Recording(history.messages, history.raw, base, rawBase, prepared, p.given, upTo)
        invariant old(state.stopRequested) ==> state.stopRequested
        invariant world.calm ==> state.stopRequested == old(state.stopRequested)
        decreases |prepared| - upTo
      {
        raised, recorded := RecordNextResult(prepared, left, upTo, p.(buffered := left, next := upTo), base, rawBase);
        if raised {
          return;
        }
        left, upTo := left - {upTo}, upTo + 1;
      }
      recorded := upTo;
    }

    method RecordNextResult(prepared: seq<PreparedCall>, buffered: map<nat, ExecutedCall>, next: nat,
                            ghost p: Progress, ghost base: seq<Message>, ghost rawBase: seq<Message>)
      returns (raised: bool, ghost recorded: nat)
      requires history.Valid() && SoundProgress(p, |prepared|) && p.buffered == buffered && p.next == next && next in buffered
      requires Recording(history.messages, history.raw, base, rawBase, prepared, p.given, next)
      modifies history, state`stopRequested, this`deferred
      ensures history.Valid() && history.marks == old(history.marks)
      ensures world.calm ==> !raised && state.stopRequested == old(state.stopRequested)
      ensures Recording(history.messages, history.raw, base, rawBase, prepared, p.given, recorded)
      ensures !raised ==>
        && recorded == next + 1 <= |prepared|
        && SoundProgress(p.(buffered := buffered - {next}, next := next + 1), |prepared|)
      ensures old(state.stopRequested) ==> state.stopRequested
    {
      hide *;
      RecordOne(history.messages, history.raw, base, rawBase, prepared, p);
      raised, recorded := RecordResult(buffered[next], prepared, next);
    }

    /** Every outcome of a group is remembered, buffered, and taken off the pending set. */
    method TakeResults(executed: seq<ExecutedCall>, prepared: seq<PreparedCall>, pending: set<nat>, completed: set<nat>,
                       buffered: map<nat, ExecutedCall>, ghost given: map<nat, ToolResult>, ghost next: nat, ghost ran: set<nat>,
                       ghost outputs: Outputs, ghost early: set<nat>)
      returns (pending': set<nat>, completed': set<nat>, buffered': map<nat, ExecutedCall>, ghost given': map<nat, ToolResult>, stop: bool)
      requires SoundProgress(Progress(pending, completed, buffered, given, next), |prepared|)
      requires DistinctItems(executed) && Indices(executed) <= pending
      requires Items(executed, ran, outputs) && Truthful(cancelledResults, prepared, outputs) && ran <= Indices(executed)
      requires Remembers(cancelledResults, prepared, outputs, early) && KnownBy(cancelledResults, prepared, completed) && early <= completed
      modifies this`cancelledResults
      ensures Truthful(cancelledResults, prepared, outputs)
      ensures Remembers(cancelledResults, prepared, outputs, early + ran) && KnownBy(cancelledResults, prepared, completed')
      ensures SoundProgress(Progress(pending', completed', buffered', given', next), |prepared|)
      ensures pending' == pending - Indices(executed) && completed' == completed + Indices(executed)
      ensures Gives(given, executed, given') && (stop <==> AnyStop(executed) || (executed != [] && state.stopRequested))
    {
      pending', completed', buffered', given', stop := pending, completed, buffered, given, false;
      NothingGiven(given);
      NoIndices(executed[..0]);
      KeptAll(executed, early, ran, completed);
      NotCompleted(Progress(pending, completed, buffered, given, next), |prepared|, Indices(executed));
      hide *;
      for k := 0 to |executed|
        invariant SoundProgress(Progress(pending', completed', buffered', given', next), |prepared|)
        invariant pending' == pending - Indices(executed[..k]) && completed' == completed + Indices(executed[..k])
        invariant Gives(given, executed[..k], given') && Truthful(cancelledResults, prepared, outputs)
        invariant Remembers(cancelledResults, prepared, outputs, early + ran * Indices(executed[..k]))
        invariant KnownBy(cancelledResults, prepared, completed + Indices(executed[..k]))
        invariant stop <==> AnyStop(executed[..k]) || (k > 0 && state.stopRequested)
      {
        var item := executed[k];
        NextItem(executed, k);
        PendingInRange(Progress(pending', completed', buffered', given', next), |prepared|, item.index);
        OwnItem(executed, ran, outputs, k);
        TruthfulNext(cancelledResults, prepared, outputs, item.index, item.result);
        ghost var known := cancelledResults;
        cancelledResults := cancelledResults[prepared[item.index].callId := item.result];
        KeepOne(executed, k, known, cancelledResults, prepared, outputs, early, ran, completed);
        FinishSound(Progress(pending', completed', buffered', given', next), |prepared|, item);
        GivesNext(given, executed[..k], given', item);
        buffered' := buffered'[item.index := item];
        pending' := pending' - {item.index};
        completed' := completed' + {item.index};
        given' := given'[item.index := item.result];
        if item.stop || state.stopRequested {
          stop := true;
        }
      }
      assert executed[..|executed|] == executed;
    }

    /** After a stop: every call that is still pending is answered without having run. */
    method BlockRest(prepared: seq<PreparedCall>, pending: set<nat>, completed: set<nat>,
                     buffered: map<nat, ExecutedCall>, ghost given: map<nat, ToolResult>, ghost next: nat)
      returns (buffered': map<nat, ExecutedCall>, ghost given': map<nat, ToolResult>)
      requires SoundProgress(Progress(pending, completed, buffered, given, next), |prepared|)
      ensures SoundProgress(Progress({}, completed + pending, buffered', given', next), |prepared|)
      ensures Blocks(given, completed, pending, given')
    {
      ghost var p := Progress(pending, completed, buffered, given, next);
      ghost var rest := pending;
      buffered', given' := buffered, given;
      BlockingStarts(p, |prepared|);
      hide *;
      for index := 0 to |prepared|
        invariant rest == pending - IndexSet(index) && Blocking(p, |prepared|, rest, buffered', given')
      {
        if index in pending {
          var output: string := *;
          var item := ExecutedCall(index, ToolResult(output, OverBudget), true);
          BlockingNext(p, |prepared|, rest, buffered', given', item);
          buffered' := buffered'[index := item];
          given' := given'[index := item.result];
          rest := rest - {index};
        }
      }
      BlockingEnds(p, |prepared|, buffered', given');
    }

    /** One round of `execute`: run a group of ready calls, then record what is next. */
    method RunRound(prepared: seq<PreparedCall>, deps: seq<set<nat>>, pending: set<nat>, completed: set<nat>,
                    buffered: map<nat, ExecutedCall>, next: nat, actions: Actions, admits: Guard,
                    ghost given: map<nat, ToolResult>, ghost runs: Runs, ghost base: seq<Message>, ghost rawBase: seq<Message>, ghost free: bool, ghost from: nat)
      returns (raised: bool, pending': set<nat>, completed': set<nat>, buffered': map<nat, ExecutedCall>, next': nat, stop: bool,
               ghost given': map<nat, ToolResult>, ghost after: Runs, ghost recorded: nat)
      requires history.Valid() && BlockedMarked(prepared) && RefusedBy(prepared, admits) && pending != {}
      requires AllAdmitted(runs.order, admits) && Guarded(given, admits)
      requires free ==> world.calm
      requires Steady(free, state.stopRequested, state.toolLimit, from, state.toolCallCount, pending, |prepared|)
      requires Books(prepared, deps, Progress(pending, completed, buffered, given, next), runs, actions, cancelledResults)
      requires world.store == WorldAfter(actions, runs)
      requires Recording(history.messages, history.raw, base, rawBase, prepared, given, next)
      modifies this, history, state, world
      ensures history.Valid() && history.marks == old(history.marks)
      ensures old(state.stopRequested) ==> state.stopRequested
      ensures Recording(history.messages, history.raw, base, rawBase, prepared, given', recorded)
      ensures AllAdmitted(after.order, admits) && Guarded(given', admits)
      ensures world.calm ==> !raised
      ensures !raised && state.stopRequested ==> Limited(free, state.toolLimit, from, state.toolCallCount, |prepared|)
      ensures !raised && !state.stopRequested ==>
                Steady(free, state.stopRequested, state.toolLimit, from, state.toolCallCount, pending', |prepared|)
      ensures Recall(cancelledResults, prepared, after) && OwnGiven(given', after.outputs) && MarkedRun(given', after.order)
      ensures Performed(actions, after) && after.start == runs.start
      ensures !raised ==>
        && Books(prepared, deps, Progress(pending', completed', buffered', given', next'), after, actions, cancelledResults)
        && world.store == WorldAfter(actions, after)
        && next' == recorded && next' !in buffered' && pending' < pending
        && (AllRan(given) && !stop ==> AllRan(given'))
        && (stop ==> state.stopRequested)
    {
      hide *;
      pending', completed', buffered', next', stop := pending, completed, buffered, next, false;
      given', after, recorded, raised := given, runs, next, false;
      ghost var effects := Effects(prepared);
      ghost var p := Progress(pending, completed, buffered, given, next);
      BooksParts(prepared, deps, p, runs, actions, cancelledResults);
      ProgressParts(p, |prepared|);
      ScheduledParts(effects, deps, given, runs.order, runs.outputs);
      raised := world.Disturbs();
      if raised {
        return;
      }
      var selected := NextGroup(prepared, deps, pending, completed);
      PendingNotRun(p, |prepared|, effects, deps, runs);
      var executed;
      ghost var ran;
      SelectedNotDone(p, |prepared|, selected);
      raised, executed, ran, after := ExecuteGroup(selected, prepared, actions, admits, runs, completed);
      SteadyNext(free, old(state.stopRequested), state.stopRequested, state.toolLimit, from, old(state.toolCallCount), state.toolCallCount,
                 pending, |prepared|, selected);
      ScheduledGrow(effects, deps, given, runs.order, runs.outputs, after.outputs);
      if raised {
        MarkedMore(given, runs.order, after.order, selected);
        return;
      }
      MemoryParts(cancelledResults, prepared, runs, completed);
      RemembersGrow(cancelledResults, prepared, runs.outputs, after.outputs, Elements(runs.order));
      ElementsJoin(runs.order, ran);
      GroupIsPending(deps, pending, completed, selected, executed, ran, after.outputs);
      raised, pending', completed', buffered', next', stop, given', recorded :=
        RecordGroup(executed, prepared, deps, pending, completed, buffered, next, actions, admits, given, runs, ran, after, base, rawBase);
      NotFree(free, state.stopRequested, state.toolLimit, from, state.toolCallCount, pending', |prepared|);
    }

    /** What a group answered is taken into the books, and what is next is recorded. */
    method RecordGroup(executed: seq<ExecutedCall>, prepared: seq<PreparedCall>, ghost deps: seq<set<nat>>, pending: set<nat>,
                       completed: set<nat>, buffered: map<nat, ExecutedCall>, next: nat, ghost actions: Actions, ghost admits: Guard,
                       ghost given: map<nat, ToolResult>, ghost runs: Runs, ghost ran: seq<nat>, ghost after: Runs,
                       ghost base: seq<Message>, ghost rawBase: seq<Message>)
      returns (raised: bool, pending': set<nat>, completed': set<nat>, buffered': map<nat, ExecutedCall>, next': nat, stop: bool,
               ghost given': map<nat, ToolResult>, ghost recorded: nat)
      requires history.Valid() && executed != []
      requires SoundProgress(Progress(pending, completed, buffered, given, next), |prepared|)
      requires Scheduled(Effects(prepared), deps, given, runs.order, after.outputs) && Unblocked(prepared, runs.order)
      requires Recording(history.messages, history.raw, base, rawBase, prepared, given, next)
      requires DistinctItems(executed) && Indices(executed) <= pending && Indices(executed) != {}
      requires forall i :: i in Indices(executed) ==> i in Ready(deps, pending, completed)
      requires Items(executed, Elements(ran), after.outputs) && DistinctNats(ran) && Elements(ran) <= Indices(executed)
      requires Unblocked(prepared, ran) && after.order == runs.order + ran && Performed(actions, after)
      requires Truthful(cancelledResults, prepared, after.outputs) && KnownBy(cancelledResults, prepared, completed)
      requires Remembers(cancelledResults, prepared, after.outputs, Elements(runs.order)) && Elements(runs.order) <= completed
      requires Guarded(given, admits) && Justified(executed, admits) && (AnyStop(executed) ==> state.stopRequested)
      modifies this`cancelledResults, this`deferred, history, state`stopRequested
      ensures history.Valid() && history.marks == old(history.marks) && (old(state.stopRequested) ==> state.stopRequested)
      ensures world.calm ==> !raised && state.stopRequested == old(state.stopRequested)
      ensures state.toolCallCount == old(state.toolCallCount)
      ensures pending' == pending - Indices(executed) && (stop ==> old(state.stopRequested))
      ensures Recording(history.messages, history.raw, base, rawBase, prepared, given', recorded) && Guarded(given', admits)
      ensures Recall(cancelledResults, prepared, after) && OwnGiven(given', after.outputs) && MarkedRun(given', after.order)
      ensures !raised ==>
        && Books(prepared, deps, Progress(pending', completed', buffered', given', next'), after, actions, cancelledResults)
        && next' == recorded && next' !in buffered'
        && (AllRan(given) && !stop ==> AllRan(given'))
    {
      hide *;
      ghost var p := Progress(pending, completed, buffered, given, next);
      pending', completed', buffered', given', stop :=
        TakeResults(executed, prepared, pending, completed, buffered, given, next, Elements(ran), after.outputs, Elements(runs.order));
      RoundTaken(prepared, deps, p, runs, actions, executed, ran, after, cancelledResults, given', completed', admits,
                 history.messages, history.raw, base, rawBase);
      raised, buffered', next', recorded :=
        RecordReady(prepared, buffered', next, Progress(pending', completed', buffered', given', next), base, rawBase);
      if !raised {
        BooksMade(prepared, deps, Progress(pending', completed', buffered', given', next'), after, actions, cancelledResults);
      }
    }

    /** The ready calls that need no approval, or else the first ready call. */
    static method NextGroup(prepared: seq<PreparedCall>, deps: seq<set<nat>>, pending: set<nat>, completed: set<nat>)
      returns (selected: seq<nat>)
      requires AreDependencies(Effects(prepared), deps) && |deps| == |prepared| && Partition(|prepared|, pending, completed)
      requires pending != {}
      ensures selected != [] && DistinctNats(selected)
      ensures forall i :: i in selected ==> i in Ready(deps, pending, completed) && i < |prepared| && i in pending
    {
      var ready := Ready(deps, pending, completed);
      AlwaysReady(Effects(prepared), deps, pending, completed);
      ReadyDistinct(deps, pending, completed, |prepared|);
      var safe := WithoutApproval(ready, prepared);
      selected := if safe != [] then safe else [ready[0]];
      SelectedIsReady(ready, prepared, selected);
    }

    /** After a stop: answer the rest and record everything that is left. */
    method StopBatch(prepared: seq<PreparedCall>, pending: set<nat>, completed: set<nat>, buffered: map<nat, ExecutedCall>, next: nat,
                     ghost actions: Actions, ghost deps: seq<set<nat>>, ghost given: map<nat, ToolResult>, ghost runs: Runs,
                     ghost base: seq<Message>, ghost rawBase: seq<Message>)
      returns (raised: bool, ghost given': map<nat, ToolResult>, ghost recorded: nat)
      requires history.Valid()
      requires Books(prepared, deps, Progress(pending, completed, buffered, given, next), runs, actions, cancelledResults)
      requires world.store == WorldAfter(actions, runs)
      requires Recording(history.messages, history.raw, base, rawBase, prepared, given, next)
      modifies this`deferred, history, state`stopRequested
      ensures history.Valid() && history.marks == old(history.marks)
      ensures old(state.stopRequested) ==> state.stopRequested
      ensures world.calm ==> !raised
      ensures state.toolCallCount == old(state.toolCallCount)
      ensures Recording(history.messages, history.raw, base, rawBase, prepared, given', recorded)
      ensures BatchEnds(prepared, actions, cancelledResults, given', recorded, runs, world.store, raised, true)
    {
      hide *;
      var left, upTo;
      ghost var p := Progress(pending, completed, buffered, given, next);
      BooksParts(prepared, deps, p, runs, actions, cancelledResults);
      ProgressParts(p, |prepared|);
      left, given' := BlockRest(prepared, pending, completed, buffered, given, next);
      ghost var p' := Progress({}, completed + pending, left, given', next);
      ProgressParts(p', |prepared|);
      StopDone(p, Effects(prepared), deps, given, given', runs.order, runs.outputs);
      DoneMarks(Effects(prepared), given', runs.order, true, runs.outputs);
      RecordingKept(history.messages, history.raw, base, rawBase, prepared, p, given');
      raised, left, upTo, recorded := RecordReady(prepared, left, next, p', base, rawBase);
      if !raised {
        AllRecorded(p'.(buffered := left, next := upTo), |prepared|);
      }
      EndsMade(prepared, actions, cancelledResults, given', recorded, runs, world.store, raised, true);
    }

    /** The rounds of `execute`, until every call is answered or a stop is requested. */
    method RunBatch(prepared: seq<PreparedCall>, actions: Actions, admits: Guard)
      returns (raised: bool, stopped: bool, ghost given: map<nat, ToolResult>, ghost recorded: nat, ghost runs: Runs)
      requires history.Valid() && BlockedMarked(prepared) && RefusedBy(prepared, admits) && cancelledResults == map[]
      modifies this, history, state, world
      ensures AllAdmitted(runs.order, admits) && (!raised && !stopped ==> Guarded(given, admits))
      ensures world.calm ==> !raised
      ensures world.calm && !old(state.stopRequested) ==>
                && (stopped <==> prepared != [] && 0 < state.toolLimit < old(state.toolCallCount) + |prepared|)
                && (stopped <==> state.stopRequested) && (stopped ==> state.toolLimit <= state.toolCallCount)
      ensures history.Valid() && history.marks == old(history.marks)
      ensures Recording(history.messages, history.raw, old(history.messages), old(history.raw), prepared, given, recorded)
      ensures BatchEnds(prepared, actions, cancelledResults, given, recorded, runs, world.store, raised, stopped)
      ensures runs.start == old(world.store)
      ensures old(state.stopRequested) ==> state.stopRequested
      ensures !raised && stopped ==> state.stopRequested
    {
      ghost var base, rawBase := history.messages, history.raw;
      var deps := PlanDependencies(Effects(prepared));
      var pending, completed: set<nat> := IndexSet(|prepared|), {};
      var buffered: map<nat, ExecutedCall>, next := map[], 0;
      given, runs, recorded, raised, stopped := map[], Runs(world.store, [], map[]), 0, false, false;
      BooksOpened(prepared, deps, world.store, actions, base, rawBase);
      NothingRefused(admits);
      ghost var from := state.toolCallCount;
      ghost var free := world.calm && !state.stopRequested;
      SteadyStarts(free, state.stopRequested, state.toolLimit, from, |prepared|);
      hide *;
      while pending != {}
        invariant history.Valid() && history.marks == old(history.marks) && next !in buffered
        invariant Books(prepared, deps, Progress(pending, completed, buffered, given, next), runs, actions, cancelledResults)
        invariant AllRan(given) && runs.start == old(world.store) && world.store == WorldAfter(actions, runs)
        invariant recorded == next && Recording(history.messages, history.raw, base, rawBase, prepared, given, next)
        invariant AllAdmitted(runs.order, admits) && Guarded(given, admits)
        invariant old(state.stopRequested) ==> state.stopRequested
        invariant Steady(free, state.stopRequested, state.toolLimit, from, state.toolCallCount, pending, |prepared|)
        decreases |pending|
      {
        ghost var before := pending;
        var stop;
        raised, pending, completed, buffered, next, stop, given, runs, recorded :=
          RunRound(prepared, deps, pending, completed, buffered, next, actions, admits, given, runs, base, rawBase, free, from);
        if raised {
          RoundRaised(prepared, actions, cancelledResults, given, recorded, runs, world.store, stopped);
          return;
        }
        if stop || state.stopRequested {
          stopped := true;
          LimitedParts(free, state.toolLimit, from, state.toolCallCount, |prepared|);
          raised, given, recorded :=
            StopBatch(prepared, pending, completed, buffered, next, actions, deps, given, runs, base, rawBase);
          return;
        }
        SubsetSize(pending, before);
      }
      SteadyEnds(free, state.stopRequested, state.toolLimit, from, state.toolCallCount, |prepared|);
      BooksClosed(prepared, deps, Progress(pending, completed, buffered, given, next), runs, actions, cancelledResults);
    }

    /** `_flush_deferred_user_messages`: each text is taken off the list before it is written;
        writing it may raise. */
    method FlushDeferred() returns (raised: bool, ghost notes: seq<Message>)
      requires history.Valid()
      modifies this`deferred, history
      ensures history.Valid() && history.marks == old(history.marks) && AllUser(notes)
      ensures |notes| <= |old(deferred)| && notes == AsUsers(old(deferred)[..|notes|])
      ensures (raised <==> |notes| < |old(deferred)|) && (world.calm ==> !raised)
      ensures deferred == if raised then old(deferred)[|notes| + 1..] else []
      ensures history.messages == old(history.messages) + notes && history.raw == old(history.raw) + notes
    {
      hide *;
      notes, raised := [], false;
      ghost var texts := deferred;
      assert texts[..0] == [];
      AsUsersNone();
      while deferred != []
        invariant history.Valid() && history.marks == old(history.marks)
        invariant |notes| <= |texts| && deferred == texts[|notes|..] && notes == AsUsers(texts[..|notes|])
        invariant history.messages == old(history.messages) + notes && history.raw == old(history.raw) + notes
        decreases |deferred|
      {
        var content := deferred[0];
        deferred := deferred[1..];
        var disturbed := world.Disturbs();
        if disturbed {
          return true, notes;
        }
        AsUsersMore(texts[..|notes|], content);
        assert texts[..|notes| + 1] == texts[..|notes|] + [content];
        var _ := history.Append(User(content));
        notes := notes + [User(content)];
      }
    }

    /** `_repair_orphaned_tool_calls`: one answer for each call whose id no tool message in
        the live context carries, in index order; a result that exists is used. Writing an
        answer may raise, which the caller only logs: the later calls stay unanswered. */
    method RepairOrphans(calls: seq<RawCall>) returns (raised: bool, ghost repaired: seq<Message>)
      requires history.Valid()
      modifies history
      ensures history.Valid() && history.marks == old(history.marks)
      ensures var orphans := Orphans(calls, 0, AnsweredIds(old(history.messages)));
              && |repaired| <= |orphans| && IsRepair(calls, orphans[..|repaired|], cancelledResults, repaired)
              && (raised <==> |repaired| < |orphans|)
      ensures world.calm ==> !raised
      ensures history.messages == old(history.messages) + repaired && history.raw == old(history.raw) + repaired
    {
      var orphans := FindOrphans(calls, AnsweredIds(history.messages));
      OrphansInRange(calls, 0, AnsweredIds(history.messages));
      raised, repaired := AnswerOrphans(calls, orphans);
    }

    method AnswerOrphans(calls: seq<RawCall>, orphans: seq<nat>) returns (raised: bool, ghost repaired: seq<Message>)
      requires history.Valid() && forall k :: 0 <= k < |orphans| ==> orphans[k] < |calls|
      modifies history
      ensures history.Valid() && history.marks == old(history.marks)
      ensures |repaired| <= |orphans| && IsRepair(calls, orphans[..|repaired|], cancelledResults, repaired)
      ensures (raised <==> |repaired| < |orphans|) && (world.calm ==> !raised)
      ensures history.messages == old(history.messages) + repaired && history.raw == old(history.raw) + repaired
    {
      hide *;
      repaired, raised := [], false;
      assert orphans[..0] == [];
      RepairNone(calls, cancelledResults);
      for k := 0 to |orphans|
        invariant history.Valid() && history.marks == old(history.marks)
        invariant |repaired| == k && IsRepair(calls, orphans[..k], cancelledResults, repaired)
        invariant history.messages == old(history.messages) + repaired && history.raw == old(history.raw) + repaired
      {
        var disturbed := world.Disturbs();
        if disturbed {
          return true, repaired;
        }
        var answer := OrphanAnswer(calls, orphans[k]);
        var _ := history.Append(answer);
        RepairNext(calls, orphans, k, cancelledResults, repaired, answer);
        repaired := repaired + [answer];
      }
    }

    method OrphanAnswer(calls: seq<RawCall>, index: nat) returns (answer: Message)
      requires index < |calls|
      ensures answer.Tool? && answer.callId == AnswerId(calls[index], index)
      ensures if answer.callId in cancelledResults then answer.result == cancelledResults[answer.callId]
              else answer.result.source == Aborted
    {
      var id := AnswerId(calls[index], index);
      var output: string := *;
      answer := Tool(id, if id in cancelledResults then cancelledResults[id] else ToolResult(output, Aborted));
    }

    static method FindOrphans(calls: seq<RawCall>, answered: set<CallId>) returns (orphans: seq<nat>)
      ensures orphans == Orphans(calls, 0, answered)
    {
      hide AnswerId;
      orphans := [];
      for index := 0 to |calls|
        invariant orphans + Orphans(calls, index, answered) == Orphans(calls, 0, answered)
      {
        if AnswerId(calls[index], index) !in answered {
          orphans := orphans + [index];
        }
      }
    }

    /** `execute`. Normally: one result per call in index order, then the deferred user
        messages; the calls ran in an order the planner allows, and if they keep to their
        claims, world and outputs are those of the model's order. An exception while the
        deferred messages are written loses only these. When one escapes before: what was
        recorded, then the repair as far as it got. Only calls that may run do, and without a
        stop all of these; when nothing comes in from outside, the batch finishes, and stops
        exactly when the tool-call limit does not cover all calls. */
    method Execute(calls: seq<RawCall>, actions: Actions, classify: nat -> CallEffect, admits: Guard)
      returns (outcome: Outcome, ghost results: seq<Message>, ghost extra: seq<Message>, ghost runs: Runs)
      requires history.Valid() && cancelledResults == map[]
      modifies this, history, state, world
      ensures history.Valid() && history.marks == old(history.marks)
      ensures history.messages == old(history.messages) + results + extra
      ensures history.raw == old(history.raw) + results + extra
      ensures AnswersFrom(calls, 0, results) && OwnRecords(results, runs.outputs) && RanRecorded(results, runs.order)
      ensures Performed(actions, runs) && runs.start == old(world.store)
      ensures outcome.Finished? ==> deferred == []
      ensures !outcome.Raised? ==>
        && Answers(calls, results) && AllUser(extra)
        && ExecutedBatch(Classified(classify, |calls|), results, runs, outcome.stopped)
        && world.store == WorldAfter(actions, runs)
        && AsInModelOrder(actions, classify, |calls|, runs, world.store)
      ensures outcome.Raised? ==>
        && RepairPart(calls, old(history.messages) + results, cancelledResults, extra, outcome.repaired)
        && OwnAnswers(calls, extra, runs.outputs) && RanAreAnswered(calls, extra, runs)
      ensures old(state.stopRequested) ==> state.stopRequested
      ensures !outcome.Raised? && outcome.stopped ==> state.stopRequested
      ensures forall i :: i in runs.order ==> admits(i)
      ensures !outcome.Raised? && !outcome.stopped ==> forall i: nat :: i < |calls| && admits(i) ==> i in runs.order
      ensures world.calm ==> outcome.Finished?
      ensures world.calm && !old(state.stopRequested) ==>
                && (outcome.stopped <==> calls != [] && 0 < state.toolLimit < old(state.toolCallCount) + |calls|)
                && (outcome.stopped <==> state.stopRequested) && (outcome.stopped ==> state.toolLimit <= state.toolCallCount)
    {
      hide *;
      results, extra, runs := [], [], Runs(world.store, [], map[]);
      var raised, prepared := PrepareCalls(calls, classify, admits);
      NothingRun(actions, world.store, prepared);
      NothingRefused(admits);
      NoAnswers(calls);
      ghost var begun := !raised;
      if !raised {
        ghost var given, recorded;
        var stopped;
        raised, stopped, given, recorded, runs := RunBatch(prepared, actions, admits);
        AdmittedParts(runs.order, admits);
        EndsRecorded(calls, prepared, actions, cancelledResults, given, recorded, runs, world.store, raised, stopped,
                     history.messages, history.raw, old(history.messages), old(history.raw));
        results := Records(prepared, given, recorded);
        if !raised {
          EndsFinished(calls, prepared, classify, actions, cancelledResults, given, recorded, runs, world.store, stopped);
          AllAnswered(calls, results);
          SameSize(prepared, calls);
          if !stopped {
            AdmittedRan(prepared, actions, cancelledResults, given, recorded, runs, world.store, admits);
          }
          var lost;
          lost, extra := FlushDeferred();
          outcome := if lost then NotesLost(stopped) else Finished(stopped);
          if lost {
            AnsweredLeavesNone(calls, old(history.messages), results, extra);
            var failed, repaired := RepairOrphans(calls);
            assert repaired == [] && !failed;
          }
          return;
        }
      }
      assert history.messages == old(history.messages) + results && history.raw == old(history.raw) + results;
      var failed;
      failed, extra := RepairOrphans(calls);
      outcome := Raised(!failed);
      RepairDone(calls, old(history.messages) + results, cancelledResults, extra, !failed);
      ghost var orphans := Orphans(calls, 0, AnsweredIds(old(history.messages) + results))[..|extra|];
      if begun {
        RecallParts(cancelledResults, prepared, runs);
        RepairIsOwn(calls, prepared, runs.outputs, orphans, cancelledResults, extra);
        RepairRemembers(calls, prepared, runs, orphans, cancelledResults, extra);
      } else {
        NothingKept(calls, orphans, extra, runs);
      }
    }
  }
}
