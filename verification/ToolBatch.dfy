/**
  The bookkeeping of one batch of tool calls: what completed with which result, what of that
  is recorded, in which order calls may run and what running them gives, and what the
  repair after an exception appends. `ToolExecution` keeps these books.
 */
module ToolBatch {
  import opened Wrappers
  import opened Messages
  import opened Planner
  import opened Answering
  import PlannedOrder

  // ---------------------------------------------------------------------------------
  // Calls and their results
  // ---------------------------------------------------------------------------------

  datatype PreparedCall = PreparedCall(
    callId: CallId,
    effect: CallEffect,
    blocked: Option<ToolResult>,
    needsApproval: bool)

  datatype ExecutedCall = ExecutedCall(index: nat, result: ToolResult, stop: bool)

  predicate BlockedMarked(prepared: seq<PreparedCall>) {
    forall i :: 0 <= i < |prepared| && prepared[i].blocked.Some? ==>
      prepared[i].effect.barrier && prepared[i].blocked.value.source == Intercepted
  }

  predicate InBatch(prepared: seq<PreparedCall>, calls: seq<RawCall>) {
    && |prepared| == |calls|
    && forall i :: 0 <= i < |calls| ==> prepared[i].callId == AnswerId(calls[i], i)
  }

  function Effects(prepared: seq<PreparedCall>): (effects: seq<CallEffect>)
    ensures |effects| == |prepared|
  {
    seq(|prepared|, i requires 0 <= i < |prepared| => prepared[i].effect)
  }

  /** The effect `classify` gives each of `n` calls. */
  function Classified(classify: nat -> CallEffect, n: nat): (effects: seq<CallEffect>)
    ensures |effects| == n && forall i :: 0 <= i < n ==> effects[i] == classify(i)
  {
    seq(n, i requires 0 <= i < n => classify(i))
  }

  /** A call that was not refused before the batch has the effect it is classified with. */
  predicate ClassifiedBy(prepared: seq<PreparedCall>, classify: nat -> CallEffect) {
    forall i :: 0 <= i < |prepared| && prepared[i].blocked.None? ==> prepared[i].effect == classify(i)
  }

  /** Calls refused before the batch never run. */
  predicate Unblocked(prepared: seq<PreparedCall>, order: seq<nat>) {
    forall i :: i in order ==> i < |prepared| && prepared[i].blocked.None?
  }

  lemma UnblockedSome(prepared: seq<PreparedCall>, order: seq<nat>, some: seq<nat>)
    requires Unblocked(prepared, order) && Elements(some) <= Elements(order)
    ensures Unblocked(prepared, some)
  {
    forall i | i in some ensures i in order {
      assert i in Elements(some);
    }
  }

  lemma UnblockedMore(prepared: seq<PreparedCall>, order: seq<nat>, more: seq<nat>)
    requires Unblocked(prepared, order) && Unblocked(prepared, more)
    ensures Unblocked(prepared, order + more)
  {
  }

  predicate AllUser(messages: seq<Message>) {
    forall i :: 0 <= i < |messages| ==> messages[i].User?
  }

  function AsUsers(texts: seq<string>): (messages: seq<Message>)
    ensures |messages| == |texts| && AllUser(messages)
  {
    seq(|texts|, i requires 0 <= i < |texts| => User(texts[i]))
  }

  lemma AsUsersNone()
    ensures AsUsers([]) == []
  {
  }

  lemma AsUsersOne(text: string)
    ensures AsUsers([text]) == [User(text)]
  {
  }

  lemma AsUsersMore(texts: seq<string>, text: string)
    ensures AsUsers(texts + [text]) == AsUsers(texts) + [User(text)]
  {
  }

  // ---------------------------------------------------------------------------------
  // Lists of calls
  // ---------------------------------------------------------------------------------

  predicate DistinctNats(s: seq<nat>) {
    forall i, j :: 0 <= i < j < |s| ==> s[i] != s[j]
  }

  function Elements(s: seq<nat>): set<nat> {
    set i | i in s
  }

  function IndexSet(n: nat): (all: set<nat>)
    ensures forall i: nat :: i in all <==> i < n
  {
    if n == 0 then {} else IndexSet(n - 1) + {n - 1}
  }

  function Indices(executed: seq<ExecutedCall>): set<nat> {
    set k | 0 <= k < |executed| :: executed[k].index
  }

  lemma {:induction false} ElementsSize(s: seq<nat>)
    requires DistinctNats(s)
    ensures |Elements(s)| == |s|
  {
    if s != [] {
      var init := s[..|s| - 1];
      ElementsSize(init);
      assert s[|s| - 1] !in Elements(init);
      assert Elements(s) == Elements(init) + {s[|s| - 1]};
    }
  }

  lemma {:induction false} IndexSetSize(n: nat)
    ensures |IndexSet(n)| == n
  {
    if n > 0 {
      IndexSetSize(n - 1);
    }
  }

  lemma SelectedPending(selected: seq<nat>, pending: set<nat>)
    requires DistinctNats(selected) && forall i :: i in selected ==> i in pending
    ensures |pending - Elements(selected)| == |pending| - |selected| && |selected| <= |pending|
  {
    ElementsSize(selected);
    assert Elements(selected) <= pending;
    assert pending == (pending - Elements(selected)) + Elements(selected);
  }

  /** Of a batch of `n` calls, which began at count `from`, all but the pending ones have been
      counted, within the limit. */
  ghost predicate Spent(limit: nat, from: nat, count: nat, pending: set<nat>, n: nat) {
    count + |pending| == from + n && (|pending| < n && limit > 0 ==> count <= limit)
  }

  /** In a batch that nothing disturbs: no stop is asked for, and the calls are counted. */
  ghost predicate Steady(free: bool, stop: bool, limit: nat, from: nat, count: nat, pending: set<nat>, n: nat) {
    free ==> !stop && Spent(limit, from, count, pending, n)
  }

  /** There a stop means that the limit does not cover the batch, and is reached. */
  predicate Limited(free: bool, limit: nat, from: nat, count: nat, n: nat) {
    free ==> 0 < limit < from + n && limit <= count
  }

  lemma SteadyStarts(free: bool, stop: bool, limit: nat, from: nat, n: nat)
    requires free ==> !stop
    ensures Steady(free, stop, limit, from, from, IndexSet(n), n)
  {
    IndexSetSize(n);
  }

  lemma SteadyNext(free: bool, stop: bool, stop': bool, limit: nat, from: nat, count: nat, count': nat,
                   pending: set<nat>, n: nat, selected: seq<nat>)
    requires Steady(free, stop, limit, from, count, pending, n) && DistinctNats(selected) && forall i :: i in selected ==> i in pending
    requires free && !stop && !stop' ==> count' == count + |selected| && (limit > 0 ==> count' <= limit)
    requires free && !stop && stop' ==> 0 < limit < count + |selected| && limit <= count'
    ensures stop' ==> Limited(free, limit, from, count', n)
    ensures !stop' ==> Steady(free, stop', limit, from, count', pending - Elements(selected), n)
  {
    SelectedPending(selected, pending);
  }

  lemma NotFree(free: bool, stop: bool, limit: nat, from: nat, count: nat, pending: set<nat>, n: nat)
    ensures !free ==> Steady(free, stop, limit, from, count, pending, n) && Limited(free, limit, from, count, n)
  {
  }

  lemma LimitedParts(free: bool, limit: nat, from: nat, count: nat, n: nat)
    requires Limited(free, limit, from, count, n)
    ensures free ==> 0 < limit < from + n && limit <= count
  {
  }

  lemma SteadyEnds(free: bool, stop: bool, limit: nat, from: nat, count: nat, n: nat)
    requires Steady(free, stop, limit, from, count, {}, n)
    ensures free ==> !stop && (n > 0 && limit > 0 ==> from + n <= limit)
  {
  }

  lemma TakeNext(s: seq<nat>, k: nat)
    requires k < |s| && DistinctNats(s)
    ensures Elements(s[..k + 1]) == Elements(s[..k]) + {s[k]} && s[k] !in Elements(s[..k])
  {
    assert s[..k + 1] == s[..k] + [s[k]];
  }

  // ---------------------------------------------------------------------------------
  // Runs
  // ---------------------------------------------------------------------------------

  /** What the calls that ran answered, by index. */
  type Outputs = map<nat, string>

  /** The runs of a batch: the world before, the calls in the order they ran, their outputs. */
  datatype Runs = Runs(start: PlannedOrder.Store, order: seq<nat>, outputs: Outputs)

  type Actions = nat -> PlannedOrder.Action

  ghost function WorldAfter(actions: Actions, runs: Runs): PlannedOrder.Store {
    PlannedOrder.RunInOrder(actions, runs.order, runs.start).store
  }

  /** The outputs are those of the calls, run one after the other from the start. */
  ghost predicate Performed(actions: Actions, runs: Runs) {
    && DistinctNats(runs.order) && (forall i :: i in runs.outputs <==> i in runs.order)
    && runs.outputs == PlannedOrder.RunInOrder(actions, runs.order, runs.start).results
  }

  function RunNext(runs: Runs, index: nat, output: string): Runs {
    Runs(runs.start, runs.order + [index], runs.outputs[index := output])
  }

  lemma RunNextOrder(runs: Runs, index: nat, output: string)
    ensures RunNext(runs, index, output).order == runs.order + [index]
  {
  }

  predicate Grows(before: Outputs, after: Outputs) {
    forall i :: i in before ==> i in after && after[i] == before[i]
  }

  lemma PerformNext(actions: Actions, runs: Runs, index: nat)
    requires Performed(actions, runs) && index !in runs.order
    ensures var step := actions(index)(WorldAfter(actions, runs));
            var after := RunNext(runs, index, step.result);
            && Performed(actions, after) && WorldAfter(actions, after) == step.store && Grows(runs.outputs, after.outputs)
            && after.start == runs.start && after.order == runs.order + [index]
  {
    PlannedOrder.RunMore(actions, runs.order, index, runs.start);
    hide PlannedOrder.RunInOrder;
  }

  lemma GrowsSame(outputs: Outputs)
    ensures Grows(outputs, outputs)
  {
  }

  lemma GrowsOn(a: Outputs, b: Outputs, c: Outputs)
    requires Grows(a, b) && Grows(b, c)
    ensures Grows(a, c)
  {
  }

  /** For calls that keep to their claims, the runs gave what running the same calls in the
      model's own order gives. */
  ghost predicate AsInModelOrder(actions: Actions, classify: nat -> CallEffect, n: nat, runs: Runs, world: PlannedOrder.Store) {
    PlannedOrder.AllHonest(actions, Classified(classify, n)) ==>
      PlannedOrder.RunInOrder(actions, PlannedOrder.InModelOrder(0, n, runs.order), runs.start) ==
      PlannedOrder.Batch(world, runs.outputs)
  }

  lemma RunsAsInModelOrder(actions: Actions, classify: nat -> CallEffect, n: nat, runs: Runs)
    requires Performed(actions, runs) && PlannedOrder.Respects(Classified(classify, n), runs.order)
    ensures AsInModelOrder(actions, classify, n, runs, WorldAfter(actions, runs))
  {
    var effects := Classified(classify, n);
    if PlannedOrder.AllHonest(actions, effects) {
      assert PlannedOrder.Lists(runs.order, 0, |effects|);
      PlannedOrder.AllowedOrderMeansModelOrder(actions, effects, runs.order, 0, runs.start);
    }
  }

  // ---------------------------------------------------------------------------------
  // The outcomes of one group
  // ---------------------------------------------------------------------------------

  /** A result marked as executed is the call's own output, and none says the call was
      aborted. */
  predicate Own(result: ToolResult, index: nat, outputs: Outputs) {
    result.source != Aborted && (result.source == Executed ==> index in outputs && result.output == outputs[index])
  }

  /** The call's own outcome: it ran, or a check refused it. */
  predicate Ran(result: ToolResult) {
    result.source == Executed || result.source == Intercepted
  }

  /** Each call at most once, marked as executed exactly when it ran, and then with its own
      output. */
  predicate Items(executed: seq<ExecutedCall>, ran: set<nat>, outputs: Outputs) {
    && (forall k, l :: 0 <= k < l < |executed| ==> executed[k].index != executed[l].index)
    && (forall k :: 0 <= k < |executed| ==> (executed[k].result.source == Executed <==> executed[k].index in ran))
    && (forall k :: 0 <= k < |executed| ==> executed[k].stop || Ran(executed[k].result))
    && (forall k :: 0 <= k < |executed| ==> Own(executed[k].result, executed[k].index, outputs))
  }

  predicate AnyStop(executed: seq<ExecutedCall>) {
    exists k :: 0 <= k < |executed| && executed[k].stop
  }

  predicate FitsItem(item: ExecutedCall, ran: set<nat>, outputs: Outputs) {
    (item.result.source == Executed <==> item.index in ran) && (item.stop || Ran(item.result)) && Own(item.result, item.index, outputs)
  }

  lemma ItemsNext(executed: seq<ExecutedCall>, ran: set<nat>, outputs: Outputs, item: ExecutedCall)
    requires Items(executed, ran, outputs) && item.index !in Indices(executed)
    ensures Indices(executed + [item]) == Indices(executed) + {item.index}
    ensures AnyStop(executed + [item]) <==> AnyStop(executed) || item.stop
    ensures FitsItem(item, ran, outputs) ==> Items(executed + [item], ran, outputs)
  {
    var more := executed + [item];
    assert forall k :: 0 <= k < |executed| ==> more[k] == executed[k];
    assert more[|executed|] == item;
    forall i ensures i in Indices(more) <==> i in Indices(executed) + {item.index} {
      if i in Indices(executed) {
        var k :| 0 <= k < |executed| && executed[k].index == i;
        assert more[k].index == i;
      }
    }
    forall k | 0 <= k < |executed| ensures executed[k].index != item.index {
      assert executed[k].index in Indices(executed);
    }
    if AnyStop(executed) {
      var k :| 0 <= k < |executed| && executed[k].stop;
      assert more[k].stop;
    }
  }

  /** Calls that have not run yet may still be declared to run. */
  lemma ItemsMoreRan(executed: seq<ExecutedCall>, ran: set<nat>, outputs: Outputs, index: nat)
    requires Items(executed, ran, outputs) && index !in Indices(executed)
    ensures Items(executed, ran + {index}, outputs)
  {
    forall k | 0 <= k < |executed| ensures executed[k].index != index {
      assert executed[k].index in Indices(executed);
    }
  }

  lemma ItemsGrow(executed: seq<ExecutedCall>, ran: set<nat>, outputs: Outputs, more: Outputs)
    requires Items(executed, ran, outputs) && Grows(outputs, more)
    ensures Items(executed, ran, more)
  {
  }

  lemma OwnItem(executed: seq<ExecutedCall>, ran: set<nat>, outputs: Outputs, k: nat)
    requires Items(executed, ran, outputs) && k < |executed|
    ensures Own(executed[k].result, executed[k].index, outputs)
  {
  }

  lemma NoRuns(order: seq<nat>)
    ensures Elements([]) == {} && DistinctNats([]) && order + [] == order
    ensures forall prepared: seq<PreparedCall> :: Unblocked(prepared, [])
  {
  }

  lemma InElements(s: seq<nat>)
    ensures forall i :: i in Elements(s) <==> i in s
    ensures s != [] ==> Elements(s) != {}
  {
    assert s != [] ==> s[0] in s;
  }

  lemma NotYetRun(order: seq<nat>, ran: seq<nat>, selected: seq<nat>, executed: seq<ExecutedCall>, index: nat)
    requires Elements(ran) <= Indices(executed) && index !in Indices(executed) && index in Elements(selected)
    requires forall i :: i in selected ==> i !in order
    ensures index !in ran && index !in order + ran
  {
    assert index in ran ==> index in Elements(ran);
  }

  predicate TrueFor(result: ToolResult, id: CallId, prepared: seq<PreparedCall>, outputs: Outputs) {
    result.source != Aborted &&
    (result.source == Executed ==>
      exists i :: 0 <= i < |prepared| && prepared[i].callId == id && i in outputs && result.output == outputs[i])
  }

  /** Every remembered result that is marked executed is that of a call with this id. */
  predicate Truthful(known: map<CallId, ToolResult>, prepared: seq<PreparedCall>, outputs: Outputs) {
    forall id :: id in known ==> TrueFor(known[id], id, prepared, outputs)
  }

  lemma TruthfulNext(known: map<CallId, ToolResult>, prepared: seq<PreparedCall>, outputs: Outputs, index: nat, result: ToolResult)
    requires Truthful(known, prepared, outputs) && index < |prepared| && Own(result, index, outputs)
    ensures Truthful(known[prepared[index].callId := result], prepared, outputs)
  {
    var id := prepared[index].callId;
    assert TrueFor(result, id, prepared, outputs);
    forall other | other in known && other != id ensures TrueFor(known[other], other, prepared, outputs) {
    }
  }

  lemma TruthfulGrow(known: map<CallId, ToolResult>, prepared: seq<PreparedCall>, outputs: Outputs, more: Outputs)
    requires Truthful(known, prepared, outputs) && Grows(outputs, more)
    ensures Truthful(known, prepared, more)
  {
    forall id | id in known ensures TrueFor(known[id], id, prepared, more) {
      assert TrueFor(known[id], id, prepared, outputs);
    }
  }

  /** No other call has the id of this one. */
  predicate Alone(prepared: seq<PreparedCall>, i: nat) {
    i < |prepared| && forall j :: 0 <= j < |prepared| && j != i ==> prepared[j].callId != prepared[i].callId
  }

  /** Something is remembered under the id of a call that ran: its own output, unless it
      shares the id with another call. */
  predicate Remembered(known: map<CallId, ToolResult>, prepared: seq<PreparedCall>, outputs: Outputs, i: nat) {
    && i < |prepared| && prepared[i].callId in known
    && (Alone(prepared, i) ==> i in outputs && known[prepared[i].callId] == ToolResult(outputs[i], Executed))
  }

  predicate Remembers(known: map<CallId, ToolResult>, prepared: seq<PreparedCall>, outputs: Outputs, ran: set<nat>) {
    forall i :: i in ran ==> Remembered(known, prepared, outputs, i)
  }

  predicate Belongs(prepared: seq<PreparedCall>, seen: set<nat>, id: CallId) {
    exists j :: j in seen && j < |prepared| && prepared[j].callId == id
  }

  /** What is remembered is about calls in `seen`. */
  predicate KnownBy(known: map<CallId, ToolResult>, prepared: seq<PreparedCall>, seen: set<nat>) {
    forall id :: id in known ==> Belongs(prepared, seen, id)
  }

  /** The result of one more call is remembered, or one with its id was already. */
  lemma RememberOne(known: map<CallId, ToolResult>, known': map<CallId, ToolResult>, prepared: seq<PreparedCall>, outputs: Outputs,
                    ran: set<nat>, seen: set<nat>, x: nat, result: ToolResult)
    requires Remembers(known, prepared, outputs, ran) && KnownBy(known, prepared, seen)
    requires x < |prepared| && x !in seen && x !in ran
    requires known' == known[prepared[x].callId := result] || (prepared[x].callId in known && known' == known)
    ensures Remembers(known', prepared, outputs, ran) && KnownBy(known', prepared, seen + {x})
    ensures x in outputs && result == ToolResult(outputs[x], Executed) ==> Remembers(known', prepared, outputs, ran + {x})
  {
    var id := prepared[x].callId;
    forall i | i in ran ensures Remembered(known', prepared, outputs, i) {
      assert Remembered(known, prepared, outputs, i);
    }
    forall other | other in known' ensures Belongs(prepared, seen + {x}, other) {
      if other in known {
        assert Belongs(prepared, seen, other);
      }
    }
    if id in known {
      assert Belongs(prepared, seen, id);
      assert !Alone(prepared, x);
    }
  }

  /** What is remembered is right, of the calls in `seen`, and covers every call that ran. */
  ghost predicate Memory(known: map<CallId, ToolResult>, prepared: seq<PreparedCall>, runs: Runs, seen: set<nat>) {
    && Truthful(known, prepared, runs.outputs) && KnownBy(known, prepared, seen) && Elements(runs.order) <= seen
    && Remembers(known, prepared, runs.outputs, Elements(runs.order))
  }

  /** What an exception leaves of it. */
  ghost predicate Recall(known: map<CallId, ToolResult>, prepared: seq<PreparedCall>, runs: Runs) {
    Truthful(known, prepared, runs.outputs) && Remembers(known, prepared, runs.outputs, Elements(runs.order))
  }

  lemma MemoryParts(known: map<CallId, ToolResult>, prepared: seq<PreparedCall>, runs: Runs, seen: set<nat>)
    requires Memory(known, prepared, runs, seen)
    ensures Recall(known, prepared, runs)
    ensures Truthful(known, prepared, runs.outputs) && KnownBy(known, prepared, seen) && Elements(runs.order) <= seen
    ensures Remembers(known, prepared, runs.outputs, Elements(runs.order))
  {
  }

  lemma RecallMade(known: map<CallId, ToolResult>, prepared: seq<PreparedCall>, runs: Runs)
    requires Truthful(known, prepared, runs.outputs) && Remembers(known, prepared, runs.outputs, Elements(runs.order))
    ensures Recall(known, prepared, runs)
  {
  }

  lemma RecallParts(known: map<CallId, ToolResult>, prepared: seq<PreparedCall>, runs: Runs)
    requires Recall(known, prepared, runs)
    ensures Truthful(known, prepared, runs.outputs) && Remembers(known, prepared, runs.outputs, Elements(runs.order))
  {
  }

  lemma MemoryMade(known: map<CallId, ToolResult>, prepared: seq<PreparedCall>, runs: Runs, seen: set<nat>)
    requires Truthful(known, prepared, runs.outputs) && KnownBy(known, prepared, seen) && Elements(runs.order) <= seen
    requires Remembers(known, prepared, runs.outputs, Elements(runs.order))
    ensures Memory(known, prepared, runs, seen)
  {
  }

  lemma RemembersGrow(known: map<CallId, ToolResult>, prepared: seq<PreparedCall>, outputs: Outputs, more: Outputs, ran: set<nat>)
    requires Remembers(known, prepared, outputs, ran) && Grows(outputs, more)
    ensures Remembers(known, prepared, more, ran)
  {
    forall i | i in ran ensures Remembered(known, prepared, more, i) {
      assert Remembered(known, prepared, outputs, i);
    }
  }

  lemma KnownByMore(known: map<CallId, ToolResult>, prepared: seq<PreparedCall>, seen: set<nat>, more: set<nat>)
    requires KnownBy(known, prepared, seen) && seen <= more
    ensures KnownBy(known, prepared, more)
  {
    forall id | id in known ensures Belongs(prepared, more, id) {
      assert Belongs(prepared, seen, id);
    }
  }

  lemma ElementsJoin(a: seq<nat>, b: seq<nat>)
    ensures Elements(a + b) == Elements(a) + Elements(b)
  {
  }

  /** A call of the group completes. */
  lemma GroupNext(executed: seq<ExecutedCall>, ran: seq<nat>, prepared: seq<PreparedCall>, known: map<CallId, ToolResult>,
                  outputs: Outputs, index: nat, output: string)
    requires Items(executed, Elements(ran), outputs) && DistinctNats(ran) && index !in Indices(executed) && index !in ran
    requires Truthful(known, prepared, outputs) && Grows(outputs, outputs[index := output])
    ensures var item := ExecutedCall(index, ToolResult(output, Executed), false);
            var more := outputs[index := output];
            && Items(executed + [item], Elements(ran + [index]), more) && Truthful(known, prepared, more)
            && Indices(executed + [item]) == Indices(executed) + {index}
            && (AnyStop(executed + [item]) <==> AnyStop(executed))
    ensures DistinctNats(ran + [index]) && Elements(ran + [index]) == Elements(ran) + {index}
  {
    var item := ExecutedCall(index, ToolResult(output, Executed), false);
    var more := outputs[index := output];
    assert Elements(ran + [index]) == Elements(ran) + {index};
    ItemsMoreRan(executed, Elements(ran), outputs, index);
    ItemsGrow(executed, Elements(ran) + {index}, outputs, more);
    ItemsNext(executed, Elements(ran) + {index}, more, item);
    TruthfulGrow(known, prepared, outputs, more);
  }

  lemma IndexOfItem(executed: seq<ExecutedCall>, k: nat)
    requires k < |executed|
    ensures executed[k].index in Indices(executed)
  {
  }

  lemma StartedNext(started: seq<nat>, k: nat)
    requires DistinctNats(started) && k < |started|
    ensures started[k] in started && started[k] !in started[..k]
    ensures started[..k + 1] == started[..k] + [started[k]]
  {
  }

  predicate DistinctItems(executed: seq<ExecutedCall>) {
    forall k, l :: 0 <= k < l < |executed| ==> executed[k].index != executed[l].index
  }

  lemma NoIndices(executed: seq<ExecutedCall>)
    ensures executed == [] <==> Indices(executed) == {}
    ensures executed == [] ==> !AnyStop(executed)
  {
    if executed != [] {
      assert executed[0].index in Indices(executed);
    }
  }

  lemma NextItem(executed: seq<ExecutedCall>, k: nat)
    requires DistinctItems(executed) && k < |executed|
    ensures executed[..k + 1] == executed[..k] + [executed[k]]
    ensures executed[k].index in Indices(executed) && executed[k].index !in Indices(executed[..k])
    ensures Indices(executed[..k + 1]) == Indices(executed[..k]) + {executed[k].index}
    ensures AnyStop(executed[..k + 1]) <==> AnyStop(executed[..k]) || executed[k].stop
  {
    var front, more := executed[..k], executed[..k + 1];
    assert more == front + [executed[k]];
    forall i ensures i in Indices(more) <==> i in Indices(front) + {executed[k].index} {
      if i in Indices(front) {
        var l :| 0 <= l < k && front[l].index == i;
        assert more[l].index == i;
      }
      if i == executed[k].index {
        assert more[k].index == i;
      }
    }
    if AnyStop(front) {
      var l :| 0 <= l < k && front[l].stop;
      assert more[l].stop;
    }
    if executed[k].stop {
      assert more[k].stop;
    }
  }

  /** The first `k + 1` outcomes are remembered. */
  lemma KeepOne(executed: seq<ExecutedCall>, k: nat, known: map<CallId, ToolResult>, known': map<CallId, ToolResult>,
                prepared: seq<PreparedCall>, outputs: Outputs, early: set<nat>, ran: set<nat>, done: set<nat>)
    requires Items(executed, ran, outputs) && k < |executed| && executed[k].index < |prepared|
    requires Indices(executed) !! done && early <= done
    requires Remembers(known, prepared, outputs, early + ran * Indices(executed[..k]))
    requires KnownBy(known, prepared, done + Indices(executed[..k]))
    requires var id := prepared[executed[k].index].callId;
             known' == known[id := executed[k].result] || (id in known && known' == known)
    ensures Remembers(known', prepared, outputs, early + ran * Indices(executed[..k + 1]))
    ensures KnownBy(known', prepared, done + Indices(executed[..k + 1]))
  {
    NextItem(executed, k);
    var (x, seen) := (executed[k].index, Indices(executed[..k]));
    var result := executed[k].result;
    assert x in ran ==> result == ToolResult(outputs[x], Executed);
    hide Indices, Remembers, KnownBy, Items;
    RememberOne(known, known', prepared, outputs, early + ran * seen, done + seen, x, result);
    assert done + seen + {x} == done + (seen + {x});
    if x in ran {
      assert early + ran * seen + {x} == early + ran * (seen + {x});
    } else {
      assert ran * seen == ran * (seen + {x});
    }
  }

  lemma KeptAll(executed: seq<ExecutedCall>, early: set<nat>, ran: set<nat>, done: set<nat>)
    requires ran <= Indices(executed)
    ensures executed[..|executed|] == executed && early + ran * Indices(executed) == early + ran
    ensures early + ran * Indices(executed[..0]) == early && done + Indices(executed[..0]) == done
  {
  }

  /** A call that finishes while the exception is handled is remembered as well. */
  lemma KeepFinished(known: map<CallId, ToolResult>, known': map<CallId, ToolResult>, prepared: seq<PreparedCall>, runs: Runs,
                     seen: set<nat>, x: nat, output: string)
    requires Remembers(known, prepared, runs.outputs, Elements(runs.order)) && KnownBy(known, prepared, seen)
    requires Grows(runs.outputs, RunNext(runs, x, output).outputs)
    requires x < |prepared| && x !in seen && x !in runs.order
    requires var id := prepared[x].callId;
             known' == known[id := ToolResult(output, Executed)] || (id in known && known' == known)
    ensures Remembers(known', prepared, RunNext(runs, x, output).outputs, Elements(RunNext(runs, x, output).order))
    ensures KnownBy(known', prepared, seen + {x})
  {
    var next := RunNext(runs, x, output);
    RemembersGrow(known, prepared, runs.outputs, next.outputs, Elements(runs.order));
    ElementsJoin(runs.order, [x]);
    assert Elements([x]) == {x};
    InElements(runs.order);
    hide Remembers, KnownBy;
    RememberOne(known, known', prepared, next.outputs, Elements(runs.order), seen, x, ToolResult(output, Executed));
  }

  lemma NothingStarted(started: seq<nat>, seen: set<nat>)
    ensures seen + Elements(started[..0]) == seen
  {
  }

  lemma StartedSeen(started: seq<nat>, k: nat, seen: set<nat>, known: map<CallId, ToolResult>, prepared: seq<PreparedCall>)
    requires k < |started| && DistinctNats(started) && KnownBy(known, prepared, seen + Elements(started[..k]))
    ensures seen + Elements(started[..k + 1]) == seen + Elements(started[..k]) + {started[k]}
    ensures KnownBy(known, prepared, seen + Elements(started[..k + 1]))
  {
    TakeNext(started, k);
    KnownByMore(known, prepared, seen + Elements(started[..k]), seen + Elements(started[..k + 1]));
  }

  lemma NotSeen(started: seq<nat>, k: nat, seen: set<nat>)
    requires k < |started| && DistinctNats(started) && started[k] !in seen
    ensures started[k] !in seen + Elements(started[..k])
  {
    TakeNext(started, k);
  }

  lemma FinishedOrder(before: seq<nat>, order: seq<nat>, running: set<nat>, x: nat)
    requires before <= order && Elements(order) <= Elements(before) + running && x in running
    ensures before <= order + [x] && Elements(order + [x]) <= Elements(before) + running
  {
    ElementsJoin(order, [x]);
  }

  // ---------------------------------------------------------------------------------
  // The repair
  // ---------------------------------------------------------------------------------

  function AnsweredIds(messages: seq<Message>): set<CallId> {
    set m | m in messages && m.Tool? :: m.callId
  }

  /** The calls from `from` on whose answer id is not in `answered`, in index order. */
  function Orphans(calls: seq<RawCall>, from: nat, answered: set<CallId>): seq<nat>
    requires from <= |calls|
    decreases |calls| - from
  {
    if from == |calls| then []
    else (if AnswerId(calls[from], from) !in answered then [from] else []) + Orphans(calls, from + 1, answered)
  }

  lemma {:induction false} NoOrphans(calls: seq<RawCall>, from: nat, answered: set<CallId>)
    requires from <= |calls| && forall i :: from <= i < |calls| ==> AnswerId(calls[i], i) in answered
    ensures Orphans(calls, from, answered) == []
    decreases |calls| - from
  {
    hide AnswerId;
    if from < |calls| {
      NoOrphans(calls, from + 1, answered);
    }
  }

  /** Behind a batch that is answered the repair finds nothing to do. */
  lemma AnsweredLeavesNone(calls: seq<RawCall>, before: seq<Message>, results: seq<Message>, notes: seq<Message>)
    requires Answers(calls, results)
    ensures Orphans(calls, 0, AnsweredIds(before + results + notes)) == []
  {
    hide AnswerId;
    var all := before + results + notes;
    forall i | 0 <= i < |calls| ensures AnswerId(calls[i], i) in AnsweredIds(all) {
      assert results[i].Tool? && results[i].callId == AnswerId(calls[i], i);
      assert all[|before| + i] == results[i];
      assert results[i] in all;
    }
    NoOrphans(calls, 0, AnsweredIds(all));
  }

  lemma {:induction false} OrphansInRange(calls: seq<RawCall>, from: nat, answered: set<CallId>)
    requires from <= |calls|
    ensures forall k :: 0 <= k < |Orphans(calls, from, answered)| ==> Orphans(calls, from, answered)[k] < |calls|
    decreases |calls| - from
  {
    if from < |calls| {
      OrphansInRange(calls, from + 1, answered);
    }
  }

  predicate IsRepair(calls: seq<RawCall>, orphans: seq<nat>, known: map<CallId, ToolResult>, repaired: seq<Message>)
  {
    && |repaired| == |orphans|
    && forall k :: 0 <= k < |orphans| ==>
         && orphans[k] < |calls| && repaired[k].Tool? && repaired[k].callId == AnswerId(calls[orphans[k]], orphans[k])
         && (if repaired[k].callId in known then repaired[k].result == known[repaired[k].callId]
             else repaired[k].result.source == Aborted)
  }

  lemma RepairNone(calls: seq<RawCall>, known: map<CallId, ToolResult>)
    ensures IsRepair(calls, [], known, [])
  {
  }

  lemma RepairNext(calls: seq<RawCall>, orphans: seq<nat>, k: nat, known: map<CallId, ToolResult>, repaired: seq<Message>, message: Message)
    requires k < |orphans| && orphans[k] < |calls| && IsRepair(calls, orphans[..k], known, repaired)
    requires message.Tool? && message.callId == AnswerId(calls[orphans[k]], orphans[k])
    requires if message.callId in known then message.result == known[message.callId] else message.result.source == Aborted
    ensures IsRepair(calls, orphans[..k + 1], known, repaired + [message])
  {
    assert orphans[..k + 1] == orphans[..k] + [orphans[k]];
  }

  /** A started call finishes while the exception is handled. */
  lemma FinishedMeanwhile(known: map<CallId, ToolResult>, prepared: seq<PreparedCall>, runs: Runs, index: nat, output: string)
    requires Truthful(known, prepared, runs.outputs) && index < |prepared|
    requires Grows(runs.outputs, RunNext(runs, index, output).outputs)
    ensures var more := RunNext(runs, index, output).outputs;
            && Truthful(known, prepared, more)
            && Truthful(known[prepared[index].callId := ToolResult(output, Executed)], prepared, more)
  {
    var more := RunNext(runs, index, output).outputs;
    TruthfulGrow(known, prepared, runs.outputs, more);
    TruthfulNext(known, prepared, more, index, ToolResult(output, Executed));
  }

  /** The repair as far as it got: the first orphans are answered, or all of them. */
  predicate RepairPart(calls: seq<RawCall>, messages: seq<Message>, known: map<CallId, ToolResult>, repaired: seq<Message>, all: bool) {
    var orphans := Orphans(calls, 0, AnsweredIds(messages));
    && |repaired| <= |orphans| && IsRepair(calls, orphans[..|repaired|], known, repaired)
    && (all <==> |repaired| == |orphans|)
  }

  predicate OwnAnswer(calls: seq<RawCall>, id: CallId, output: string, outputs: Outputs) {
    exists i :: 0 <= i < |calls| && AnswerId(calls[i], i) == id && i in outputs && output == outputs[i]
  }

  /** A repair answer that is marked executed is the output of a call with that id. */
  predicate OwnAnswers(calls: seq<RawCall>, repaired: seq<Message>, outputs: Outputs) {
    forall k :: 0 <= k < |repaired| && repaired[k].Tool? && repaired[k].result.source == Executed ==>
      OwnAnswer(calls, repaired[k].callId, repaired[k].result.output, outputs)
  }

  lemma RepairIsOwn(calls: seq<RawCall>, prepared: seq<PreparedCall>, outputs: Outputs, orphans: seq<nat>, known: map<CallId, ToolResult>, repaired: seq<Message>)
    requires InBatch(prepared, calls) && Truthful(known, prepared, outputs) && IsRepair(calls, orphans, known, repaired)
    ensures OwnAnswers(calls, repaired, outputs)
  {
    hide AnswerId;
    forall k | 0 <= k < |repaired| && repaired[k].Tool? && repaired[k].result.source == Executed
      ensures OwnAnswer(calls, repaired[k].callId, repaired[k].result.output, outputs)
    {
      var id := repaired[k].callId;
      assert id in known && TrueFor(known[id], id, prepared, outputs);
      var i :| 0 <= i < |prepared| && prepared[i].callId == id && i in outputs && known[id].output == outputs[i];
      assert AnswerId(calls[i], i) == id;
    }
  }

  /** A call that ran is never answered as aborted, and is answered with its own output
      unless another call has its id. */
  predicate RanAnswered(calls: seq<RawCall>, answer: Message, runs: Runs, i: nat)
    requires i < |calls| && answer.Tool?
  {
    && answer.result.source != Aborted
    && ((forall j :: 0 <= j < |calls| && j != i ==> AnswerId(calls[j], j) != AnswerId(calls[i], i)) ==>
          i in runs.outputs && answer.result == ToolResult(runs.outputs[i], Executed))
  }

  ghost predicate RanAreAnswered(calls: seq<RawCall>, repaired: seq<Message>, runs: Runs) {
    forall k, i :: 0 <= k < |repaired| && repaired[k].Tool? && i in runs.order && i < |calls| && repaired[k].callId == AnswerId(calls[i], i) ==>
      RanAnswered(calls, repaired[k], runs, i)
  }

  lemma RepairRemembers(calls: seq<RawCall>, prepared: seq<PreparedCall>, runs: Runs, orphans: seq<nat>,
                        known: map<CallId, ToolResult>, repaired: seq<Message>)
    requires InBatch(prepared, calls) && Recall(known, prepared, runs) && IsRepair(calls, orphans, known, repaired)
    ensures RanAreAnswered(calls, repaired, runs)
  {
    hide AnswerId;
    forall k, i | 0 <= k < |repaired| && repaired[k].Tool? && i in runs.order && i < |calls| && repaired[k].callId == AnswerId(calls[i], i)
      ensures RanAnswered(calls, repaired[k], runs, i)
    {
      InElements(runs.order);
      assert Remembered(known, prepared, runs.outputs, i);
      var id := repaired[k].callId;
      assert id in known && TrueFor(known[id], id, prepared, runs.outputs);
      if forall j :: 0 <= j < |calls| && j != i ==> AnswerId(calls[j], j) != AnswerId(calls[i], i) {
        assert Alone(prepared, i);
      }
    }
  }

  lemma NothingKept(calls: seq<RawCall>, orphans: seq<nat>, repaired: seq<Message>, runs: Runs)
    requires IsRepair(calls, orphans, map[], repaired) && runs.order == []
    ensures OwnAnswers(calls, repaired, runs.outputs) && RanAreAnswered(calls, repaired, runs)
  {
    hide AnswerId;
  }

  lemma RepairDone(calls: seq<RawCall>, messages: seq<Message>, known: map<CallId, ToolResult>, repaired: seq<Message>, all: bool)
    requires var orphans := Orphans(calls, 0, AnsweredIds(messages));
             && |repaired| <= |orphans| && IsRepair(calls, orphans[..|repaired|], known, repaired)
             && (all <==> |repaired| == |orphans|)
    ensures RepairPart(calls, messages, known, repaired, all)
  {
    hide IsRepair, Orphans;
  }

  /** Each recorded result that is marked executed is the call's own output. */
  predicate OwnRecords(results: seq<Message>, outputs: Outputs) {
    forall i :: 0 <= i < |results| && results[i].Tool? ==> Own(results[i].result, i, outputs)
  }

  /** A recorded result is marked as executed exactly when its call ran. */
  predicate RanRecorded(results: seq<Message>, order: seq<nat>) {
    forall i: nat :: i < |results| && results[i].Tool? ==> (results[i].result.source == Executed <==> i in order)
  }

  lemma NoAnswers(calls: seq<RawCall>)
    ensures AnswersFrom(calls, 0, []) && OwnRecords([], map[]) && RanRecorded([], [])
  {
  }

  lemma AllAnswered(calls: seq<RawCall>, results: seq<Message>)
    requires AnswersFrom(calls, 0, results) && |results| == |calls|
    ensures Answers(calls, results)
  {
  }

  // ---------------------------------------------------------------------------------
  // Which calls may run
  // ---------------------------------------------------------------------------------

  /** Of each call, whether validation, profile and middlewares let it run. */
  type Guard = nat -> bool

  predicate RefusedBy(prepared: seq<PreparedCall>, admits: Guard) {
    forall i :: 0 <= i < |prepared| && prepared[i].blocked.Some? ==> !admits(i)
  }

  /** Calls are only intercepted when they may not run. */
  predicate Justified(executed: seq<ExecutedCall>, admits: Guard) {
    forall k :: 0 <= k < |executed| && executed[k].result.source == Intercepted ==> !admits(executed[k].index)
  }

  predicate Guarded(given: map<nat, ToolResult>, admits: Guard) {
    forall i :: i in given && given[i].source == Intercepted ==> !admits(i)
  }

  predicate AllAdmitted(order: seq<nat>, admits: Guard) {
    forall i :: i in order ==> admits(i)
  }

  lemma NothingRefused(admits: Guard)
    ensures Justified([], admits) && Guarded(map[], admits) && AllAdmitted([], admits)
  {
  }

  lemma JustifiedNext(executed: seq<ExecutedCall>, admits: Guard, item: ExecutedCall)
    requires Justified(executed, admits) && (item.result.source == Intercepted ==> !admits(item.index))
    ensures Justified(executed + [item], admits)
  {
  }

  lemma AdmittedNext(order: seq<nat>, ready: seq<nat>, index: nat, admits: Guard)
    requires AllAdmitted(order, admits) && AllAdmitted(ready, admits) && index in Elements(ready)
    ensures AllAdmitted(order + [index], admits)
  {
  }

  lemma AdmittedAfter(before: seq<nat>, running: set<nat>, ready: seq<nat>, after: seq<nat>, admits: Guard)
    requires AllAdmitted(before, admits) && AllAdmitted(ready, admits) && running <= Elements(ready)
    requires Elements(after) <= Elements(before) + running
    ensures AllAdmitted(after, admits)
  {
    InElements(after);
  }

  /** Half way through the checks of a group: every call that was looked at is answered or
      may run, and none is both. */
  ghost predicate Admitting(executed: seq<ExecutedCall>, ready: seq<nat>, looked: set<nat>, prepared: seq<PreparedCall>,
                            outputs: Outputs, admits: Guard)
  {
    && Items(executed, {}, outputs) && Justified(executed, admits)
    && DistinctNats(ready) && Unblocked(prepared, ready) && AllAdmitted(ready, admits)
    && Indices(executed) !! Elements(ready) && Indices(executed) + Elements(ready) == looked
  }

  lemma AdmittingStarts(prepared: seq<PreparedCall>, outputs: Outputs, admits: Guard)
    ensures Admitting([], [], {}, prepared, outputs, admits) && !AnyStop([])
  {
  }

  lemma AdmittingItem(executed: seq<ExecutedCall>, ready: seq<nat>, looked: set<nat>, prepared: seq<PreparedCall>,
                      outputs: Outputs, admits: Guard, item: ExecutedCall)
    requires Admitting(executed, ready, looked, prepared, outputs, admits) && item.index !in looked
    requires (item.result.source == OverBudget && item.stop) || (item.result.source == Intercepted && !admits(item.index))
    ensures Admitting(executed + [item], ready, looked + {item.index}, prepared, outputs, admits)
    ensures AnyStop(executed + [item]) <==> AnyStop(executed) || item.stop
  {
    ItemsNext(executed, {}, outputs, item);
    JustifiedNext(executed, admits, item);
    hide Items, Justified, AnyStop;
  }

  lemma AdmittingReady(executed: seq<ExecutedCall>, ready: seq<nat>, looked: set<nat>, prepared: seq<PreparedCall>,
                       outputs: Outputs, admits: Guard, index: nat)
    requires Admitting(executed, ready, looked, prepared, outputs, admits) && index !in looked
    requires index < |prepared| && prepared[index].blocked.None? && admits(index)
    ensures Admitting(executed, ready + [index], looked + {index}, prepared, outputs, admits)
  {
    hide Items, Justified, Indices;
    assert Elements(ready + [index]) == Elements(ready) + {index};
  }

  lemma AdmittingParts(executed: seq<ExecutedCall>, ready: seq<nat>, looked: set<nat>, prepared: seq<PreparedCall>,
                       outputs: Outputs, admits: Guard)
    requires Admitting(executed, ready, looked, prepared, outputs, admits)
    ensures Items(executed, {}, outputs) && Justified(executed, admits)
    ensures DistinctNats(ready) && Unblocked(prepared, ready) && AllAdmitted(ready, admits)
    ensures Indices(executed) !! Elements(ready) && Indices(executed) + Elements(ready) == looked
    ensures looked != {} && ready == [] ==> executed != [] && Indices(executed) == looked
  {
  }

  lemma LookNext(selected: seq<nat>, k: nat)
    requires k < |selected| && DistinctNats(selected)
    ensures Elements(selected[..k + 1]) == Elements(selected[..k]) + {selected[k]} && selected[k] !in Elements(selected[..k])
    ensures selected[k] in selected && Elements(selected[..k + 1]) <= Elements(selected)
    ensures Elements(selected[..0]) == {} && selected[..|selected|] == selected
  {
    TakeNext(selected, k);
  }

  lemma RefusedParts(prepared: seq<PreparedCall>, admits: Guard, index: nat)
    requires BlockedMarked(prepared) && RefusedBy(prepared, admits) && index < |prepared|
    ensures prepared[index].blocked.Some? ==> prepared[index].blocked.value.source == Intercepted && !admits(index)
  {
  }

  lemma AdmittedParts(order: seq<nat>, admits: Guard)
    requires AllAdmitted(order, admits)
    ensures forall i :: i in order ==> admits(i)
  {
  }

  lemma SameSize(prepared: seq<PreparedCall>, calls: seq<RawCall>)
    requires InBatch(prepared, calls)
    ensures |prepared| == |calls|
  {
  }

  lemma GuardedMore(before: map<nat, ToolResult>, executed: seq<ExecutedCall>, given: map<nat, ToolResult>, admits: Guard)
    requires Guarded(before, admits) && Justified(executed, admits) && Gives(before, executed, given)
    ensures Guarded(given, admits)
  {
    forall i | i in given && given[i].source == Intercepted ensures !admits(i) {
      if i in Indices(executed) {
        var k :| 0 <= k < |executed| && executed[k].index == i;
        assert given[executed[k].index] == executed[k].result;
      }
    }
  }

  /** Without a stop, every call that may run did. */
  lemma AdmittedRan(prepared: seq<PreparedCall>, actions: Actions, known: map<CallId, ToolResult>, given: map<nat, ToolResult>,
                    recorded: nat, runs: Runs, world: PlannedOrder.Store, admits: Guard)
    requires BatchEnds(prepared, actions, known, given, recorded, runs, world, false, false) && Guarded(given, admits)
    ensures forall i: nat :: i < |prepared| && admits(i) ==> i in runs.order
  {
    hide Performed, Recall, OwnGiven, PlannedOrder.Respects;
  }

  // ---------------------------------------------------------------------------------
  // A group on its way
  // ---------------------------------------------------------------------------------

  /** `executed` has completed and `running` has not; of the calls that were `ready` to run,
      those of `ran` did, which took the batch from `before` to `after`. */
  ghost predicate Underway(executed: seq<ExecutedCall>, ran: seq<nat>, running: set<nat>, ready: seq<nat>, selected: seq<nat>,
                           prepared: seq<PreparedCall>, known: map<CallId, ToolResult>, actions: Actions, before: Runs, after: Runs)
  {
    && Items(executed, Elements(ran), after.outputs) && DistinctNats(ran)
    && Indices(executed) !! running && Indices(executed) + running <= Elements(selected)
    && Elements(ran) <= Indices(executed) && running + Elements(ran) <= Elements(ready)
    && (executed != [] || running == Elements(ready))
    && Truthful(known, prepared, after.outputs) && Performed(actions, after)
    && after.start == before.start && after.order == before.order + ran && Grows(before.outputs, after.outputs)
  }

  lemma UnderwayStarts(executed: seq<ExecutedCall>, ready: seq<nat>, selected: seq<nat>,
                       prepared: seq<PreparedCall>, known: map<CallId, ToolResult>, actions: Actions, runs: Runs)
    requires Items(executed, {}, runs.outputs) && Truthful(known, prepared, runs.outputs) && Performed(actions, runs)
    requires Indices(executed) !! Elements(ready) && Indices(executed) + Elements(ready) <= Elements(selected)
    ensures Underway(executed, [], Elements(ready), ready, selected, prepared, known, actions, runs, runs)
  {
    hide Items, Truthful, Performed;
    NoRuns(runs.order);
  }

  lemma UnderwayNext(executed: seq<ExecutedCall>, ran: seq<nat>, running: set<nat>, ready: seq<nat>, selected: seq<nat>,
                     prepared: seq<PreparedCall>, known: map<CallId, ToolResult>, actions: Actions, before: Runs, after: Runs, index: nat)
    requires Underway(executed, ran, running, ready, selected, prepared, known, actions, before, after)
    requires index in running && forall i :: i in selected ==> i !in before.order
    ensures
      var step := actions(index)(WorldAfter(actions, after));
      var item := ExecutedCall(index, ToolResult(step.result, Executed), false);
      var next := RunNext(after, index, step.result);
      && Underway(executed + [item], ran + [index], running - {index}, ready, selected, prepared, known, actions, before, next)
      && WorldAfter(actions, next) == step.store
      && (AnyStop(executed + [item]) <==> AnyStop(executed))
      && Indices(executed + [item]) + (running - {index}) == Indices(executed) + running
  {
    hide Items, Truthful, Performed, Grows, WorldAfter, AnyStop, Indices, Elements, DistinctNats;
    var step := actions(index)(WorldAfter(actions, after));
    NotYetRun(before.order, ran, selected, executed, index);
    PerformNext(actions, after, index);
    GroupNext(executed, ran, prepared, known, after.outputs, index, step.result);
    GrowsOn(before.outputs, after.outputs, RunNext(after, index, step.result).outputs);
    assert before.order + (ran + [index]) == before.order + ran + [index];
  }

  /** What the exception path finds. */
  lemma UnderwayStops(executed: seq<ExecutedCall>, ran: seq<nat>, running: set<nat>, ready: seq<nat>, selected: seq<nat>,
                      prepared: seq<PreparedCall>, known: map<CallId, ToolResult>, actions: Actions, before: Runs, after: Runs)
    requires Underway(executed, ran, running, ready, selected, prepared, known, actions, before, after)
    requires forall i :: i in selected ==> i < |prepared| && i !in before.order
    requires Unblocked(prepared, ready)
    ensures forall i :: i in Indices(executed) ==> i < |prepared|
    ensures forall i :: i in running ==> i !in after.order
    ensures Items(executed, Elements(ran), after.outputs) && Truthful(known, prepared, after.outputs) && Performed(actions, after)
    ensures after.start == before.start && Grows(before.outputs, after.outputs)
    ensures forall i :: i in ready ==> i < |prepared|
    ensures after.order == before.order + ran && Elements(after.order) == Elements(before.order) + Elements(ran)
    ensures Elements(ran) <= Indices(executed) && running !! Indices(executed)
    ensures Indices(executed) + running <= Elements(selected)
  {
    hide Items, Truthful, Performed, Grows, DistinctNats, Indices;
    InElements(selected);
    InElements(ran);
    ElementsJoin(before.order, ran);
  }

  /** What the exception path takes over from the group. */
  lemma InterruptedParts(executed: seq<ExecutedCall>, ran: seq<nat>, running: set<nat>, selected: seq<nat>,
                         prepared: seq<PreparedCall>, known: map<CallId, ToolResult>, actions: Actions, before: Runs, after: Runs, done: set<nat>)
    requires Memory(known, prepared, before, done) && Grows(before.outputs, after.outputs)
    requires Indices(executed) + running <= Elements(selected) && forall i :: i in selected ==> i !in done
    ensures Remembers(known, prepared, after.outputs, Elements(before.order)) && KnownBy(known, prepared, done)
    ensures Elements(before.order) <= done && Indices(executed) !! done && running !! done
  {
    hide Indices, Remembers, KnownBy, Truthful, Grows;
    RemembersGrow(known, prepared, before.outputs, after.outputs, Elements(before.order));
    InElements(selected);
    assert Elements(selected) !! done;
  }

  lemma InterruptedRuns(before: seq<nat>, ran: seq<nat>, running: set<nat>, selected: seq<nat>, after: seq<nat>)
    requires before + ran <= after && Elements(after) <= Elements(before + ran) + running
    requires Elements(ran) <= Elements(selected) && running <= Elements(selected)
    ensures (forall i :: i in before ==> i in after) && forall i :: i in after ==> i in before || i in selected
  {
    InElements(selected);
    InElements(after);
    InElements(before);
    ElementsJoin(before, ran);
    assert forall i :: i in before ==> i in before + ran;
    assert after == (before + ran) + after[|before + ran|..];
  }

  lemma UnderwayEnds(executed: seq<ExecutedCall>, ran: seq<nat>, ready: seq<nat>, selected: seq<nat>,
                     prepared: seq<PreparedCall>, known: map<CallId, ToolResult>, actions: Actions, before: Runs, after: Runs)
    requires Underway(executed, ran, {}, ready, selected, prepared, known, actions, before, after)
    requires ready != [] && Unblocked(prepared, ready)
    ensures executed != [] && Items(executed, Elements(ran), after.outputs) && Indices(executed) <= Elements(selected)
    ensures DistinctNats(ran) && Elements(ran) <= Indices(executed) && Unblocked(prepared, ran)
    ensures after.order == before.order + ran
  {
    hide Items, Truthful, Performed, Grows, DistinctNats, Indices;
    InElements(ready);
    UnblockedSome(prepared, ready, ran);
  }

  // ---------------------------------------------------------------------------------
  // Recording in index order
  // ---------------------------------------------------------------------------------

  predicate Known(given: map<nat, ToolResult>, upTo: nat) {
    forall i: nat :: i < upTo ==> i in given
  }

  /** Bookkeeping of one batch: what is pending, what completed with which result, what of
      that waits to be recorded, and which call is recorded next. */
  datatype Progress = Progress(
    pending: set<nat>,
    completed: set<nat>,
    buffered: map<nat, ExecutedCall>,
    given: map<nat, ToolResult>,
    next: nat)

  ghost predicate SoundProgress(p: Progress, n: nat) {
    && Partition(n, p.pending, p.completed) && p.given.Keys == p.completed
    && p.next <= n && Known(p.given, p.next)
    && (forall i :: i in p.buffered <==> i in p.completed && p.next <= i)
    && (forall i :: i in p.buffered ==> p.buffered[i].index == i && p.buffered[i].result == p.given[i])
  }

  lemma ProgressParts(p: Progress, n: nat)
    requires SoundProgress(p, n)
    ensures Partition(n, p.pending, p.completed) && p.given.Keys == p.completed
  {
  }

  lemma NotCompleted(p: Progress, n: nat, indices: set<nat>)
    requires SoundProgress(p, n) && indices <= p.pending
    ensures indices !! p.completed
  {
  }

  lemma SelectedNotDone(p: Progress, n: nat, selected: seq<nat>)
    requires SoundProgress(p, n) && forall i :: i in selected ==> i in p.pending
    ensures forall i :: i in selected ==> i !in p.completed && i !in p.given
  {
  }

  lemma PendingInRange(p: Progress, n: nat, index: nat)
    requires SoundProgress(p, n) && index in p.pending
    ensures index < n
  {
  }

  lemma NextInRange(p: Progress, n: nat)
    requires SoundProgress(p, n)
    ensures p.next <= n
  {
  }

  lemma FinishSound(p: Progress, n: nat, item: ExecutedCall)
    requires SoundProgress(p, n) && item.index in p.pending
    ensures SoundProgress(Progress(p.pending - {item.index}, p.completed + {item.index}, p.buffered[item.index := item],
                                   p.given[item.index := item.result], p.next), n)
  {
    assert p.next <= item.index;
  }

  function Records(prepared: seq<PreparedCall>, given: map<nat, ToolResult>, upTo: nat): (records: seq<Message>)
    requires upTo <= |prepared| && Known(given, upTo)
    ensures |records| == upTo
  {
    seq(upTo, i requires 0 <= i < upTo => Tool(prepared[i].callId, given[i]))
  }

  lemma RecordsAnswer(calls: seq<RawCall>, prepared: seq<PreparedCall>, given: map<nat, ToolResult>, recorded: nat)
    requires InBatch(prepared, calls) && recorded <= |prepared| && Known(given, recorded)
    ensures AnswersFrom(calls, 0, Records(prepared, given, recorded))
  {
  }

  /** Results are recorded in index order, one per call, up to `upTo`. */
  predicate Recording(messages: seq<Message>, raw: seq<Message>, base: seq<Message>, rawBase: seq<Message>,
                      prepared: seq<PreparedCall>, given: map<nat, ToolResult>, upTo: nat)
  {
    && upTo <= |prepared| && Known(given, upTo)
    && messages == base + Records(prepared, given, upTo) && raw == rawBase + Records(prepared, given, upTo)
  }

  lemma RecordNext(p: Progress, prepared: seq<PreparedCall>)
    requires SoundProgress(p, |prepared|) && p.next in p.buffered
    ensures p.next < |prepared| && p.buffered[p.next].index == p.next
    ensures SoundProgress(p.(buffered := p.buffered - {p.next}, next := p.next + 1), |prepared|)
    ensures Records(prepared, p.given, p.next + 1)
         == Records(prepared, p.given, p.next) + [Tool(prepared[p.next].callId, p.buffered[p.next].result)]
  {
  }

  /** Recording the next buffered result. */
  lemma RecordOne(messages: seq<Message>, raw: seq<Message>, base: seq<Message>, rawBase: seq<Message>, prepared: seq<PreparedCall>,
                  p: Progress)
    requires SoundProgress(p, |prepared|) && p.next in p.buffered
    requires Recording(messages, raw, base, rawBase, prepared, p.given, p.next)
    ensures p.next < |prepared| && p.buffered[p.next].index == p.next
    ensures SoundProgress(p.(buffered := p.buffered - {p.next}, next := p.next + 1), |prepared|)
    ensures var added := [Tool(prepared[p.next].callId, p.buffered[p.next].result)];
            Recording(messages + added, raw + added, base, rawBase, prepared, p.given, p.next + 1)
  {
    hide Records;
    RecordNext(p, prepared);
  }

  lemma AllRecorded(p: Progress, n: nat)
    requires SoundProgress(p, n) && p.pending == {} && p.next !in p.buffered
    ensures p.next == n
  {
  }

  lemma RecordsAgree(prepared: seq<PreparedCall>, before: map<nat, ToolResult>, after: map<nat, ToolResult>, upTo: nat)
    requires upTo <= |prepared| && Known(before, upTo) && Known(after, upTo)
    requires forall i: nat :: i < upTo ==> before[i] == after[i]
    ensures Records(prepared, before, upTo) == Records(prepared, after, upTo)
  {
  }

  /** `after` adds the results of `executed` to `before`. */
  predicate Gives(before: map<nat, ToolResult>, executed: seq<ExecutedCall>, after: map<nat, ToolResult>) {
    && after.Keys == before.Keys + Indices(executed)
    && (forall i :: i in before && i !in Indices(executed) ==> after[i] == before[i])
    && (forall k :: 0 <= k < |executed| ==> after[executed[k].index] == executed[k].result)
  }

  lemma NothingGiven(given: map<nat, ToolResult>)
    ensures Gives(given, [], given)
  {
  }

  lemma GivesNext(before: map<nat, ToolResult>, executed: seq<ExecutedCall>, after: map<nat, ToolResult>, item: ExecutedCall)
    requires Gives(before, executed, after) && item.index !in Indices(executed)
    ensures Gives(before, executed + [item], after[item.index := item.result])
  {
    var more := executed + [item];
    forall i ensures i in Indices(more) <==> i in Indices(executed) + {item.index} {
      if i in Indices(executed) {
        var l :| 0 <= l < |executed| && executed[l].index == i;
        assert more[l].index == i;
      }
      if i == item.index {
        assert more[|executed|].index == i;
      }
    }
    forall k | 0 <= k < |executed| ensures executed[k].index != item.index {
      assert executed[k].index in Indices(executed);
    }
  }

  lemma RecordingSame(messages: seq<Message>, raw: seq<Message>, base: seq<Message>, rawBase: seq<Message>, prepared: seq<PreparedCall>,
                      before: map<nat, ToolResult>, executed: seq<ExecutedCall>, given: map<nat, ToolResult>, next: nat)
    requires Recording(messages, raw, base, rawBase, prepared, before, next)
    requires Gives(before, executed, given) && Indices(executed) !! before.Keys
    ensures Recording(messages, raw, base, rawBase, prepared, given, next)
  {
    RecordsAgree(prepared, before, given, next);
  }

  /** `after` keeps the results of the completed calls and blocks the calls of `blocked`. */
  predicate Blocks(given: map<nat, ToolResult>, completed: set<nat>, blocked: set<nat>, after: map<nat, ToolResult>) {
    && (forall i :: i in completed ==> i in given && i in after && after[i] == given[i])
    && (forall i :: i in blocked ==> i in after && after[i].source == OverBudget)
  }

  lemma NoneBlocked(p: Progress, n: nat)
    requires SoundProgress(p, n)
    ensures Blocks(p.given, p.completed, {}, p.given)
    ensures IndexSet(0) == {} && p.pending - IndexSet(0) == p.pending && p.pending - p.pending == {}
    ensures forall i :: i in p.pending ==> i < n
  {
  }

  lemma BlocksNext(given: map<nat, ToolResult>, completed: set<nat>, blocked: set<nat>, after: map<nat, ToolResult>, item: ExecutedCall)
    requires Blocks(given, completed, blocked, after) && item.index !in completed && item.result.source == OverBudget
    ensures Blocks(given, completed, blocked + {item.index}, after[item.index := item.result])
  {
  }

  /** Half way through blocking: `rest` of the pending calls are still to be answered. */
  ghost predicate Blocking(p: Progress, n: nat, rest: set<nat>, buffered: map<nat, ExecutedCall>, given: map<nat, ToolResult>) {
    && rest <= p.pending && (forall i :: i in p.pending ==> i < n && i !in p.completed)
    && SoundProgress(Progress(rest, p.completed + (p.pending - rest), buffered, given, p.next), n)
    && Blocks(p.given, p.completed, p.pending - rest, given)
  }

  lemma BlockingStarts(p: Progress, n: nat)
    requires SoundProgress(p, n)
    ensures Blocking(p, n, p.pending, p.buffered, p.given) && p.pending - IndexSet(0) == p.pending
  {
    NoneBlocked(p, n);
    assert p.completed + (p.pending - p.pending) == p.completed;
    ProgressParts(p, n);
  }

  lemma BlockingNext(p: Progress, n: nat, rest: set<nat>, buffered: map<nat, ExecutedCall>, given: map<nat, ToolResult>, item: ExecutedCall)
    requires Blocking(p, n, rest, buffered, given) && item.index in rest && item.result.source == OverBudget
    ensures Blocking(p, n, rest - {item.index}, buffered[item.index := item], given[item.index := item.result])
  {
    hide SoundProgress, Blocks;
    FinishSound(Progress(rest, p.completed + (p.pending - rest), buffered, given, p.next), n, item);
    BlocksNext(p.given, p.completed, p.pending - rest, given, item);
    assert p.pending - (rest - {item.index}) == p.pending - rest + {item.index};
    assert p.completed + (p.pending - rest) + {item.index} == p.completed + (p.pending - (rest - {item.index}));
  }

  lemma BlockingEnds(p: Progress, n: nat, buffered: map<nat, ExecutedCall>, given: map<nat, ToolResult>)
    requires Blocking(p, n, p.pending - IndexSet(n), buffered, given)
    ensures SoundProgress(Progress({}, p.completed + p.pending, buffered, given, p.next), n)
    ensures Blocks(p.given, p.completed, p.pending, given)
  {
    hide SoundProgress, Blocks;
    assert p.pending - IndexSet(n) == {};
    assert p.pending - {} == p.pending;
  }

  lemma RecordingKept(messages: seq<Message>, raw: seq<Message>, base: seq<Message>, rawBase: seq<Message>, prepared: seq<PreparedCall>,
                      p: Progress, given: map<nat, ToolResult>)
    requires Recording(messages, raw, base, rawBase, prepared, p.given, p.next) && SoundProgress(p, |prepared|)
    requires Blocks(p.given, p.completed, p.pending, given)
    ensures Recording(messages, raw, base, rawBase, prepared, given, p.next)
  {
    RecordsAgree(prepared, p.given, given, p.next);
  }

  /** The results given so far are marked as executed exactly for the calls that ran. */
  predicate MarkedRun(given: map<nat, ToolResult>, order: seq<nat>) {
    forall i :: i in given ==> (given[i].source == Executed <==> i in order)
  }

  predicate OwnGiven(given: map<nat, ToolResult>, outputs: Outputs) {
    forall i :: i in given ==> Own(given[i], i, outputs)
  }

  lemma RecordsOwn(prepared: seq<PreparedCall>, given: map<nat, ToolResult>, recorded: nat, outputs: Outputs)
    requires recorded <= |prepared| && Known(given, recorded) && OwnGiven(given, outputs)
    ensures OwnRecords(Records(prepared, given, recorded), outputs)
  {
  }

  lemma RecordsRan(prepared: seq<PreparedCall>, given: map<nat, ToolResult>, recorded: nat, order: seq<nat>)
    requires recorded <= |prepared| && Known(given, recorded) && MarkedRun(given, order)
    ensures RanRecorded(Records(prepared, given, recorded), order)
  {
  }

  // ---------------------------------------------------------------------------------
  // Schedules
  // ---------------------------------------------------------------------------------

  /** The ready calls that need no approval, in order. */
  function WithoutApproval(ready: seq<nat>, prepared: seq<PreparedCall>): (safe: seq<nat>)
    requires forall i :: i in ready ==> i < |prepared|
    ensures forall i :: i in safe ==> i in ready
  {
    if ready == [] then []
    else
      assert ready[0] in ready && forall i :: i in ready[1..] ==> i in ready;
      (if prepared[ready[0]].needsApproval then [] else [ready[0]]) + WithoutApproval(ready[1..], prepared)
  }

  lemma {:induction false} WithoutApprovalDistinct(ready: seq<nat>, prepared: seq<PreparedCall>)
    requires forall i :: i in ready ==> i < |prepared|
    requires DistinctNats(ready)
    ensures DistinctNats(WithoutApproval(ready, prepared))
  {
    if ready != [] {
      assert forall i :: i in ready[1..] ==> i in ready;
      WithoutApprovalDistinct(ready[1..], prepared);
      var rest := WithoutApproval(ready[1..], prepared);
      forall k | 0 <= k < |rest| ensures rest[k] != ready[0] {
        assert rest[k] in rest;
      }
    }
  }

  lemma ReadyDistinct(deps: seq<set<nat>>, pending: set<nat>, completed: set<nat>, n: nat)
    requires |deps| == n
    ensures DistinctNats(Ready(deps, pending, completed))
    ensures forall i :: i in Ready(deps, pending, completed) ==> i < n && i in pending
  {
  }

  lemma SelectedIsReady(ready: seq<nat>, prepared: seq<PreparedCall>, selected: seq<nat>)
    requires ready != [] && (forall i :: i in ready ==> i < |prepared|) && DistinctNats(ready)
    requires selected == if WithoutApproval(ready, prepared) != [] then WithoutApproval(ready, prepared) else [ready[0]]
    ensures selected != [] && DistinctNats(selected)
    ensures forall i :: i in selected ==> i in ready && i < |prepared|
  {
    WithoutApprovalDistinct(ready, prepared);
    assert ready[0] in ready;
  }

  predicate AllRan(given: map<nat, ToolResult>) {
    forall i :: i in given ==> Ran(given[i])
  }

  /** What a schedule keeps: a call completes only after everything it depends on, and
      `order` lists the calls that ran, none before one it depends on. */
  ghost predicate Scheduled(effects: seq<CallEffect>, deps: seq<set<nat>>, given: map<nat, ToolResult>, order: seq<nat>, outputs: Outputs) {
    && AreDependencies(effects, deps)
    && (forall i :: i in given ==> i < |effects| && deps[i] <= given.Keys)
    && DistinctNats(order) && PlannedOrder.Respects(effects, order)
    && (forall i :: i in order ==> i in given)
    && (forall i :: i in given ==> (given[i].source == Executed <==> i in order) && Own(given[i], i, outputs))
  }

  lemma ScheduledParts(effects: seq<CallEffect>, deps: seq<set<nat>>, given: map<nat, ToolResult>, order: seq<nat>, outputs: Outputs)
    requires Scheduled(effects, deps, given, order, outputs)
    ensures AreDependencies(effects, deps) && |deps| == |effects| && OwnGiven(given, outputs)
  {
  }

  lemma ScheduledGrow(effects: seq<CallEffect>, deps: seq<set<nat>>, given: map<nat, ToolResult>, order: seq<nat>, outputs: Outputs, more: Outputs)
    requires Scheduled(effects, deps, given, order, outputs) && Grows(outputs, more)
    ensures Scheduled(effects, deps, given, order, more) && OwnGiven(given, more)
  {
  }

  lemma PendingNotRun(p: Progress, n: nat, effects: seq<CallEffect>, deps: seq<set<nat>>, runs: Runs)
    requires SoundProgress(p, n) && Scheduled(effects, deps, p.given, runs.order, runs.outputs)
    ensures forall i :: i in p.pending ==> i !in runs.order
  {
  }

  lemma NothingYet(prepared: seq<PreparedCall>, effects: seq<CallEffect>, deps: seq<set<nat>>, pending: set<nat>, base: seq<Message>, rawBase: seq<Message>, outputs: Outputs)
    requires |effects| == |prepared| && AreDependencies(effects, deps) && pending == IndexSet(|prepared|)
    ensures SoundProgress(Progress(pending, {}, map[], map[], 0), |prepared|)
    ensures Scheduled(effects, deps, map[], [], outputs)
    ensures Recording(base, rawBase, base, rawBase, prepared, map[], 0)
    ensures AllRan(map[])
  {
  }

  lemma GroupIsPending(deps: seq<set<nat>>, pending: set<nat>, completed: set<nat>, selected: seq<nat>, executed: seq<ExecutedCall>, ran: seq<nat>, outputs: Outputs)
    requires forall i :: i in selected ==> i in Ready(deps, pending, completed)
    requires Items(executed, Elements(ran), outputs) && Indices(executed) <= Elements(selected) && executed != []
    ensures DistinctItems(executed) && Indices(executed) <= pending && Indices(executed) != {}
    ensures forall i :: i in Indices(executed) ==> i in Ready(deps, pending, completed)
  {
    NoIndices(executed);
  }

  lemma GivenBySource(before: map<nat, ToolResult>, executed: seq<ExecutedCall>, given: map<nat, ToolResult>, ran: seq<nat>, i: nat, outputs: Outputs)
    requires Gives(before, executed, given) && Items(executed, Elements(ran), outputs) && i in given
    ensures i in Indices(executed) ==> (given[i].source == Executed <==> i in ran) && Own(given[i], i, outputs)
    ensures i !in Indices(executed) ==> i in before && given[i] == before[i]
  {
    if i in Indices(executed) {
      var k :| 0 <= k < |executed| && executed[k].index == i;
      assert given[executed[k].index] == executed[k].result;
    }
  }

  lemma RespectsMore(effects: seq<CallEffect>, deps: seq<set<nat>>, pending: set<nat>, completed: set<nat>, order: seq<nat>, ran: seq<nat>)
    requires AreDependencies(effects, deps) && Partition(|effects|, pending, completed)
    requires PlannedOrder.Respects(effects, order) && DistinctNats(order) && DistinctNats(ran)
    requires forall i :: i in order ==> i in completed && deps[i] <= completed
    requires forall i :: i in ran ==> i in Ready(deps, pending, completed)
    ensures PlannedOrder.Respects(effects, order + ran) && DistinctNats(order + ran)
  {
    var all := order + ran;
    forall k | 0 <= k < |all| ensures all[k] < |effects| {
      assert k >= |order| ==> all[k] in ran;
    }
    forall k, l | 0 <= k < l < |all| ensures all[k] != all[l] && (all[l] < all[k] ==> !MustPrecede(effects[all[l]], effects[all[k]])) {
      if k < |order| && l < |order| {
        assert all[k] == order[k] && all[l] == order[l];
      } else if k < |order| {
        assert all[k] == order[k] && all[l] in ran;
        assert order[k] in order;
        assert all[l] !in deps[all[k]];
      } else {
        assert all[k] in ran && all[l] in ran;
        assert all[k] == ran[k - |order|] && all[l] == ran[l - |order|];
        ReadyTogether(effects, deps, pending, completed, all[l], all[k]);
      }
    }
  }

  lemma GroupScheduled(effects: seq<CallEffect>, deps: seq<set<nat>>, pending: set<nat>, before: map<nat, ToolResult>, given: map<nat, ToolResult>,
                       order: seq<nat>, executed: seq<ExecutedCall>, ran: seq<nat>, outputs: Outputs)
    requires Scheduled(effects, deps, before, order, outputs) && Partition(|effects|, pending, before.Keys)
    requires forall i :: i in Indices(executed) ==> i in Ready(deps, pending, before.Keys)
    requires Items(executed, Elements(ran), outputs) && DistinctNats(ran) && Elements(ran) <= Indices(executed)
    requires Gives(before, executed, given)
    ensures Scheduled(effects, deps, given, order + ran, outputs)
    ensures AllRan(before) && !AnyStop(executed) ==> AllRan(given)
  {
    var all := order + ran;
    forall k | 0 <= k < |ran| ensures ran[k] in Ready(deps, pending, before.Keys) && ran[k] in given && ran[k] !in before {
      assert ran[k] in Elements(ran);
    }
    forall i | i in given
      ensures i < |effects| && deps[i] <= given.Keys && (given[i].source == Executed <==> i in all) && Own(given[i], i, outputs)
    {
      GivenBySource(before, executed, given, ran, i, outputs);
    }
    RespectsMore(effects, deps, pending, before.Keys, order, ran);
    if AllRan(before) && !AnyStop(executed) {
      forall i | i in given ensures Ran(given[i]) {
        if i in Indices(executed) {
          var k :| 0 <= k < |executed| && executed[k].index == i;
          assert !executed[k].stop;
        }
      }
    }
  }

  /** A finished batch: one result per call; those marked executed are the calls that ran,
      in an order the planner allows; without a stop no call was skipped. */
  ghost predicate BatchDone(effects: seq<CallEffect>, given: map<nat, ToolResult>, order: seq<nat>, stopped: bool, outputs: Outputs) {
    && (forall i: nat :: i < |effects| <==> i in given)
    && DistinctNats(order) && PlannedOrder.Respects(effects, order)
    && (forall i :: i in given ==> (given[i].source == Executed <==> i in order) && Own(given[i], i, outputs))
    && (!stopped ==> AllRan(given))
  }

  lemma ScheduledMarks(effects: seq<CallEffect>, deps: seq<set<nat>>, given: map<nat, ToolResult>, order: seq<nat>, outputs: Outputs)
    requires Scheduled(effects, deps, given, order, outputs)
    ensures MarkedRun(given, order) && Elements(order) <= given.Keys
  {
  }

  lemma MarkedMore(given: map<nat, ToolResult>, order: seq<nat>, more: seq<nat>, selected: seq<nat>)
    requires MarkedRun(given, order) && (forall i :: i in order ==> i in more)
    requires forall i :: i in more ==> i in order || i in selected
    requires forall i :: i in selected ==> i !in given
    ensures MarkedRun(given, more)
  {
  }

  lemma DoneMarks(effects: seq<CallEffect>, given: map<nat, ToolResult>, order: seq<nat>, stopped: bool, outputs: Outputs)
    requires BatchDone(effects, given, order, stopped, outputs)
    ensures MarkedRun(given, order)
  {
  }

  /** The books between two rounds. */
  ghost predicate Books(prepared: seq<PreparedCall>, deps: seq<set<nat>>, p: Progress, runs: Runs, actions: Actions,
                        known: map<CallId, ToolResult>)
  {
    && SoundProgress(p, |prepared|) && Scheduled(Effects(prepared), deps, p.given, runs.order, runs.outputs)
    && Unblocked(prepared, runs.order) && Performed(actions, runs) && Memory(known, prepared, runs, p.completed)
  }

  lemma BooksParts(prepared: seq<PreparedCall>, deps: seq<set<nat>>, p: Progress, runs: Runs, actions: Actions, known: map<CallId, ToolResult>)
    requires Books(prepared, deps, p, runs, actions, known)
    ensures SoundProgress(p, |prepared|) && Scheduled(Effects(prepared), deps, p.given, runs.order, runs.outputs)
    ensures Unblocked(prepared, runs.order) && Performed(actions, runs)
    ensures Memory(known, prepared, runs, p.completed) && Recall(known, prepared, runs)
    ensures OwnGiven(p.given, runs.outputs) && MarkedRun(p.given, runs.order)
  {
    ScheduledParts(Effects(prepared), deps, p.given, runs.order, runs.outputs);
    ScheduledMarks(Effects(prepared), deps, p.given, runs.order, runs.outputs);
    MemoryParts(known, prepared, runs, p.completed);
  }

  lemma BooksMade(prepared: seq<PreparedCall>, deps: seq<set<nat>>, p: Progress, runs: Runs, actions: Actions, known: map<CallId, ToolResult>)
    requires SoundProgress(p, |prepared|) && Scheduled(Effects(prepared), deps, p.given, runs.order, runs.outputs)
    requires Unblocked(prepared, runs.order) && Performed(actions, runs) && Memory(known, prepared, runs, p.completed)
    ensures Books(prepared, deps, p, runs, actions, known)
  {
  }

  /** A group has completed and is taken into the books. */
  lemma RoundTaken(prepared: seq<PreparedCall>, deps: seq<set<nat>>, p: Progress, runs: Runs, actions: Actions,
                   executed: seq<ExecutedCall>, ran: seq<nat>, after: Runs, known: map<CallId, ToolResult>,
                   given: map<nat, ToolResult>, completed: set<nat>, admits: Guard,
                   messages: seq<Message>, raw: seq<Message>, base: seq<Message>, rawBase: seq<Message>)
    requires SoundProgress(p, |prepared|) && Scheduled(Effects(prepared), deps, p.given, runs.order, after.outputs)
    requires Unblocked(prepared, runs.order) && Recording(messages, raw, base, rawBase, prepared, p.given, p.next)
    requires Indices(executed) <= p.pending && forall i :: i in Indices(executed) ==> i in Ready(deps, p.pending, p.completed)
    requires Items(executed, Elements(ran), after.outputs) && DistinctNats(ran) && Elements(ran) <= Indices(executed)
    requires Unblocked(prepared, ran) && after.order == runs.order + ran && Gives(p.given, executed, given)
    requires Truthful(known, prepared, after.outputs) && KnownBy(known, prepared, completed) && completed == p.completed + Indices(executed)
    requires Remembers(known, prepared, after.outputs, Elements(runs.order) + Elements(ran)) && Elements(runs.order) <= p.completed
    requires Guarded(p.given, admits) && Justified(executed, admits)
    ensures Scheduled(Effects(prepared), deps, given, after.order, after.outputs) && Guarded(given, admits)
    ensures OwnGiven(given, after.outputs) && MarkedRun(given, after.order) && Unblocked(prepared, after.order)
    ensures Memory(known, prepared, after, completed) && Recall(known, prepared, after)
    ensures Recording(messages, raw, base, rawBase, prepared, given, p.next)
    ensures AllRan(p.given) && !AnyStop(executed) ==> AllRan(given)
  {
    hide *;
    ProgressParts(p, |prepared|);
    ElementsJoin(runs.order, ran);
    GuardedMore(p.given, executed, given, admits);
    GroupScheduled(Effects(prepared), deps, p.pending, p.given, given, runs.order, executed, ran, after.outputs);
    ScheduledParts(Effects(prepared), deps, given, after.order, after.outputs);
    ScheduledMarks(Effects(prepared), deps, given, after.order, after.outputs);
    MemoryMade(known, prepared, after, completed);
    MemoryParts(known, prepared, after, completed);
    UnblockedMore(prepared, runs.order, ran);
    NotCompleted(p, |prepared|, Indices(executed));
    RecordingSame(messages, raw, base, rawBase, prepared, p.given, executed, given, p.next);
  }

  lemma NothingRun(actions: Actions, start: PlannedOrder.Store, prepared: seq<PreparedCall>)
    ensures Performed(actions, Runs(start, [], map[])) && WorldAfter(actions, Runs(start, [], map[])) == start
    ensures Unblocked(prepared, []) && OwnGiven(map[], map[]) && OwnRecords([], map[])
    ensures Memory(map[], prepared, Runs(start, [], map[]), {}) && Recall(map[], prepared, Runs(start, [], map[]))
    ensures MarkedRun(map[], [])
  {
  }

  lemma BooksOpened(prepared: seq<PreparedCall>, deps: seq<set<nat>>, start: PlannedOrder.Store, actions: Actions,
                    base: seq<Message>, rawBase: seq<Message>)
    requires AreDependencies(Effects(prepared), deps)
    ensures Books(prepared, deps, Progress(IndexSet(|prepared|), {}, map[], map[], 0), Runs(start, [], map[]), actions, map[])
    ensures WorldAfter(actions, Runs(start, [], map[])) == start && AllRan(map[])
    ensures Recording(base, rawBase, base, rawBase, prepared, map[], 0)
  {
    hide *;
    NothingYet(prepared, Effects(prepared), deps, IndexSet(|prepared|), base, rawBase, map[]);
    NothingRun(actions, start, prepared);
    BooksMade(prepared, deps, Progress(IndexSet(|prepared|), {}, map[], map[], 0), Runs(start, [], map[]), actions, map[]);
  }

  /** How a batch ends: by an exception, after a stop, or with every call answered. */
  ghost predicate BatchEnds(prepared: seq<PreparedCall>, actions: Actions, known: map<CallId, ToolResult>, given: map<nat, ToolResult>,
                            recorded: nat, runs: Runs, world: PlannedOrder.Store, raised: bool, stopped: bool)
  {
    && Recall(known, prepared, runs) && OwnGiven(given, runs.outputs) && Performed(actions, runs) && MarkedRun(given, runs.order)
    && (!raised ==>
          && recorded == |prepared| && BatchDone(Effects(prepared), given, runs.order, stopped, runs.outputs)
          && Unblocked(prepared, runs.order) && world == WorldAfter(actions, runs))
  }

  lemma EndsMade(prepared: seq<PreparedCall>, actions: Actions, known: map<CallId, ToolResult>, given: map<nat, ToolResult>,
                 recorded: nat, runs: Runs, world: PlannedOrder.Store, raised: bool, stopped: bool)
    requires Recall(known, prepared, runs) && OwnGiven(given, runs.outputs) && Performed(actions, runs) && MarkedRun(given, runs.order)
    requires !raised ==> recorded == |prepared| && BatchDone(Effects(prepared), given, runs.order, stopped, runs.outputs)
    requires !raised ==> Unblocked(prepared, runs.order) && world == WorldAfter(actions, runs)
    ensures BatchEnds(prepared, actions, known, given, recorded, runs, world, raised, stopped)
  {
  }

  lemma RunDone(p: Progress, effects: seq<CallEffect>, deps: seq<set<nat>>, given: map<nat, ToolResult>, order: seq<nat>, outputs: Outputs)
    requires SoundProgress(p, |effects|) && p.pending == {} && p.given == given
    requires Scheduled(effects, deps, given, order, outputs) && AllRan(given)
    ensures BatchDone(effects, given, order, false, outputs)
  {
  }

  lemma StopDone(p: Progress, effects: seq<CallEffect>, deps: seq<set<nat>>, answered: map<nat, ToolResult>, given: map<nat, ToolResult>, order: seq<nat>, outputs: Outputs)
    requires SoundProgress(p, |effects|) && p.given == answered && Scheduled(effects, deps, answered, order, outputs)
    requires given.Keys == p.completed + p.pending && Blocks(answered, p.completed, p.pending, given)
    ensures BatchDone(effects, given, order, true, outputs) && OwnGiven(given, outputs)
  {
  }

  lemma RoundRaised(prepared: seq<PreparedCall>, actions: Actions, known: map<CallId, ToolResult>, given: map<nat, ToolResult>,
                    recorded: nat, runs: Runs, world: PlannedOrder.Store, stopped: bool)
    requires Recall(known, prepared, runs) && OwnGiven(given, runs.outputs) && Performed(actions, runs) && MarkedRun(given, runs.order)
    ensures BatchEnds(prepared, actions, known, given, recorded, runs, world, true, stopped)
  {
  }

  /** Nothing is pending: every call is recorded. */
  lemma BooksClosed(prepared: seq<PreparedCall>, deps: seq<set<nat>>, p: Progress, runs: Runs, actions: Actions, known: map<CallId, ToolResult>)
    requires Books(prepared, deps, p, runs, actions, known) && p.pending == {} && p.next !in p.buffered && AllRan(p.given)
    ensures BatchEnds(prepared, actions, known, p.given, p.next, runs, WorldAfter(actions, runs), false, false)
  {
    hide *;
    BooksParts(prepared, deps, p, runs, actions, known);
    AllRecorded(p, |prepared|);
    RunDone(p, Effects(prepared), deps, p.given, runs.order, runs.outputs);
    EndsMade(prepared, actions, known, p.given, p.next, runs, WorldAfter(actions, runs), false, false);
  }

  /** The recorded results of a finished batch, without reference to the bookkeeping: those
      marked executed are the calls that ran, each with its own output; they ran in an order
      the planner allows; without a stop every call ran or was refused by a check. */
  ghost predicate ExecutedBatch(effects: seq<CallEffect>, results: seq<Message>, runs: Runs, stopped: bool) {
    && |effects| == |results|
    && DistinctNats(runs.order) && PlannedOrder.Respects(effects, runs.order)
    && (forall i: nat :: i < |results| ==> results[i].Tool? && (results[i].result.source == Executed <==> i in runs.order))
    && (forall i :: 0 <= i < |results| ==> Own(results[i].result, i, runs.outputs))
    && (!stopped ==> forall i :: 0 <= i < |results| ==> Ran(results[i].result))
  }

  lemma BatchExecuted(prepared: seq<PreparedCall>, classify: nat -> CallEffect, given: map<nat, ToolResult>, runs: Runs, stopped: bool)
    requires BatchDone(Effects(prepared), given, runs.order, stopped, runs.outputs)
    requires ClassifiedBy(prepared, classify) && Unblocked(prepared, runs.order)
    ensures Known(given, |prepared|)
    ensures ExecutedBatch(Classified(classify, |prepared|), Records(prepared, given, |prepared|), runs, stopped)
  {
    var effects, order := Effects(prepared), runs.order;
    forall k | 0 <= k < |order| ensures order[k] < |prepared| && effects[order[k]] == classify(order[k]) {
      assert order[k] in order;
    }
  }

  /** However a batch ended: what is recorded answers the first calls, with their outputs. */
  lemma EndsRecorded(calls: seq<RawCall>, prepared: seq<PreparedCall>, actions: Actions, known: map<CallId, ToolResult>,
                     given: map<nat, ToolResult>, recorded: nat, runs: Runs, world: PlannedOrder.Store, raised: bool, stopped: bool,
                     messages: seq<Message>, raw: seq<Message>, base: seq<Message>, rawBase: seq<Message>)
    requires BatchEnds(prepared, actions, known, given, recorded, runs, world, raised, stopped) && InBatch(prepared, calls)
    requires Recording(messages, raw, base, rawBase, prepared, given, recorded)
    ensures recorded <= |prepared| && Known(given, recorded)
    ensures var results := Records(prepared, given, recorded);
            && messages == base + results && raw == rawBase + results
            && AnswersFrom(calls, 0, results) && OwnRecords(results, runs.outputs) && RanRecorded(results, runs.order)
    ensures Performed(actions, runs) && Recall(known, prepared, runs)
  {
    hide Records, Performed, Recall, OwnRecords, AnswersFrom, InBatch, RanRecorded;
    RecordsAnswer(calls, prepared, given, recorded);
    RecordsOwn(prepared, given, recorded, runs.outputs);
    RecordsRan(prepared, given, recorded, runs.order);
  }

  /** A batch that ended without an exception: every call is answered, and the runs kept to
      the planner. */
  lemma EndsFinished(calls: seq<RawCall>, prepared: seq<PreparedCall>, classify: nat -> CallEffect, actions: Actions,
                     known: map<CallId, ToolResult>, given: map<nat, ToolResult>, recorded: nat, runs: Runs,
                     world: PlannedOrder.Store, stopped: bool)
    requires BatchEnds(prepared, actions, known, given, recorded, runs, world, false, stopped)
    requires InBatch(prepared, calls) && ClassifiedBy(prepared, classify) && Known(given, recorded) && recorded <= |prepared|
    ensures recorded == |calls| && world == WorldAfter(actions, runs)
    ensures ExecutedBatch(Classified(classify, |calls|), Records(prepared, given, recorded), runs, stopped)
    ensures AsInModelOrder(actions, classify, |calls|, runs, world)
  {
    hide Records, Performed, Recall, BatchDone, ClassifiedBy, Unblocked, WorldAfter, AsInModelOrder;
    BatchExecuted(prepared, classify, given, runs, stopped);
    RunsAsInModelOrder(actions, classify, |calls|, runs);
  }
}
