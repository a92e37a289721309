/**
  Running a batch in any order the planner allows means running it in the model's order:
  the same final state and, call by call, the same results.  It rests on calls keeping to
  the resources they claim.
 */
module PlannedOrder {
  import opened Wrappers
  import opened Planner

  type Store = map<Location, string>

  function Look(store: Store, at: Location): Option<string> {
    if at in store then Some(store[at]) else None
  }

  datatype Step = Step(store: Store, result: string)

  type Action = Store -> Step

  predicate MayWrite(effect: CallEffect, at: Location) {
    effect.barrier || exists c :: c in effect.resources && c.access == Write && Touches(c, at)
  }

  predicate MayTouch(effect: CallEffect, at: Location) {
    effect.barrier || exists c :: c in effect.resources && Touches(c, at)
  }

  ghost predicate AgreeOn(effect: CallEffect, s: Store, t: Store) {
    forall at :: MayTouch(effect, at) ==> Look(s, at) == Look(t, at)
  }

  ghost predicate WritesClaimed(action: Action, effect: CallEffect) {
    forall s, at :: !MayWrite(effect, at) ==> Look(action(s).store, at) == Look(s, at)
  }

  ghost predicate ReadsClaimed(action: Action, effect: CallEffect) {
    forall s, t :: AgreeOn(effect, s, t) ==>
      action(s).result == action(t).result && AgreeOn(effect, action(s).store, action(t).store)
  }

  /** The call does what its claims say and no more. */
  ghost predicate Honest(action: Action, effect: CallEffect) {
    WritesClaimed(action, effect) && ReadsClaimed(action, effect)
  }

  lemma SameStore(s: Store, t: Store)
    requires forall at :: Look(s, at) == Look(t, at)
    ensures s == t
  {
    forall at ensures at in s <==> at in t {
      assert Look(s, at) == Look(t, at);
    }
    forall at | at in s ensures s[at] == t[at] {
      assert Look(s, at) == Look(t, at);
    }
  }

  lemma NoWriteIntoOther(left: CallEffect, right: CallEffect, at: Location)
    requires !MustPrecede(left, right) && MayWrite(left, at)
    ensures !MayTouch(right, at)
  {
    var a :| a in left.resources && a.access == Write && Touches(a, at);
    forall b | b in right.resources ensures !Touches(b, at) {
      ClaimsConflictExactly(a, b);
    }
  }

  /** One call's answer and writes are those it would have had without the other before it. */
  lemma Undisturbed(first: Action, fe: CallEffect, second: Action, se: CallEffect, s: Store)
    requires Honest(first, fe) && Honest(second, se) && !MustPrecede(fe, se)
    ensures second(first(s).store).result == second(s).result
    ensures AgreeOn(se, second(first(s).store).store, second(s).store)
  {
    forall at | MayTouch(se, at) ensures Look(s, at) == Look(first(s).store, at) {
      if MayWrite(fe, at) {
        NoWriteIntoOther(fe, se, at);
      }
    }
    assert AgreeOn(se, s, first(s).store);
  }

  lemma Commute(a: Action, ae: CallEffect, b: Action, be: CallEffect, s: Store)
    requires Honest(a, ae) && Honest(b, be) && !MustPrecede(ae, be)
    ensures b(a(s).store).store == a(b(s).store).store
    ensures b(a(s).store).result == b(s).result && a(b(s).store).result == a(s).result
  {
    MustPrecedeSymmetric(ae, be);
    Undisturbed(a, ae, b, be, s);
    Undisturbed(b, be, a, ae, s);
    var x, y := b(a(s).store).store, a(b(s).store).store;
    forall at ensures Look(x, at) == Look(y, at) {
      if MayWrite(ae, at) {
        NoWriteIntoOther(ae, be, at);
        WriteIsTouch(ae, at);
        WriteIsTouch(be, at);
        assert Look(x, at) == Look(a(s).store, at) == Look(y, at);
      } else if MayWrite(be, at) {
        NoWriteIntoOther(be, ae, at);
        WriteIsTouch(be, at);
        assert Look(x, at) == Look(b(s).store, at) == Look(y, at);
      }
    }
    SameStore(x, y);
  }

  lemma WriteIsTouch(effect: CallEffect, at: Location)
    ensures MayWrite(effect, at) ==> MayTouch(effect, at)
  {
  }

  // ---------------------------------------------------------------------------------
  // Whole batches
  // ---------------------------------------------------------------------------------

  datatype Batch = Batch(store: Store, results: map<nat, string>)

  /** Run the calls in the given order and collect each call's result. */
  function RunInOrder(actions: nat -> Action, order: seq<nat>, s: Store): Batch {
    if order == [] then Batch(s, map[])
    else
      var step := actions(order[0])(s);
      var rest := RunInOrder(actions, order[1..], step.store);
      Batch(rest.store, rest.results[order[0] := step.result])
  }

  /** The calls of `ran` from `from` on, in the model's order. */
  function InModelOrder(from: nat, to: nat, ran: seq<nat>): seq<nat>
    decreases (to as int) - (from as int)
  {
    if from >= to then []
    else if from in ran then [from] + InModelOrder(from + 1, to, ran)
    else InModelOrder(from + 1, to, ran)
  }

  ghost predicate AllHonest(actions: nat -> Action, effects: seq<CallEffect>) {
    forall i :: 0 <= i < |effects| ==> Honest(actions(i), effects[i])
  }

  /** Calls from `from` on, none of them twice. */
  predicate Lists(order: seq<nat>, from: nat, to: nat) {
    && (forall k :: 0 <= k < |order| ==> from <= order[k] < to)
    && (forall k, l :: 0 <= k < l < |order| ==> order[k] != order[l])
  }

  /** No call runs before one it depends on. */
  predicate Respects(effects: seq<CallEffect>, order: seq<nat>) {
    && (forall k :: 0 <= k < |order| ==> order[k] < |effects|)
    && (forall k, l :: 0 <= k < l < |order| && order[l] < order[k] ==>
         !MustPrecede(effects[order[l]], effects[order[k]]))
  }

  lemma {:induction false} MoveToFront(actions: nat -> Action, effects: seq<CallEffect>, before: seq<nat>, call: nat, after: seq<nat>, s: Store)
    requires AllHonest(actions, effects) && call < |effects|
    requires forall k :: 0 <= k < |before| ==> Independent(effects, call, before[k])
    ensures RunInOrder(actions, before + [call] + after, s) == RunInOrder(actions, [call] + before + after, s)
    decreases |before|
  {
    hide *;
    if before == [] {
      assert before + [call] + after == [call] + before + after;
    } else {
      var x, rest := before[0], before[1..];
      FrontFirst(before, call, after);
      MoveToFront(actions, effects, rest, call, after, actions(x)(s).store);
      RunOne(actions, x, rest + [call] + after, s);
      RunOne(actions, x, [call] + (rest + after), s);
      SwapFirst(actions, effects, x, call, rest + after, s);
    }
  }

  lemma FrontFirst(before: seq<nat>, call: nat, after: seq<nat>)
    requires before != []
    ensures before + [call] + after == [before[0]] + (before[1..] + [call] + after)
    ensures [call] + before[1..] + after == [call] + (before[1..] + after)
    ensures [before[0]] + ([call] + (before[1..] + after)) == [before[0], call] + (before[1..] + after)
    ensures [call] + before + after == [call, before[0]] + (before[1..] + after)
  {
  }

  predicate Independent(effects: seq<CallEffect>, call: nat, other: nat) {
    call < |effects| && other < |effects| && other != call && !MustPrecede(effects[call], effects[other])
  }

  lemma RunOne(actions: nat -> Action, x: nat, rest: seq<nat>, s: Store)
    ensures RunInOrder(actions, [x] + rest, s) ==
      var step := actions(x)(s);
      var more := RunInOrder(actions, rest, step.store);
      Batch(more.store, more.results[x := step.result])
  {
    assert ([x] + rest)[1..] == rest;
  }

  lemma SwapFirst(actions: nat -> Action, effects: seq<CallEffect>, x: nat, call: nat, rest: seq<nat>, s: Store)
    requires AllHonest(actions, effects) && Independent(effects, call, x)
    ensures RunInOrder(actions, [x, call] + rest, s) == RunInOrder(actions, [call, x] + rest, s)
  {
    hide MustPrecede, Honest, RunInOrder;
    Commute(actions(call), effects[call], actions(x), effects[x], s);
    RunTwo(actions, x, call, rest, s);
    RunTwo(actions, call, x, rest, s);
  }

  lemma RunTwo(actions: nat -> Action, x: nat, y: nat, rest: seq<nat>, s: Store)
    requires x != y
    ensures RunInOrder(actions, [x, y] + rest, s) ==
      var one := actions(x)(s);
      var two := actions(y)(one.store);
      var more := RunInOrder(actions, rest, two.store);
      Batch(more.store, more.results[y := two.result][x := one.result])
  {
    var order := [x, y] + rest;
    assert order[1..] == [y] + rest && order[1..][1..] == rest;
  }

  /** Running one more call. */
  lemma {:induction false} RunMore(actions: nat -> Action, order: seq<nat>, call: nat, s: Store)
    requires call !in order
    ensures RunInOrder(actions, order + [call], s) ==
      var batch := RunInOrder(actions, order, s);
      var step := actions(call)(batch.store);
      Batch(step.store, batch.results[call := step.result])
    decreases |order|
  {
    if order == [] {
      assert order + [call] == [call] && [call][1..] == [];
    } else {
      var x, rest := order[0], order[1..];
      assert order == [x] + rest && order + [call] == [x] + (rest + [call]);
      RunMore(actions, rest, call, actions(x)(s).store);
      hide *;
      RunOne(actions, x, rest, s);
      RunOne(actions, x, rest + [call], s);
    }
  }

  /** Any allowed order of some calls has the effect and the results of running the same
      calls in the model's own order. */
  lemma {:induction false} AllowedOrderMeansModelOrder(actions: nat -> Action, effects: seq<CallEffect>, order: seq<nat>, from: nat, s: Store)
    requires AllHonest(actions, effects) && from <= |effects|
    requires Lists(order, from, |effects|) && Respects(effects, order)
    ensures RunInOrder(actions, order, s) == RunInOrder(actions, InModelOrder(from, |effects|, order), s)
    decreases |effects| - from
  {
    hide *;
    var n := |effects|;
    if from == n {
      NoCalls(order, from, n);
    } else if from in order {
      var at :| 0 <= at < |order| && order[at] == from;
      var before, after := order[..at], order[at + 1..];
      var rest := before + after;
      BeforeIsIndependent(effects, order, at, from);
      RestLists(order, at, from, n);
      RestRespects(effects, order, at);
      MoveToFront(actions, effects, before, from, after, s);
      AllowedOrderMeansModelOrder(actions, effects, rest, from + 1, actions(from)(s).store);
      SameMembers(from + 1, n, order, rest);
      assert order == before + [from] + after;
      assert [from] + before + after == [from] + rest;
      RunOne(actions, from, rest, s);
      RunOne(actions, from, InModelOrder(from + 1, n, rest), s);
      ModelOrderFirst(from, n, order);
    } else {
      ListsLater(order, from, n);
      AllowedOrderMeansModelOrder(actions, effects, order, from + 1, s);
      ModelOrderFirst(from, n, order);
    }
  }

  lemma ModelOrderFirst(from: nat, to: nat, ran: seq<nat>)
    requires from < to
    ensures var rest := InModelOrder(from + 1, to, ran);
            InModelOrder(from, to, ran) == if from in ran then [from] + rest else rest
  {
  }

  lemma NoCalls(order: seq<nat>, from: nat, to: nat)
    requires Lists(order, from, to)
    ensures order == [] || from < to
    ensures InModelOrder(to, to, order) == []
  {
    if order != [] {
      assert from <= order[0] < to;
    }
  }

  lemma ListsLater(order: seq<nat>, from: nat, to: nat)
    requires Lists(order, from, to) && from !in order
    ensures Lists(order, from + 1, to)
  {
    forall k | 0 <= k < |order| ensures from + 1 <= order[k] < to {
      assert order[k] in order;
    }
  }

  lemma {:induction false} SameMembers(from: nat, to: nat, ran: seq<nat>, others: seq<nat>)
    requires forall i: nat :: from <= i < to ==> (i in ran <==> i in others)
    ensures InModelOrder(from, to, ran) == InModelOrder(from, to, others)
    decreases (to as int) - (from as int)
  {
    if from < to {
      SameMembers(from + 1, to, ran, others);
    }
  }

  lemma BeforeIsIndependent(effects: seq<CallEffect>, order: seq<nat>, at: nat, from: nat)
    requires from < |effects| && Lists(order, from, |effects|) && Respects(effects, order)
    requires at < |order| && order[at] == from
    ensures forall k :: 0 <= k < at ==> Independent(effects, from, order[..at][k])
  {
    forall k | 0 <= k < at ensures Independent(effects, from, order[..at][k]) {
      assert order[..at][k] == order[k] && order[k] != order[at];
    }
  }

  lemma RestLists(order: seq<nat>, at: nat, from: nat, to: nat)
    requires from < to && Lists(order, from, to) && at < |order| && order[at] == from
    ensures var rest := order[..at] + order[at + 1..];
            Lists(rest, from + 1, to) && forall i: nat :: from < i < to ==> (i in order <==> i in rest)
  {
    var rest := order[..at] + order[at + 1..];
    assert forall k :: 0 <= k < |rest| ==> rest[k] == order[if k < at then k else k + 1];
    forall i: nat | from < i < to && i in order ensures i in rest {
      var k :| 0 <= k < |order| && order[k] == i;
      assert rest[if k < at then k else k - 1] == i;
    }
  }

  lemma RestRespects(effects: seq<CallEffect>, order: seq<nat>, at: nat)
    requires Respects(effects, order) && at < |order|
    ensures Respects(effects, order[..at] + order[at + 1..])
  {
    var rest := order[..at] + order[at + 1..];
    assert forall k :: 0 <= k < |rest| ==> rest[k] == order[if k < at then k else k + 1];
    forall k, l | 0 <= k < l < |rest| && rest[l] < rest[k] ensures !MustPrecede(effects[rest[l]], effects[rest[k]]) {
      var k', l' := if k < at then k else k + 1, if l < at then l else l + 1;
      assert order[l'] < order[k'];
    }
  }
}
