/**
  Delivering a session to a client: the gate of the client's reducer, and the loop that holds
  events back while numbers are missing and asks for a whole view. In every delivery the
  client follows the registry exactly as long as the events it takes in agree.
 */
module SessionDelivery {
  import opened Wrappers
  import opened SessionViews
  import opened SessionClient

  /** The client's copy of one session. */
  datatype Client = Client(shown: Shown, sequence: nat)

  /** What the client dispatches: a whole view, a published event, or a row of its own. */
  datatype Dispatch = Show(n: nat) | Play(k: nat) | Local(item: Item)

  /** The registry's view after the first `n` emissions. */
  function ViewAt(sent: seq<Emission>, n: nat): View
    requires n <= |sent|
  {
    Replay(EMPTY, sent[..n])
  }

  predicate Within(d: Dispatch, sent: seq<Emission>) {
    match d
    case Show(n) => n <= |sent|
    case Play(k) => 0 < k <= |sent|
    case Local(_) => true
  }

  /** `reduceEvent` for one session: older views and known events change nothing. */
  function Dispatched(texts: Texts, sent: seq<Emission>, c: Client, d: Dispatch): Client
    requires Within(d, sent)
  {
    match d
    case Show(n) => if n < c.sequence then c else Client(Presented(ViewAt(sent, n)), n)
    case Play(k) => if k <= c.sequence then c else Client(Reduce(texts, c.shown, sent[k - 1].event), k)
    case Local(item) => c.(shown := c.shown.(items := c.shown.items + [item]))
  }

  /** The client shows the registry's view of its number. */
  predicate InStep(sent: seq<Emission>, c: Client) {
    c.sequence <= |sent| && c.shown == Presented(ViewAt(sent, c.sequence))
  }

  /** The dispatch changes nothing, brings a view, or plays an event that agrees with the view
      it was published on. */
  predicate Harmless(texts: Texts, sent: seq<Emission>, c: Client, d: Dispatch)
    requires Within(d, sent)
  {
    match d
    case Show(_) => true
    case Play(k) => k <= c.sequence || Agrees(texts, ViewAt(sent, k - 1), sent[k - 1].event)
    case Local(_) => false
  }

  lemma NextView(sent: seq<Emission>, k: nat)
    requires 0 < k <= |sent|
    ensures ViewAt(sent, k) == Applied(ViewAt(sent, k - 1), sent[k - 1].event)
  {
    assert sent[..k][..k - 1] == sent[..k - 1] && sent[..k][k - 1] == sent[k - 1];
  }

  lemma NumberIsNotShown(view: View, n: nat)
    ensures Presented(view.(sequence := n)) == Presented(view)
  {
  }

  /** One dispatch that skips no number keeps the client in step exactly when it is harmless. */
  lemma DispatchInStep(texts: Texts, sent: seq<Emission>, c: Client, d: Dispatch)
    requires InStep(sent, c) && Within(d, sent) && (d.Play? ==> d.k <= c.sequence + 1)
    ensures InStep(sent, Dispatched(texts, sent, c, d)) <==> Harmless(texts, sent, c, d)
  {
    hide Agrees, Reduce, Content, Replay;
    match d
    case Show(_) =>
    case Play(k) =>
      if k > c.sequence {
        var (view, event) := (ViewAt(sent, k - 1), sent[k - 1].event);
        NextView(sent, k);
        NumberIsNotShown(Content(view, event), view.sequence + 1);
        ReducerAgrees(texts, view, event);
      }
    case Local(item) =>
      assert |Presented(ViewAt(sent, c.sequence)).items| == |c.shown.items|;
  }

  // ---------------------------------------------------------------------------------
  // Many dispatches
  // ---------------------------------------------------------------------------------

  predicate AllWithin(ds: seq<Dispatch>, sent: seq<Emission>) {
    forall i :: 0 <= i < |ds| ==> Within(ds[i], sent)
  }

  function DispatchedAll(texts: Texts, sent: seq<Emission>, c: Client, ds: seq<Dispatch>): Client
    requires AllWithin(ds, sent)
    decreases |ds|
  {
    if ds == [] then c
    else
      assert Within(ds[0], sent);
      DispatchedAll(texts, sent, Dispatched(texts, sent, c, ds[0]), ds[1..])
  }

  /** The number the client has after a dispatch. */
  function Numbered(sequence: nat, d: Dispatch): nat {
    match d
    case Show(n) => if n < sequence then sequence else n
    case Play(k) => if k <= sequence then sequence else k
    case Local(_) => sequence
  }

  /** No event is played before the one ahead of it. */
  predicate Gapless(sequence: nat, ds: seq<Dispatch>)
    decreases |ds|
  {
    ds == [] || ((ds[0].Play? ==> ds[0].k <= sequence + 1) && Gapless(Numbered(sequence, ds[0]), ds[1..]))
  }

  /** All along, the client shows the registry's view of its number. */
  predicate AlwaysInStep(texts: Texts, sent: seq<Emission>, c: Client, ds: seq<Dispatch>)
    requires AllWithin(ds, sent)
    decreases |ds|
  {
    InStep(sent, c) &&
    (ds == [] || (assert Within(ds[0], sent); AlwaysInStep(texts, sent, Dispatched(texts, sent, c, ds[0]), ds[1..])))
  }

  predicate AllHarmless(texts: Texts, sent: seq<Emission>, c: Client, ds: seq<Dispatch>)
    requires AllWithin(ds, sent)
    decreases |ds|
  {
    ds == [] ||
    (assert Within(ds[0], sent);
     Harmless(texts, sent, c, ds[0]) && AllHarmless(texts, sent, Dispatched(texts, sent, c, ds[0]), ds[1..]))
  }

  /** From a client that is in step, for all dispatches without gaps: it stays in step all
      along exactly when every one of them is harmless. */
  lemma {:induction false} FollowsExactly(texts: Texts, sent: seq<Emission>, c: Client, ds: seq<Dispatch>)
    requires InStep(sent, c) && AllWithin(ds, sent) && Gapless(c.sequence, ds)
    ensures AlwaysInStep(texts, sent, c, ds) <==> AllHarmless(texts, sent, c, ds)
    decreases |ds|
  {
    hide InStep, Harmless;
    if ds != [] {
      assert Within(ds[0], sent);
      DispatchInStep(texts, sent, c, ds[0]);
      if Harmless(texts, sent, c, ds[0]) {
        FollowsExactly(texts, sent, Dispatched(texts, sent, c, ds[0]), ds[1..]);
      } else {
        assert !InStep(sent, Dispatched(texts, sent, c, ds[0]));
      }
    }
  }

  lemma {:induction false} EndsInStep(texts: Texts, sent: seq<Emission>, c: Client, ds: seq<Dispatch>)
    requires AllWithin(ds, sent) && AlwaysInStep(texts, sent, c, ds)
    ensures InStep(sent, DispatchedAll(texts, sent, c, ds))
    decreases |ds|
  {
    hide InStep, Dispatched;
    if ds != [] {
      EndsInStep(texts, sent, Dispatched(texts, sent, c, ds[0]), ds[1..]);
    }
  }

  // ---------------------------------------------------------------------------------
  // The loop
  // ---------------------------------------------------------------------------------

  /** What arrives at the client: a published event, a view sent unasked, the answer to the
      client's request for one, or the failure of that request. */
  datatype Arrival = Event(k: nat) | Broadcast(n: nat) | Synced(n: nat) | SyncFailed(notice: Item)

  /** The numbers seen, and the events held back while a view is asked for. */
  datatype Loop = Loop(seen: nat, waiting: Option<seq<nat>>)

  function Flush(queue: seq<nat>, seen: nat): seq<Dispatch> {
    if queue == [] then []
    else if queue[0] > seen then [Play(queue[0])] + Flush(queue[1..], queue[0])
    else Flush(queue[1..], seen)
  }

  function SeenAfter(queue: seq<nat>, seen: nat): nat {
    if queue == [] then seen else SeenAfter(queue[1..], if queue[0] > seen then queue[0] else seen)
  }

  function Dispatches(l: Loop, a: Arrival): seq<Dispatch> {
    match a
    case Event(k) => if l.waiting.Some? || k > l.seen + 1 then [] else [Play(k)]
    case Broadcast(n) => [Show(n)]
    case Synced(n) => if l.waiting.None? then [] else [Show(n)] + Flush(l.waiting.value, n)
    case SyncFailed(notice) => if l.waiting.None? then [] else [Local(notice)]
  }

  function Looped(l: Loop, a: Arrival): Loop {
    match a
    case Event(k) =>
      if l.waiting.Some? then l.(waiting := Some(l.waiting.value + [k]))
      else if k > l.seen + 1 then l.(waiting := Some([k]))
      else l.(seen := if k > l.seen then k else l.seen)
    case Broadcast(n) => l.(seen := n)
    case Synced(n) => if l.waiting.None? then l else Loop(SeenAfter(l.waiting.value, n), None)
    case SyncFailed(_) => l.(waiting := None)
  }

  function AllDispatches(l: Loop, arrivals: seq<Arrival>): seq<Dispatch>
    decreases |arrivals|
  {
    if arrivals == [] then [] else Dispatches(l, arrivals[0]) + AllDispatches(Looped(l, arrivals[0]), arrivals[1..])
  }

  /** Events arrive in the order they were published, from `next` on; views are of any moment
      so far; the answer to a request is not older than the event that made it necessary. */
  predicate Orderly(l: Loop, next: nat, total: nat, arrivals: seq<Arrival>)
    decreases |arrivals|
  {
    arrivals == [] ||
    match arrivals[0]
    case Event(k) => k == next && 0 < k <= total && Orderly(Looped(l, Event(k)), next + 1, total, arrivals[1..])
    case Broadcast(n) => n <= total && Orderly(Looped(l, Broadcast(n)), next, total, arrivals[1..])
    case Synced(n) =>
      && n <= total && (l.waiting.Some? && l.waiting.value != [] ==> l.waiting.value[0] <= n)
      && Orderly(Looped(l, Synced(n)), next, total, arrivals[1..])
    case SyncFailed(notice) => Orderly(Looped(l, SyncFailed(notice)), next, total, arrivals[1..])
  }

  /** The events held back are consecutive and end just before the next to arrive. */
  predicate Held(queue: seq<nat>, next: nat) {
    |queue| <= next && forall i :: 0 <= i < |queue| ==> queue[i] == next - |queue| + i && queue[i] > 0
  }

  predicate LoopOk(l: Loop, next: nat, sequence: nat) {
    l.seen <= sequence && (l.waiting.Some? ==> l.waiting.value != [] && Held(l.waiting.value, next))
  }

  function NumberedAll(sequence: nat, ds: seq<Dispatch>): nat
    decreases |ds|
  {
    if ds == [] then sequence else NumberedAll(Numbered(sequence, ds[0]), ds[1..])
  }

  lemma {:induction false} NumberAfterAll(texts: Texts, sent: seq<Emission>, c: Client, ds: seq<Dispatch>)
    requires AllWithin(ds, sent)
    ensures DispatchedAll(texts, sent, c, ds).sequence == NumberedAll(c.sequence, ds)
    decreases |ds|
  {
    if ds != [] {
      assert Within(ds[0], sent);
      NumberAfterAll(texts, sent, Dispatched(texts, sent, c, ds[0]), ds[1..]);
    }
  }

  lemma {:induction false} GaplessJoin(sequence: nat, a: seq<Dispatch>, b: seq<Dispatch>)
    ensures Gapless(sequence, a + b) <==> Gapless(sequence, a) && Gapless(NumberedAll(sequence, a), b)
    decreases |a|
  {
    if a == [] {
      assert a + b == b;
    } else {
      assert (a + b)[0] == a[0] && (a + b)[1..] == a[1..] + b;
      GaplessJoin(Numbered(sequence, a[0]), a[1..], b);
    }
  }

  predicate Bounded(ds: seq<Dispatch>, total: nat) {
    forall i :: 0 <= i < |ds| ==>
      match ds[i] case Show(n) => n <= total case Play(k) => 0 < k <= total case Local(_) => true
  }

  /** Flushing consecutive events behind a view that is not older than the first of them. */
  lemma {:induction false} FlushGapless(queue: seq<nat>, next: nat, seen: nat, sequence: nat, total: nat)
    requires Held(queue, next) && seen <= sequence && (queue != [] ==> queue[0] <= seen + 1) && next <= total + 1
    ensures Gapless(sequence, Flush(queue, seen)) && Bounded(Flush(queue, seen), total)
    ensures SeenAfter(queue, seen) <= NumberedAll(sequence, Flush(queue, seen))
    decreases |queue|
  {
    if queue != [] {
      var (first, rest) := (queue[0], queue[1..]);
      assert Held(rest, next) && (rest != [] ==> rest[0] == first + 1) && 0 < first < next;
      if first > seen {
        var more := Flush(rest, first);
        FlushGapless(rest, next, first, Numbered(sequence, Play(first)), total);
        assert Flush(queue, seen) == [Play(first)] + more;
        assert ([Play(first)] + more)[1..] == more;
      } else {
        FlushGapless(rest, next, seen, sequence, total);
      }
    }
  }

  /** One arrival leaves the loop in order, and what it dispatches has no gap. */
  lemma ArrivalGapless(l: Loop, next: nat, sequence: nat, total: nat, a: Arrival)
    requires LoopOk(l, next, sequence) && 0 < next <= total + 1 && Orderly(l, next, total, [a])
    ensures var ds := Dispatches(l, a);
            && Gapless(sequence, ds) && Bounded(ds, total)
            && LoopOk(Looped(l, a), if a.Event? then next + 1 else next, NumberedAll(sequence, ds))
  {
    match a
    case Event(k) =>
      if l.waiting.Some? {
        assert Held(l.waiting.value + [k], next + 1);
      } else if k > l.seen + 1 {
        assert Held([k], next + 1);
      } else {
        assert [Play(k)][1..] == [];
      }
    case Broadcast(n) => assert [Show(n)][1..] == [];
    case Synced(n) =>
      if l.waiting.Some? {
        var (queue, flushed) := (l.waiting.value, Flush(l.waiting.value, n));
        FlushGapless(queue, next, n, Numbered(sequence, Show(n)), total);
        assert ([Show(n)] + flushed)[1..] == flushed;
      }
    case SyncFailed(notice) => assert [Local(notice)][1..] == [];
  }

  lemma OrderlyFirst(l: Loop, next: nat, total: nat, arrivals: seq<Arrival>)
    requires Orderly(l, next, total, arrivals) && arrivals != [] && next <= total + 1
    ensures Orderly(l, next, total, [arrivals[0]])
    ensures Orderly(Looped(l, arrivals[0]), if arrivals[0].Event? then next + 1 else next, total, arrivals[1..])
    ensures (if arrivals[0].Event? then next + 1 else next) <= total + 1
  {
    assert [arrivals[0]][1..] == [];
  }

  /** In every orderly delivery the loop never plays an event before the one ahead of it. */
  lemma {:induction false} LoopGapless(l: Loop, next: nat, sequence: nat, total: nat, arrivals: seq<Arrival>)
    requires LoopOk(l, next, sequence) && 0 < next <= total + 1 && Orderly(l, next, total, arrivals)
    ensures Gapless(sequence, AllDispatches(l, arrivals)) && Bounded(AllDispatches(l, arrivals), total)
    decreases |arrivals|
  {
    hide Looped, LoopOk, Orderly, Dispatches;
    if arrivals != [] {
      var (a, rest) := (arrivals[0], arrivals[1..]);
      var ds := Dispatches(l, a);
      var next' := if a.Event? then next + 1 else next;
      OrderlyFirst(l, next, total, arrivals);
      ArrivalGapless(l, next, sequence, total, a);
      LoopGapless(Looped(l, a), next', NumberedAll(sequence, ds), total, rest);
      GaplessJoin(sequence, ds, AllDispatches(Looped(l, a), rest));
    }
  }

  lemma BoundedWithin(ds: seq<Dispatch>, sent: seq<Emission>)
    requires Bounded(ds, |sent|)
    ensures AllWithin(ds, sent)
  {
  }

  /** In every orderly delivery to a client that shows a view of the registry: the client
      shows the registry's view of its number all along exactly when every event it takes in
      agrees with the view it was published on and no request for a view fails; it then ends
      with the view of the last number it was given. */
  lemma ClientFollows(texts: Texts, sent: seq<Emission>, c: Client, l: Loop, next: nat, arrivals: seq<Arrival>)
    requires InStep(sent, c) && LoopOk(l, next, c.sequence)
    requires 0 < next <= |sent| + 1 && Orderly(l, next, |sent|, arrivals)
    ensures AllWithin(AllDispatches(l, arrivals), sent)
    ensures var ds := AllDispatches(l, arrivals);
            && (AlwaysInStep(texts, sent, c, ds) <==> AllHarmless(texts, sent, c, ds))
            && (AllHarmless(texts, sent, c, ds) ==>
                  && DispatchedAll(texts, sent, c, ds).sequence == NumberedAll(c.sequence, ds)
                  && InStep(sent, DispatchedAll(texts, sent, c, ds)))
  {
    var ds := AllDispatches(l, arrivals);
    LoopGapless(l, next, c.sequence, |sent|, arrivals);
    BoundedWithin(ds, sent);
    FollowsExactly(texts, sent, c, ds);
    NumberAfterAll(texts, sent, c, ds);
    if AllHarmless(texts, sent, c, ds) {
      EndsInStep(texts, sent, c, ds);
    }
  }

  // ---------------------------------------------------------------------------------
  // Catching up
  // ---------------------------------------------------------------------------------

  /** A view that is not older is shown, and the next event is played. */
  lemma DispatchAdvances(texts: Texts, sent: seq<Emission>, c: Client, n: nat)
    requires n <= |sent|
    ensures n >= c.sequence ==>
              var c' := Dispatched(texts, sent, c, Show(n));
              c'.sequence == n && c'.shown == Presented(ViewAt(sent, n))
    ensures c.sequence < |sent| ==>
              var c' := Dispatched(texts, sent, c, Play(c.sequence + 1));
              c'.sequence == c.sequence + 1 && c'.shown == Reduce(texts, c.shown, sent[c.sequence].event)
  {
    hide Reduce, Presented, Replay;
  }

  lemma NumberedJoin(sequence: nat, a: seq<Dispatch>, b: seq<Dispatch>)
    ensures NumberedAll(sequence, a + b) == NumberedAll(NumberedAll(sequence, a), b)
    decreases |a|
  {
    if a == [] {
      assert a + b == b;
    } else {
      assert (a + b)[0] == a[0] && (a + b)[1..] == a[1..] + b;
      NumberedJoin(Numbered(sequence, a[0]), a[1..], b);
    }
  }

  lemma {:induction false} NumberedGrows(sequence: nat, ds: seq<Dispatch>)
    ensures sequence <= NumberedAll(sequence, ds)
    decreases |ds|
  {
    if ds != [] {
      NumberedGrows(Numbered(sequence, ds[0]), ds[1..]);
    }
  }

  /** While nothing is awaited, the client has all that has arrived. */
  predicate CaughtUp(l: Loop, next: nat, sequence: nat) {
    l.waiting.None? ==> next <= sequence + 1
  }

  lemma {:induction false} FlushReaches(queue: seq<nat>, next: nat, seen: nat, sequence: nat)
    requires Held(queue, next) && queue != [] && seen <= sequence
    ensures next <= NumberedAll(sequence, Flush(queue, seen)) + 1
    decreases |queue|
  {
    var (first, rest) := (queue[0], queue[1..]);
    assert queue[|queue| - 1] == next - 1;
    assert Held(rest, next);
    if first > seen {
      assert Flush(queue, seen) == [Play(first)] + Flush(rest, first);
      assert ([Play(first)] + Flush(rest, first))[1..] == Flush(rest, first);
      if rest == [] {
        NumberedGrows(Numbered(sequence, Play(first)), Flush(rest, first));
      } else {
        FlushReaches(rest, next, first, Numbered(sequence, Play(first)));
      }
    } else if rest == [] {
      NumberedGrows(sequence, Flush(queue, seen));
    } else {
      FlushReaches(rest, next, seen, sequence);
    }
  }

  lemma ArrivalCatchesUp(l: Loop, next: nat, sequence: nat, total: nat, a: Arrival)
    requires LoopOk(l, next, sequence) && CaughtUp(l, next, sequence) && 0 < next && Orderly(l, next, total, [a]) && !a.SyncFailed?
    ensures CaughtUp(Looped(l, a), if a.Event? then next + 1 else next, NumberedAll(sequence, Dispatches(l, a)))
  {
    match a
    case Event(k) => assert [Play(k)][1..] == [];
    case Broadcast(n) => assert [Show(n)][1..] == [];
    case Synced(n) =>
      if l.waiting.Some? {
        var (queue, flushed) := (l.waiting.value, Flush(l.waiting.value, n));
        FlushReaches(queue, next, n, Numbered(sequence, Show(n)));
        assert ([Show(n)] + flushed)[1..] == flushed;
      }
  }

  function LoopAfter(l: Loop, arrivals: seq<Arrival>): Loop
    decreases |arrivals|
  {
    if arrivals == [] then l else LoopAfter(Looped(l, arrivals[0]), arrivals[1..])
  }

  function NextAfter(next: nat, arrivals: seq<Arrival>): nat
    decreases |arrivals|
  {
    if arrivals == [] then next else NextAfter(if arrivals[0].Event? then next + 1 else next, arrivals[1..])
  }

  /** In every orderly delivery in which no request for a view fails: whenever none is
      awaited, the client has taken in every event that has arrived. */
  lemma {:induction false} LoopCatchesUp(l: Loop, next: nat, sequence: nat, total: nat, arrivals: seq<Arrival>)
    requires LoopOk(l, next, sequence) && CaughtUp(l, next, sequence)
    requires 0 < next <= total + 1 && Orderly(l, next, total, arrivals)
    requires forall a :: a in arrivals ==> !a.SyncFailed?
    ensures CaughtUp(LoopAfter(l, arrivals), NextAfter(next, arrivals), NumberedAll(sequence, AllDispatches(l, arrivals)))
    decreases |arrivals|
  {
    hide Looped, LoopOk, Orderly, Dispatches, CaughtUp;
    if arrivals != [] {
      var (a, rest) := (arrivals[0], arrivals[1..]);
      var ds := Dispatches(l, a);
      var next' := if a.Event? then next + 1 else next;
      OrderlyFirst(l, next, total, arrivals);
      ArrivalGapless(l, next, sequence, total, a);
      ArrivalCatchesUp(l, next, sequence, total, a);
      LoopCatchesUp(Looped(l, a), next', NumberedAll(sequence, ds), total, rest);
      NumberedJoin(sequence, ds, AllDispatches(Looped(l, a), rest));
    }
  }

  // ---------------------------------------------------------------------------------
  // Where client and registry part
  // ---------------------------------------------------------------------------------

  function Reset(payload: Fields): seq<Emission> {
    [Emission("s", 1, TurnState("running", None)), Emission("s", 2, SessionReset(payload, []))]
  }

  /** A session that is reset while its turn runs: the client that takes the reset in shows
      an idle turn, one that asks for the view afterwards a running one. */
  lemma ResetDuringTurn(texts: Texts, payload: Fields)
    requires Complete(payload)
    ensures var sent := Reset(payload);
            var c := Client(Presented(ViewAt(sent, 1)), 1);
            && InStep(sent, c)
            && Dispatched(texts, sent, c, Play(2)).shown.turnState == "idle"
            && Dispatched(texts, sent, c, Show(2)).shown.turnState == "running"
  {
    var sent := Reset(payload);
    assert sent[..0] == [] && ViewAt(sent, 0) == EMPTY;
    NextView(sent, 1);
    NextView(sent, 2);
    hide Complete, Replay;
    assert ViewAt(sent, 1).turnState == "running";
    assert ViewAt(sent, 2).turnState == "running";
  }

  /** A client that was never sent a view starts from a row and commands of its own, and no
      first event brings it in step. */
  lemma FreshClientDiffers(texts: Texts, event: Event)
    ensures INITIAL != Presented(EMPTY)
    ensures Reduce(texts, INITIAL, event) != Presented(Content(EMPTY, event))
  {
    assert |INITIAL.items| == 1;
    hide INITIAL_SNAPSHOT, INITIAL_WORK;
    FreshCommands(texts, event);
  }

  lemma FreshCommands(texts: Texts, event: Event)
    ensures event.Commands? ==> Reduce(texts, INITIAL, event).items == INITIAL.items && Content(EMPTY, event).items == []
    ensures !event.Commands? ==>
              |Reduce(texts, INITIAL, event).commands| == |DEFAULT_COMMANDS| > 0 && Content(EMPTY, event).commands == []
  {
    hide Each, Others, Position, INITIAL_SNAPSHOT, INITIAL_WORK;
  }

  /** What the registry shows of a session is the view after everything it emitted. */
  lemma RegistryView(views: map<Id, View>, sent: map<Id, seq<Emission>>, id: Id)
    requires Replayed(views, sent) && id in views
    ensures views[id].sequence == |sent[id]| && views[id] == ViewAt(sent[id], |sent[id]|)
  {
    ReplayCounts(sent[id]);
    assert sent[id][..|sent[id]|] == sent[id];
  }
}
