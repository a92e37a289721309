/**
  Cancellation tokens under concurrency.  A step is one critical section, or the call of one
  callback that a critical section has taken out of a token's list.
 */
module Cancellation {
  import opened Wrappers

  type TokenId = nat

  /** The cancel method of a child, or any other function. */
  datatype Callback = CancelChild(child: TokenId) | Function(id: nat)

  /** `parent` is set while the token is attached, that is until `close`. */
  datatype Token = Token(cancelled: bool, callbacks: seq<Callback>, parent: Option<TokenId>)

  /** A call of `close` between its two steps: the child has given up its parent, and is not
      yet gone from the parent's list. */
  datatype Detachment = Detachment(parent: TokenId, child: TokenId)

  /** `due` holds callbacks that were taken from a list, or found their token cancelled, and
      have not been called yet.  The other multisets count what happened. */
  datatype State = State(
    tokens: seq<Token>,
    detaching: set<Detachment>,
    due: multiset<Callback>,
    registered: multiset<Callback>,
    ran: multiset<Callback>,
    removed: multiset<Callback>)

  function Initial(): State {
    State([], {}, multiset{}, multiset{}, multiset{}, multiset{})
  }

  datatype Op =
    | Create
    | CreateChild(parent: TokenId)
    | Cancel(token: TokenId)
    | AddCallback(token: TokenId, id: nat)
    | Remove(token: TokenId, id: nat)
    | Close(token: TokenId)
    | Detach(parent: TokenId, child: TokenId)
    | RunDue(callback: Callback)

  function With(s: State, token: TokenId, value: Token): State
    requires token < |s.tokens|
  {
    s.(tokens := s.tokens[token := value])
  }

  /** The critical section of `cancel`. */
  function CancelStep(s: State, token: TokenId): State {
    if token >= |s.tokens| || s.tokens[token].cancelled then s
    else
      With(s, token, s.tokens[token].(cancelled := true, callbacks := []))
        .(due := s.due + multiset(s.tokens[token].callbacks))
  }

  /** The critical section of `add_callback`. */
  function AddStep(s: State, token: TokenId, callback: Callback): State
    requires token < |s.tokens|
  {
    var counted := s.(registered := s.registered + multiset{callback});
    if s.tokens[token].cancelled then counted.(due := s.due + multiset{callback})
    else With(counted, token, s.tokens[token].(callbacks := s.tokens[token].callbacks + [callback]))
  }

  /** `list.remove`: the first occurrence, if there is one. */
  function WithoutFirst(callbacks: seq<Callback>, callback: Callback): seq<Callback> {
    if callbacks == [] then []
    else if callbacks[0] == callback then callbacks[1..]
    else [callbacks[0]] + WithoutFirst(callbacks[1..], callback)
  }

  function RemoveStep(s: State, token: TokenId, callback: Callback): State
    requires token < |s.tokens|
  {
    if callback in s.tokens[token].callbacks then
      With(s, token, s.tokens[token].(callbacks := WithoutFirst(s.tokens[token].callbacks, callback)))
        .(removed := s.removed + multiset{callback})
    else s
  }

  function Next(s: State, op: Op): State {
    match op
    case Create => s.(tokens := s.tokens + [Token(false, [], None)])
    case CreateChild(parent) =>
      if parent >= |s.tokens| then s
      else AddStep(s.(tokens := s.tokens + [Token(false, [], Some(parent))]), parent, CancelChild(|s.tokens|))
    case Cancel(token) => CancelStep(s, token)
    case AddCallback(token, id) => if token < |s.tokens| then AddStep(s, token, Function(id)) else s
    case Remove(token, id) => if token < |s.tokens| then RemoveStep(s, token, Function(id)) else s
    case Close(token) =>
      if token >= |s.tokens| || s.tokens[token].parent.None? then s
      else
        With(s, token, s.tokens[token].(parent := None))
          .(detaching := s.detaching + {Detachment(s.tokens[token].parent.value, token)})
    case Detach(parent, child) =>
      if Detachment(parent, child) !in s.detaching then s
      else
        var finished := s.(detaching := s.detaching - {Detachment(parent, child)});
        if parent < |s.tokens| then RemoveStep(finished, parent, CancelChild(child)) else finished
    case RunDue(callback) =>
      if callback !in s.due then s
      else
        var called := s.(due := s.due - multiset{callback}, ran := s.ran + multiset{callback});
        match callback
        case CancelChild(child) => CancelStep(called, child)
        case Function(_) => called
  }

  // ---------------------------------------------------------------------------------
  // What the steps achieve
  // ---------------------------------------------------------------------------------

  /** Cancelling makes a token cancelled and what waited there due; adding to a cancelled
      token makes the callback due at once, and to another one lets it wait; a child that is
      run is cancelled; a removal takes one registration off the list. */
  lemma StepsAchieve(s: State, token: TokenId, callback: Callback)
    requires token < |s.tokens| && (s.tokens[token].cancelled ==> s.tokens[token].callbacks == [])
    ensures var t := Next(s, Cancel(token));
            && t.tokens[token].cancelled && t.tokens[token].callbacks == []
            && t.due == if s.tokens[token].cancelled then s.due else s.due + multiset(s.tokens[token].callbacks)
    ensures s.tokens[token].cancelled ==> AddStep(s, token, callback).due == s.due + multiset{callback}
    ensures !s.tokens[token].cancelled ==>
              AddStep(s, token, callback).tokens[token].callbacks == s.tokens[token].callbacks + [callback]
    ensures CancelChild(token) in s.due ==> Next(s, RunDue(CancelChild(token))).tokens[token].cancelled
    ensures callback in s.due ==> Next(s, RunDue(callback)).ran[callback] == s.ran[callback] + 1
    ensures callback in s.tokens[token].callbacks ==>
              |RemoveStep(s, token, callback).tokens[token].callbacks| == |s.tokens[token].callbacks| - 1
  {
    if callback in s.tokens[token].callbacks {
      WithoutFirstSize(s.tokens[token].callbacks, callback);
    }
  }

  lemma {:induction false} WithoutFirstSize(callbacks: seq<Callback>, callback: Callback)
    requires callback in callbacks
    ensures |WithoutFirst(callbacks, callback)| == |callbacks| - 1
    decreases |callbacks|
  {
    if callbacks[0] != callback {
      WithoutFirstSize(callbacks[1..], callback);
    }
  }

  // ---------------------------------------------------------------------------------
  // Every callback is accounted for
  // ---------------------------------------------------------------------------------

  function Times(callbacks: seq<Callback>, callback: Callback): nat {
    multiset(callbacks)[callback]
  }

  /** How often a callback waits in the lists of the tokens. */
  function Waiting(tokens: seq<Token>, callback: Callback): nat {
    if tokens == [] then 0
    else Waiting(tokens[..|tokens| - 1], callback) + Times(tokens[|tokens| - 1].callbacks, callback)
  }

  predicate Balanced(s: State, callback: Callback) {
    s.registered[callback] == s.ran[callback] + s.due[callback] + s.removed[callback] + Waiting(s.tokens, callback)
  }

  /** Every registration of a callback was called, removed, or is due or waiting. */
  ghost predicate Accounted(s: State) {
    forall callback :: Balanced(s, callback)
  }

  lemma {:induction false} WaitingUpdate(tokens: seq<Token>, token: TokenId, value: Token, callback: Callback)
    requires token < |tokens|
    ensures Waiting(tokens[token := value], callback) + Times(tokens[token].callbacks, callback)
         == Waiting(tokens, callback) + Times(value.callbacks, callback)
    decreases |tokens|
  {
    hide Times;
    var n := |tokens| - 1;
    if token < n {
      WaitingUpdate(tokens[..n], token, value, callback);
      assert tokens[token := value][..n] == tokens[..n][token := value];
    } else {
      assert tokens[token := value][..n] == tokens[..n];
    }
  }

  lemma {:induction false} WithoutFirstTimes(callbacks: seq<Callback>, callback: Callback, other: Callback)
    requires callback in callbacks
    ensures Times(WithoutFirst(callbacks, callback), other) + (if other == callback then 1 else 0) == Times(callbacks, other)
    decreases |callbacks|
  {
    assert callbacks == [callbacks[0]] + callbacks[1..];
    if callbacks[0] != callback {
      WithoutFirstTimes(callbacks[1..], callback, other);
    }
  }

  lemma CancelBalanced(s: State, token: TokenId, callback: Callback)
    requires Balanced(s, callback)
    ensures Balanced(CancelStep(s, token), callback)
  {
    if token < |s.tokens| && !s.tokens[token].cancelled {
      WaitingUpdate(s.tokens, token, s.tokens[token].(cancelled := true, callbacks := []), callback);
    }
  }

  lemma AddBalanced(s: State, token: TokenId, added: Callback, callback: Callback)
    requires Balanced(s, callback) && token < |s.tokens|
    ensures Balanced(AddStep(s, token, added), callback)
  {
    if !s.tokens[token].cancelled {
      WaitingUpdate(s.tokens, token, s.tokens[token].(callbacks := s.tokens[token].callbacks + [added]), callback);
    }
  }

  lemma RemoveBalanced(s: State, token: TokenId, gone: Callback, callback: Callback)
    requires Balanced(s, callback) && token < |s.tokens|
    ensures Balanced(RemoveStep(s, token, gone), callback)
  {
    if gone in s.tokens[token].callbacks {
      WaitingUpdate(s.tokens, token, s.tokens[token].(callbacks := WithoutFirst(s.tokens[token].callbacks, gone)), callback);
      WithoutFirstTimes(s.tokens[token].callbacks, gone, callback);
    }
  }

  lemma CreateBalanced(s: State, parent: Option<TokenId>, callback: Callback)
    requires Balanced(s, callback)
    ensures Balanced(s.(tokens := s.tokens + [Token(false, [], parent)]), callback)
  {
    assert (s.tokens + [Token(false, [], parent)])[..|s.tokens|] == s.tokens;
  }

  lemma CloseBalanced(s: State, token: TokenId, callback: Callback)
    requires Balanced(s, callback)
    ensures Balanced(Next(s, Close(token)), callback)
  {
    if token < |s.tokens| && s.tokens[token].parent.Some? {
      WaitingUpdate(s.tokens, token, s.tokens[token].(parent := None), callback);
    }
  }

  lemma DetachBalanced(s: State, parent: TokenId, child: TokenId, callback: Callback)
    requires Balanced(s, callback)
    ensures Balanced(Next(s, Detach(parent, child)), callback)
  {
    if Detachment(parent, child) in s.detaching && parent < |s.tokens| {
      var finished := s.(detaching := s.detaching - {Detachment(parent, child)});
      RemoveBalanced(finished, parent, CancelChild(child), callback);
    }
  }

  lemma RunBalanced(s: State, run: Callback, callback: Callback)
    requires Balanced(s, callback)
    ensures Balanced(Next(s, RunDue(run)), callback)
  {
    if run in s.due {
      var called := s.(due := s.due - multiset{run}, ran := s.ran + multiset{run});
      assert Balanced(called, callback);
      if run.CancelChild? {
        CancelBalanced(called, run.child, callback);
      }
    }
  }

  lemma NextBalanced(s: State, op: Op, callback: Callback)
    requires Balanced(s, callback)
    ensures Balanced(Next(s, op), callback)
  {
    hide Balanced;
    match op
    case Create => CreateBalanced(s, None, callback);
    case CreateChild(parent) =>
      if parent < |s.tokens| {
        CreateBalanced(s, Some(parent), callback);
        AddBalanced(s.(tokens := s.tokens + [Token(false, [], Some(parent))]), parent, CancelChild(|s.tokens|), callback);
      }
    case Cancel(token) => CancelBalanced(s, token, callback);
    case AddCallback(token, id) => if token < |s.tokens| { AddBalanced(s, token, Function(id), callback); }
    case Remove(token, id) => if token < |s.tokens| { RemoveBalanced(s, token, Function(id), callback); }
    case Close(token) => CloseBalanced(s, token, callback);
    case Detach(parent, child) => DetachBalanced(s, parent, child, callback);
    case RunDue(run) => RunBalanced(s, run, callback);
  }

  lemma NextAccounted(s: State, op: Op)
    requires Accounted(s)
    ensures Accounted(Next(s, op))
  {
    hide Balanced, Next;
    forall callback ensures Balanced(Next(s, op), callback) {
      NextBalanced(s, op, callback);
    }
  }

  // ---------------------------------------------------------------------------------
  // Cancellation reaches the children
  // ---------------------------------------------------------------------------------

  /** An attached child is in its parent's list, or about to be cancelled, or cancelled; a
      cancelled token's list is empty. */
  predicate Linked(s: State) {
    && (forall t :: 0 <= t < |s.tokens| && s.tokens[t].cancelled ==> s.tokens[t].callbacks == [])
    && (forall t :: 0 <= t < |s.tokens| && s.tokens[t].parent.Some? ==> s.tokens[t].parent.value < t)
    && (forall t :: 0 <= t < |s.tokens| && s.tokens[t].parent.Some? ==> ChildSafe(s, t))
    && (forall d :: d in s.detaching ==> d.parent < d.child < |s.tokens| && s.tokens[d.child].parent.None?)
  }

  predicate ChildSafe(s: State, child: TokenId)
    requires child < |s.tokens| && s.tokens[child].parent.Some?
  {
    var parent := s.tokens[child].parent.value;
    parent < |s.tokens| &&
    (s.tokens[child].cancelled || CancelChild(child) in s.due || CancelChild(child) in s.tokens[parent].callbacks)
  }

  lemma CancelLinked(s: State, token: TokenId)
    requires Linked(s)
    ensures Linked(CancelStep(s, token))
  {
    var t := CancelStep(s, token);
    forall c | 0 <= c < |t.tokens| && t.tokens[c].parent.Some? ensures ChildSafe(t, c) {
      assert ChildSafe(s, c);
    }
  }

  lemma AddLinked(s: State, token: TokenId, callback: Callback)
    requires Linked(s) && token < |s.tokens|
    ensures Linked(AddStep(s, token, callback))
  {
    var t := AddStep(s, token, callback);
    forall c | 0 <= c < |t.tokens| && t.tokens[c].parent.Some? ensures ChildSafe(t, c) {
      assert ChildSafe(s, c);
    }
  }

  lemma {:induction false} WithoutFirstKeeps(callbacks: seq<Callback>, callback: Callback, other: Callback)
    requires other in callbacks && other != callback
    ensures other in WithoutFirst(callbacks, callback)
    decreases |callbacks|
  {
    assert callbacks == [callbacks[0]] + callbacks[1..];
    if callbacks[0] != callback && callbacks[0] != other {
      WithoutFirstKeeps(callbacks[1..], callback, other);
    }
  }

  lemma RemoveLinked(s: State, token: TokenId, callback: Callback)
    requires Linked(s) && token < |s.tokens|
    requires callback.CancelChild? && callback.child < |s.tokens| ==> s.tokens[callback.child].parent.None?
    ensures Linked(RemoveStep(s, token, callback))
  {
    var t := RemoveStep(s, token, callback);
    forall c | 0 <= c < |t.tokens| && t.tokens[c].parent.Some? ensures ChildSafe(t, c) {
      assert ChildSafe(s, c);
      var parent := s.tokens[c].parent.value;
      if CancelChild(c) in s.tokens[parent].callbacks && parent == token {
        WithoutFirstKeeps(s.tokens[parent].callbacks, callback, CancelChild(c));
      }
    }
  }

  lemma CreateChildLinked(s: State, parent: TokenId)
    requires Linked(s) && parent < |s.tokens|
    ensures Linked(Next(s, CreateChild(parent)))
  {
    var t := Next(s, CreateChild(parent));
    forall c | 0 <= c < |t.tokens| && t.tokens[c].parent.Some? ensures ChildSafe(t, c) {
      if c < |s.tokens| {
        assert ChildSafe(s, c);
      }
    }
  }

  lemma CloseLinked(s: State, token: TokenId)
    requires Linked(s) && token < |s.tokens| && s.tokens[token].parent.Some?
    ensures Linked(Next(s, Close(token)))
  {
    var t := Next(s, Close(token));
    forall c | 0 <= c < |t.tokens| && t.tokens[c].parent.Some? ensures ChildSafe(t, c) {
      assert ChildSafe(s, c);
    }
  }

  lemma DetachLinked(s: State, parent: TokenId, child: TokenId)
    requires Linked(s) && Detachment(parent, child) in s.detaching
    ensures Linked(Next(s, Detach(parent, child)))
  {
    var finished := s.(detaching := s.detaching - {Detachment(parent, child)});
    forall c | 0 <= c < |finished.tokens| && finished.tokens[c].parent.Some? ensures ChildSafe(finished, c) {
      assert ChildSafe(s, c);
    }
    RemoveLinked(finished, parent, CancelChild(child));
  }

  lemma RunLinked(s: State, callback: Callback)
    requires Linked(s) && callback in s.due
    ensures Linked(Next(s, RunDue(callback)))
  {
    var t := Next(s, RunDue(callback));
    forall c | 0 <= c < |t.tokens| && t.tokens[c].parent.Some? ensures ChildSafe(t, c) {
      assert ChildSafe(s, c);
      assert CancelChild(c) in s.due && callback != CancelChild(c) ==> CancelChild(c) in s.due - multiset{callback};
    }
  }

  ghost predicate Inv(s: State) {
    Accounted(s) && Linked(s)
  }

  lemma NextKeeps(s: State, op: Op)
    requires Inv(s)
    ensures Inv(Next(s, op))
  {
    NextAccounted(s, op);
    hide Accounted;
    match op
    case Create =>
      var t := Next(s, op);
      forall c | 0 <= c < |t.tokens| && t.tokens[c].parent.Some? ensures ChildSafe(t, c) {
        assert ChildSafe(s, c);
      }
    case CreateChild(parent) => if parent < |s.tokens| { CreateChildLinked(s, parent); }
    case Cancel(token) => CancelLinked(s, token);
    case AddCallback(token, id) => if token < |s.tokens| { AddLinked(s, token, Function(id)); }
    case Remove(token, id) => if token < |s.tokens| { RemoveLinked(s, token, Function(id)); }
    case Close(token) => if token < |s.tokens| && s.tokens[token].parent.Some? { CloseLinked(s, token); }
    case Detach(parent, child) => if Detachment(parent, child) in s.detaching { DetachLinked(s, parent, child); }
    case RunDue(callback) => if callback in s.due { RunLinked(s, callback); }
  }

  function Run(s: State, ops: seq<Op>): State
    decreases |ops|
  {
    if ops == [] then s else Run(Next(s, ops[0]), ops[1..])
  }

  lemma {:induction false} RunKeeps(s: State, ops: seq<Op>)
    requires Inv(s)
    ensures Inv(Run(s, ops))
    decreases |ops|
  {
    hide Inv;
    if ops != [] {
      NextKeeps(s, ops[0]);
      RunKeeps(Next(s, ops[0]), ops[1..]);
    }
  }

  /** In every run a callback is called at most as often as it was registered, and what was
      registered has been called, removed, or still waits. */
  lemma CalledAtMostOnce(ops: seq<Op>, callback: Callback)
    ensures var s := Run(Initial(), ops);
            && s.ran[callback] + s.removed[callback] <= s.registered[callback]
            && s.registered[callback] == s.ran[callback] + s.removed[callback] + s.due[callback] + Waiting(s.tokens, callback)
  {
    RunKeeps(Initial(), ops);
    assert Balanced(Run(Initial(), ops), callback);
  }

  /** In every run, once no callback is due, every child that is still attached to a
      cancelled token is cancelled, however it was created. */
  lemma AttachedChildrenCancelled(ops: seq<Op>, child: TokenId)
    ensures var s := Run(Initial(), ops);
            s.due == multiset{} && child < |s.tokens| && s.tokens[child].parent.Some? ==>
              var parent := s.tokens[child].parent.value;
              parent < |s.tokens| && (s.tokens[parent].cancelled ==> s.tokens[child].cancelled)
  {
    RunKeeps(Initial(), ops);
    var s := Run(Initial(), ops);
    if child < |s.tokens| && s.tokens[child].parent.Some? {
      assert ChildSafe(s, child);
    }
  }

  predicate Cancelled(s: State, token: TokenId) {
    token < |s.tokens| && s.tokens[token].cancelled
  }

  lemma StepsStayCancelled(s: State, at: TokenId, callback: Callback, token: TokenId)
    requires Cancelled(s, token)
    ensures Cancelled(CancelStep(s, at), token)
    ensures at < |s.tokens| ==> Cancelled(AddStep(s, at, callback), token)
    ensures at < |s.tokens| ==> Cancelled(RemoveStep(s, at, callback), token)
  {
    hide WithoutFirst;
  }

  lemma StaysCancelled(s: State, op: Op, token: TokenId)
    requires Cancelled(s, token)
    ensures Cancelled(Next(s, op), token)
  {
    hide CancelStep, AddStep, RemoveStep;
    match op
    case Create =>
    case CreateChild(parent) =>
      StepsStayCancelled(s.(tokens := s.tokens + [Token(false, [], Some(parent))]), parent, CancelChild(|s.tokens|), token);
    case Cancel(at) => StepsStayCancelled(s, at, Function(0), token);
    case AddCallback(at, id) => StepsStayCancelled(s, at, Function(id), token);
    case Remove(at, id) => StepsStayCancelled(s, at, Function(id), token);
    case Close(_) =>
    case Detach(parent, child) =>
      StepsStayCancelled(s.(detaching := s.detaching - {Detachment(parent, child)}), parent, CancelChild(child), token);
    case RunDue(callback) =>
      if callback.CancelChild? && callback in s.due {
        var called := s.(due := s.due - multiset{callback}, ran := s.ran + multiset{callback});
        StepsStayCancelled(called, callback.child, callback, token);
      }
  }

  /** Cancellation is never undone, and tokens do not disappear. */
  lemma {:induction false} CancelledForever(s: State, ops: seq<Op>, token: TokenId)
    requires Cancelled(s, token)
    ensures Cancelled(Run(s, ops), token)
    decreases |ops|
  {
    if ops != [] {
      StaysCancelled(s, ops[0], token);
      hide Next;
      CancelledForever(Next(s, ops[0]), ops[1..], token);
    }
  }

  /** Every ancestor chain: with nothing due, an attached descendant of a cancelled token is
      cancelled. */
  lemma {:induction false} DescendantsCancelled(ops: seq<Op>, chain: seq<TokenId>)
    requires chain != [] && Run(Initial(), ops).due == multiset{}
    requires Chain(Run(Initial(), ops), chain) && Run(Initial(), ops).tokens[chain[0]].cancelled
    ensures Run(Initial(), ops).tokens[chain[|chain| - 1]].cancelled
    decreases |chain|
  {
    if |chain| > 1 {
      var front := chain[..|chain| - 1];
      DescendantsCancelled(ops, front);
      AttachedChildrenCancelled(ops, chain[|chain| - 1]);
      assert chain[|chain| - 2] == front[|front| - 1];
    }
  }

  /** Each token of the chain is attached to the one before it. */
  predicate Chain(s: State, chain: seq<TokenId>) {
    && (forall k :: 0 <= k < |chain| ==> chain[k] < |s.tokens|)
    && (forall k :: 0 < k < |chain| ==> s.tokens[chain[k]].parent == Some(chain[k - 1]))
  }

  // ---------------------------------------------------------------------------------
  // A closed token is forgotten
  // ---------------------------------------------------------------------------------

  /** A child's cancel method stands only in its parent's list, once, and until its close
      has come to an end. */
  ghost predicate Rooted(s: State) {
    forall t, c :: 0 <= t < |s.tokens| && CancelChild(c) in s.tokens[t].callbacks ==> RootedAt(s, t, c)
  }

  predicate RootedAt(s: State, t: TokenId, c: TokenId)
    requires t < |s.tokens|
  {
    && c < |s.tokens| && Times(s.tokens[t].callbacks, CancelChild(c)) == 1
    && (s.tokens[c].parent == Some(t) || Detachment(t, c) in s.detaching)
  }

  lemma CancelRooted(s: State, token: TokenId)
    requires Rooted(s)
    ensures Rooted(CancelStep(s, token))
  {
    var s' := CancelStep(s, token);
    forall t, c | 0 <= t < |s'.tokens| && CancelChild(c) in s'.tokens[t].callbacks ensures RootedAt(s', t, c) {
      assert RootedAt(s, t, c);
    }
  }

  lemma AddFunctionRooted(s: State, token: TokenId, id: nat)
    requires Rooted(s) && token < |s.tokens|
    ensures Rooted(AddStep(s, token, Function(id)))
  {
    var s' := AddStep(s, token, Function(id));
    forall t, c | 0 <= t < |s'.tokens| && CancelChild(c) in s'.tokens[t].callbacks ensures RootedAt(s', t, c) {
      assert RootedAt(s, t, c);
    }
  }

  lemma CreateChildRooted(s: State, parent: TokenId)
    requires Rooted(s) && parent < |s.tokens|
    ensures Rooted(Next(s, CreateChild(parent)))
  {
    var (s', n) := (Next(s, CreateChild(parent)), |s.tokens|);
    assert CancelChild(n) in s.tokens[parent].callbacks ==> RootedAt(s, parent, n);
    forall t, c | 0 <= t < |s'.tokens| && CancelChild(c) in s'.tokens[t].callbacks ensures RootedAt(s', t, c) {
      if c != n {
        assert RootedAt(s, t, c);
      }
    }
  }

  lemma {:induction false} WithoutFirstFrom(callbacks: seq<Callback>, callback: Callback, other: Callback)
    requires other in WithoutFirst(callbacks, callback)
    ensures other in callbacks
    decreases |callbacks|
  {
    if callbacks[0] != callback && callbacks[0] != other {
      WithoutFirstFrom(callbacks[1..], callback, other);
    }
  }

  lemma RemoveFunctionRooted(s: State, token: TokenId, id: nat)
    requires Rooted(s) && token < |s.tokens|
    ensures Rooted(RemoveStep(s, token, Function(id)))
  {
    var s' := RemoveStep(s, token, Function(id));
    forall t, c | 0 <= t < |s'.tokens| && CancelChild(c) in s'.tokens[t].callbacks ensures RootedAt(s', t, c) {
      if t == token && s' != s {
        WithoutFirstFrom(s.tokens[t].callbacks, Function(id), CancelChild(c));
        WithoutFirstTimes(s.tokens[t].callbacks, Function(id), CancelChild(c));
      }
      assert RootedAt(s, t, c);
    }
  }

  lemma DetachRooted(s: State, parent: TokenId, child: TokenId)
    requires Rooted(s) && Detachment(parent, child) in s.detaching
    ensures Rooted(Next(s, Detach(parent, child)))
  {
    var s' := Next(s, Detach(parent, child));
    forall t, c | 0 <= t < |s'.tokens| && CancelChild(c) in s'.tokens[t].callbacks ensures RootedAt(s', t, c) {
      if t == parent && CancelChild(child) in s.tokens[t].callbacks {
        WithoutFirstFrom(s.tokens[t].callbacks, CancelChild(child), CancelChild(c));
        WithoutFirstTimes(s.tokens[t].callbacks, CancelChild(child), CancelChild(c));
        assert RootedAt(s, t, child);
      }
      assert RootedAt(s, t, c);
    }
  }

  lemma NextRooted(s: State, op: Op)
    requires Rooted(s)
    ensures Rooted(Next(s, op))
  {
    match op
    case Cancel(token) => CancelRooted(s, token);
    case CreateChild(parent) => if parent < |s.tokens| { CreateChildRooted(s, parent); }
    case AddCallback(token, id) => if token < |s.tokens| { AddFunctionRooted(s, token, id); }
    case Remove(token, id) => if token < |s.tokens| { RemoveFunctionRooted(s, token, id); }
    case Detach(parent, child) => if Detachment(parent, child) in s.detaching { DetachRooted(s, parent, child); }
    case RunDue(callback) =>
      if callback in s.due && callback.CancelChild? {
        CancelRooted(s.(due := s.due - multiset{callback}, ran := s.ran + multiset{callback}), callback.child);
      }
    case Create =>
      forall t, c | 0 <= t < |s.tokens| && CancelChild(c) in s.tokens[t].callbacks ensures RootedAt(Next(s, op), t, c) {
        assert RootedAt(s, t, c);
      }
    case Close(token) =>
      forall t, c | 0 <= t < |s.tokens| && CancelChild(c) in s.tokens[t].callbacks ensures RootedAt(Next(s, op), t, c) {
        assert RootedAt(s, t, c);
      }
  }

  lemma {:induction false} RunRooted(s: State, ops: seq<Op>)
    requires Rooted(s)
    ensures Rooted(Run(s, ops))
    decreases |ops|
  {
    hide Rooted, Next;
    if ops != [] {
      NextRooted(s, ops[0]);
      RunRooted(Next(s, ops[0]), ops[1..]);
    }
  }

  /** The token has no parent, and no close of it is under way. */
  predicate Detached(s: State, child: TokenId) {
    child < |s.tokens| && s.tokens[child].parent.None? && forall d :: d in s.detaching ==> d.child != child
  }

  /** How often the child's cancel method was called or is due. */
  function Reached(s: State, child: TokenId): nat {
    s.ran[CancelChild(child)] + s.due[CancelChild(child)]
  }

  predicate NowhereListed(s: State, child: TokenId) {
    forall t :: 0 <= t < |s.tokens| ==> CancelChild(child) !in s.tokens[t].callbacks
  }

  lemma DetachedIsNowhere(s: State, child: TokenId)
    requires Rooted(s) && Detached(s, child)
    ensures NowhereListed(s, child)
  {
    forall t | 0 <= t < |s.tokens| ensures CancelChild(child) !in s.tokens[t].callbacks {
      assert CancelChild(child) in s.tokens[t].callbacks ==> RootedAt(s, t, child);
    }
  }

  lemma CancelReaches(s: State, token: TokenId, child: TokenId)
    requires NowhereListed(s, child)
    ensures Reached(CancelStep(s, token), child) == Reached(s, child)
  {
    if token < |s.tokens| {
      assert multiset(s.tokens[token].callbacks)[CancelChild(child)] == 0;
    }
  }

  lemma OthersReach(s: State, token: TokenId, callback: Callback, child: TokenId)
    requires token < |s.tokens| && callback != CancelChild(child)
    ensures Reached(AddStep(s, token, callback), child) == Reached(s, child)
    ensures Reached(RemoveStep(s, token, callback), child) == Reached(s, child)
  {
    hide WithoutFirst;
  }

  lemma RemovalReaches(s: State, token: TokenId, callback: Callback, child: TokenId)
    requires token < |s.tokens|
    ensures Reached(RemoveStep(s, token, callback), child) == Reached(s, child)
  {
    hide WithoutFirst;
  }

  lemma StepReaches(s: State, op: Op, child: TokenId)
    requires NowhereListed(s, child) && child < |s.tokens|
    ensures Reached(Next(s, op), child) == Reached(s, child)
  {
    hide CancelStep, AddStep, RemoveStep;
    match op
    case Create =>
    case Close(_) =>
    case CreateChild(parent) =>
      if parent < |s.tokens| {
        OthersReach(s.(tokens := s.tokens + [Token(false, [], Some(parent))]), parent, CancelChild(|s.tokens|), child);
      }
    case Cancel(token) => CancelReaches(s, token, child);
    case AddCallback(token, id) => if token < |s.tokens| { OthersReach(s, token, Function(id), child); }
    case Remove(token, id) => if token < |s.tokens| { RemovalReaches(s, token, Function(id), child); }
    case Detach(parent, other) =>
      if parent < |s.tokens| {
        RemovalReaches(s.(detaching := s.detaching - {Detachment(parent, other)}), parent, CancelChild(other), child);
      }
    case RunDue(callback) =>
      if callback in s.due && callback.CancelChild? {
        CancelReaches(s.(due := s.due - multiset{callback}, ran := s.ran + multiset{callback}), callback.child, child);
      }
  }

  lemma DetachedLess(s: State, child: TokenId)
    requires Detached(s, child)
    ensures child < |s.tokens|
  {
  }

  /** The tokens with their parents, and what is being detached. */
  predicate SameParents(s: State, t: State) {
    && |t.tokens| == |s.tokens| && t.detaching == s.detaching
    && forall k :: 0 <= k < |s.tokens| ==> t.tokens[k].parent == s.tokens[k].parent
  }

  lemma StepsKeepParents(s: State, token: TokenId, callback: Callback)
    ensures SameParents(s, CancelStep(s, token))
    ensures token < |s.tokens| ==> SameParents(s, AddStep(s, token, callback)) && SameParents(s, RemoveStep(s, token, callback))
  {
    hide WithoutFirst, SameParents;
    if token < |s.tokens| {
      var held := s.tokens[token];
      UpdateKeepsParents(s, CancelStep(s, token), token, held.(cancelled := true, callbacks := []));
      UpdateKeepsParents(s, AddStep(s, token, callback), token, held.(callbacks := held.callbacks + [callback]));
      UpdateKeepsParents(s, RemoveStep(s, token, callback), token, held.(callbacks := WithoutFirst(held.callbacks, callback)));
    } else {
      UpdateKeepsParents(s, s, token, Token(false, [], None));
    }
  }

  lemma UpdateKeepsParents(s: State, t: State, token: TokenId, value: Token)
    requires t.detaching == s.detaching
    requires t.tokens == s.tokens || (token < |s.tokens| && value.parent == s.tokens[token].parent && t.tokens == s.tokens[token := value])
    ensures SameParents(s, t)
  {
  }

  lemma SameDetached(s: State, t: State, child: TokenId)
    requires Detached(s, child) && SameParents(s, t)
    ensures Detached(t, child)
  {
  }

  lemma CreatedDetached(s: State, token: Token, child: TokenId)
    requires Detached(s, child)
    ensures Detached(s.(tokens := s.tokens + [token]), child)
  {
  }

  lemma StepDetached(s: State, op: Op, child: TokenId)
    requires Detached(s, child)
    ensures Detached(Next(s, op), child)
  {
    hide CancelStep, AddStep, RemoveStep, SameParents;
    var t := Next(s, op);
    match op
    case Create => CreatedDetached(s, Token(false, [], None), child);
    case CreateChild(parent) =>
      if parent < |s.tokens| {
        var more := s.(tokens := s.tokens + [Token(false, [], Some(parent))]);
        CreatedDetached(s, Token(false, [], Some(parent)), child);
        StepsKeepParents(more, parent, CancelChild(|s.tokens|));
        SameDetached(more, t, child);
      }
    case Cancel(token) =>
      StepsKeepParents(s, token, Function(0));
      SameDetached(s, t, child);
    case AddCallback(token, id) =>
      if token < |s.tokens| {
        StepsKeepParents(s, token, Function(id));
        SameDetached(s, t, child);
      }
    case Remove(token, id) =>
      if token < |s.tokens| {
        StepsKeepParents(s, token, Function(id));
        SameDetached(s, t, child);
      }
    case Close(_) =>
    case Detach(parent, other) =>
      var finished := s.(detaching := s.detaching - {Detachment(parent, other)});
      assert Detached(finished, child);
      if Detachment(parent, other) in s.detaching && parent < |s.tokens| {
        StepsKeepParents(finished, parent, CancelChild(other));
        SameDetached(finished, t, child);
      }
    case RunDue(callback) =>
      if callback in s.due {
        var called := s.(due := s.due - multiset{callback}, ran := s.ran + multiset{callback});
        assert Detached(called, child);
        if callback.CancelChild? {
          StepsKeepParents(called, callback.child, callback);
          SameDetached(called, t, child);
        }
      }
  }

  /** In every run: once the close of a token has come to its end, no cancellation reaches it
      through a parent any more, whatever happens then; only what was due already is called. */
  lemma ClosedIsForgotten(before: seq<Op>, ops: seq<Op>, child: TokenId)
    requires Detached(Run(Initial(), before), child)
    ensures Reached(Run(Run(Initial(), before), ops), child) == Reached(Run(Initial(), before), child)
  {
    RunRooted(Initial(), before);
    StaysDetached(Run(Initial(), before), ops, child);
  }

  lemma {:induction false} StaysDetached(s: State, ops: seq<Op>, child: TokenId)
    requires Rooted(s) && Detached(s, child)
    ensures Reached(Run(s, ops), child) == Reached(s, child)
    decreases |ops|
  {
    hide Rooted, Next, Detached, Reached, NowhereListed;
    if ops != [] {
      DetachedIsNowhere(s, child);
      DetachedLess(s, child);
      StepReaches(s, ops[0], child);
      StepDetached(s, ops[0], child);
      NextRooted(s, ops[0]);
      StaysDetached(Next(s, ops[0]), ops[1..], child);
    }
  }

  /** Until then it does: between the two steps of its close a child is cancelled along with
      the parent it has given up. */
  lemma CancelledWhileClosing()
    ensures var s := Run(Initial(), [Create, CreateChild(0), Close(1), Cancel(0), RunDue(CancelChild(1))]);
            |s.tokens| == 2 && s.tokens[1].parent.None? && s.tokens[1].cancelled
  {
    var child := CancelChild(1);
    var s1 := Next(Initial(), Create);
    var s2 := Next(s1, CreateChild(0));
    var s3 := Next(s2, Close(1));
    assert s1.tokens == [Token(false, [], None)];
    assert s1.tokens + [Token(false, [], Some(0))] == [Token(false, [], None), Token(false, [], Some(0))];
    assert [] + [child] == [child];
    assert s2.tokens == [Token(false, [child], None), Token(false, [], Some(0))];
    assert s3.tokens == [Token(false, [child], None), Token(false, [], None)];
    ClosingIsCancelled(s3);
    var s4 := Next(s3, Cancel(0));
    hide Next;
    RunThree(Initial(), Create, CreateChild(0), Close(1), [Cancel(0), RunDue(child)]);
    assert [Create, CreateChild(0), Close(1)] + [Cancel(0), RunDue(child)] == [Create, CreateChild(0), Close(1), Cancel(0), RunDue(child)];
    assert [Cancel(0), RunDue(child)][1..] == [RunDue(child)] && [RunDue(child)][1..] == [];
    assert Run(s4, [RunDue(child)]) == Run(Next(s4, RunDue(child)), []);
  }

  lemma ClosingIsCancelled(s: State)
    requires s.tokens == [Token(false, [CancelChild(1)], None), Token(false, [], None)]
    ensures var t := Next(Next(s, Cancel(0)), RunDue(CancelChild(1)));
            |t.tokens| == 2 && t.tokens[1] == Token(true, [], None)
  {
    var t := Next(s, Cancel(0));
    assert t.tokens == [Token(true, [], None), Token(false, [], None)];
    assert multiset(s.tokens[0].callbacks)[CancelChild(1)] == 1;
  }

  lemma RunThree(s: State, a: Op, b: Op, c: Op, rest: seq<Op>)
    ensures Run(s, [a, b, c] + rest) == Run(Next(Next(Next(s, a), b), c), rest)
  {
    hide Next;
    var (abc, bc) := ([a, b, c] + rest, [b, c] + rest);
    assert abc[1..] == bc && bc[1..] == [c] + rest && ([c] + rest)[1..] == rest;
    assert Run(s, abc) == Run(Next(s, a), bc);
    assert Run(Next(s, a), bc) == Run(Next(Next(s, a), b), [c] + rest);
  }
}
