/**
  `CancellationToken.cancel` in one thread: it ends, and it reaches every token below.
  `all` is any set of tokens closed under the callback lists.
 */
module CancellationTree {
  import opened FiniteSets

  datatype Callback = CancelChild(child: CancellationToken) | Function(id: nat)

  class CancellationToken {
    var cancelled: bool
    var callbacks: seq<Callback>

    constructor ()
      ensures !cancelled && callbacks == []
    {
      cancelled, callbacks := false, [];
    }

    /** `create_child`: born cancelled below a cancelled parent. */
    method CreateChild() returns (child: CancellationToken)
      modifies this`callbacks
      ensures fresh(child) && child.cancelled == cancelled && child.callbacks == []
      ensures callbacks == old(callbacks) + if cancelled then [] else [CancelChild(child)]
    {
      child := new CancellationToken();
      if cancelled {
        child.cancelled := true;
      } else {
        callbacks := callbacks + [CancelChild(child)];
      }
    }

    method Cancel(ghost all: set<CancellationToken>)
      requires this in all && Closed(all)
      modifies all
      ensures Closed(all) && cancelled
      ensures forall t :: t in all && old(t.cancelled) ==> t.cancelled
      ensures forall t :: t in all && !t.cancelled ==> t.callbacks == old(t.callbacks)
      ensures forall t :: t in all && t.cancelled && !old(t.cancelled) ==> AllCancelled(old(t.callbacks))
      decreases |Uncancelled(all)|
    {
      if cancelled {
        return;
      }
      ghost var open := Uncancelled(all);
      cancelled := true;
      assert this in open && this !in Uncancelled(all);
      var pending := callbacks;
      callbacks := [];
      for i := 0 to |pending|
        invariant Closed(all) && cancelled && Uncancelled(all) <= open - {this}
        invariant forall t :: t in all && old(t.cancelled) ==> t.cancelled
        invariant forall t :: t in all && !t.cancelled ==> t.callbacks == old(t.callbacks)
        invariant forall t :: t in all && t != this && t.cancelled && !old(t.cancelled) ==> AllCancelled(old(t.callbacks))
        invariant AllCancelled(pending[..i])
      {
        assert pending[i] in old(callbacks);
        SubsetSize(Uncancelled(all), open);
        match pending[i]
        case CancelChild(child) => child.Cancel(all);
        case Function(_) =>
        assert pending[..i + 1] == pending[..i] + [pending[i]];
      }
      assert pending[..|pending|] == pending;
    }
  }

  /** Children named in the lists belong to the set, and a cancelled token's list is empty. */
  ghost predicate Closed(all: set<CancellationToken>)
    reads all
  {
    forall t :: t in all ==>
      && (t.cancelled ==> t.callbacks == [])
      && forall c :: c in t.callbacks && c.CancelChild? ==> c.child in all
  }

  ghost predicate AllCancelled(callbacks: seq<Callback>)
    reads set c | c in callbacks && c.CancelChild? :: c.child
  {
    forall c :: c in callbacks && c.CancelChild? ==> c.child.cancelled
  }

  ghost function Uncancelled(all: set<CancellationToken>): set<CancellationToken>
    reads all
  {
    set t | t in all && !t.cancelled
  }

  type Lists = map<CancellationToken, seq<Callback>>

  ghost function ListsOf(all: set<CancellationToken>): Lists
    reads all
  {
    map t | t in all :: t.callbacks
  }

  /** Each token of the path stands in the callback list of the one before it. */
  ghost predicate Path(lists: Lists, path: seq<CancellationToken>) {
    && (forall k :: 0 <= k < |path| ==> path[k] in lists)
    && (forall k :: 0 < k < |path| ==> CancelChild(path[k]) in lists[path[k - 1]])
  }

  /** One `cancel` reaches every descendant that was attached when it began. */
  method CancelAll(root: CancellationToken, ghost all: set<CancellationToken>)
    requires root in all && Closed(all)
    modifies all
    ensures forall path: seq<CancellationToken> :: |path| > 0 && path[0] == root && Path(old(ListsOf(all)), path) ==> path[|path| - 1].cancelled
  {
    ghost var lists := ListsOf(all);
    ghost var was := set t | t in all && t.cancelled;
    root.Cancel(all);
    ghost var now := set t | t in all && t.cancelled;
    forall path: seq<CancellationToken> | |path| > 0 && path[0] == root && Path(lists, path) ensures path[|path| - 1].cancelled {
      Reached(lists, was, now, path);
    }
  }

  lemma {:induction false} Reached(lists: Lists, was: set<CancellationToken>, now: set<CancellationToken>, path: seq<CancellationToken>)
    requires |path| > 0 && path[0] in now && Path(lists, path)
    requires forall t :: t in was && t in lists ==> lists[t] == []
    requires forall t, c :: t in now && t !in was && t in lists && CancelChild(c) in lists[t] ==> c in now
    ensures path[|path| - 1] in now
    decreases |path|
  {
    if |path| > 1 {
      Reached(lists, was, now, path[..|path| - 1]);
    }
  }
}
