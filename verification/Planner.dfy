/**
  `ExecutionPlanner`: which tool calls of one batch may run side by side.  A call waits for
  every earlier call it conflicts with.
 */
module Planner {
  import opened Paths

  datatype Scope = Exact | Subtree | Everywhere

  datatype Access = Read | Write

  /** Keys are normalised paths, compared component by component. */
  datatype ResourceClaim = ResourceClaim(domain: string, key: Path, scope: Scope, access: Access)

  datatype CallEffect = CallEffect(resources: seq<ResourceClaim>, barrier: bool)

  // ---------------------------------------------------------------------------------
  // Conflicts
  // ---------------------------------------------------------------------------------

  function ClaimsConflict(left: ResourceClaim, right: ResourceClaim): bool {
    if left.domain == "global" || right.domain == "global" then
      left.access == Write || right.access == Write
    else if left.domain != right.domain || (left.access == Read && right.access == Read) then false
    else if left.scope == Everywhere || right.scope == Everywhere then true
    else if left.scope == Exact && right.scope == Exact then left.key == right.key
    else if left.scope == Subtree && right.scope == Subtree then left.key <= right.key || right.key <= left.key
    else
      var (subtree, exact) := if left.scope == Subtree then (left, right) else (right, left);
      subtree.key <= exact.key
  }

  predicate EffectsConflict(left: CallEffect, right: CallEffect) {
    exists a, b :: a in left.resources && b in right.resources && ClaimsConflict(a, b)
  }

  datatype Location = Location(domain: string, key: Path)

  /** The locations a claim speaks of. */
  predicate Touches(claim: ResourceClaim, at: Location) {
    claim.domain == "global" ||
    (claim.domain == at.domain &&
     match claim.scope
     case Everywhere => true
     case Exact => claim.key == at.key
     case Subtree => claim.key <= at.key)
  }

  ghost predicate Share(left: ResourceClaim, right: ResourceClaim) {
    exists at :: Touches(left, at) && Touches(right, at)
  }

  /** Two claims conflict exactly when they share a location and one of them writes. */
  lemma ClaimsConflictExactly(left: ResourceClaim, right: ResourceClaim)
    ensures ClaimsConflict(left, right) <==> (left.access == Write || right.access == Write) && Share(left, right)
    ensures ClaimsConflict(left, right) == ClaimsConflict(right, left)
  {
    if ClaimsConflict(left, right) {
      var at :=
        if left.domain == "global" then Location(right.domain, right.key)
        else if right.domain == "global" then Location(left.domain, left.key)
        else if left.scope == Everywhere then Location(left.domain, right.key)
        else if right.scope == Everywhere then Location(left.domain, left.key)
        else if right.key <= left.key && right.scope == Subtree then Location(left.domain, left.key)
        else Location(left.domain, right.key);
      assert Touches(left, at) && Touches(right, at);
    }
    forall at | Touches(left, at) && Touches(right, at) && (left.access == Write || right.access == Write)
      ensures ClaimsConflict(left, right)
    {
      if left.scope == Subtree && right.scope == Subtree && left.key <= at.key && right.key <= at.key {
        PrefixesOfOne(left.key, right.key, at.key);
      }
    }
  }

  /** The later call has to wait for the earlier one. */
  predicate MustPrecede(earlier: CallEffect, later: CallEffect) {
    later.barrier || earlier.barrier || EffectsConflict(earlier, later)
  }

  lemma MustPrecedeSymmetric(left: CallEffect, right: CallEffect)
    ensures MustPrecede(left, right) == MustPrecede(right, left)
  {
    forall a, b | a in left.resources && b in right.resources
      ensures ClaimsConflict(a, b) == ClaimsConflict(b, a)
    {
      ClaimsConflictExactly(a, b);
    }
  }

  // ---------------------------------------------------------------------------------
  // Dependencies
  // ---------------------------------------------------------------------------------

  function DependenciesOf(effects: seq<CallEffect>, i: nat): set<nat>
    requires i < |effects|
  {
    set j: nat | j < i && MustPrecede(effects[j], effects[i])
  }

  predicate AreDependencies(effects: seq<CallEffect>, deps: seq<set<nat>>) {
    |deps| == |effects| && forall i :: 0 <= i < |effects| ==> deps[i] == DependenciesOf(effects, i)
  }

  /** Each call is compared with the earlier ones; a barrier also marks every later call. */
  method PlanDependencies(effects: seq<CallEffect>) returns (deps: seq<set<nat>>)
    ensures AreDependencies(effects, deps)
  {
    deps := seq(|effects|, _ => {});
    for pos := 0 to |effects|
      invariant |deps| == |effects|
      invariant forall i :: 0 <= i < pos ==> deps[i] == DependenciesOf(effects, i)
      invariant forall i :: pos <= i < |effects| ==> deps[i] == BarriersBefore(effects, pos)
    {
      var own := deps[pos];
      for j := 0 to pos
        invariant own == BarriersBefore(effects, pos) + set k: nat | k < j && MustPrecede(effects[k], effects[pos])
      {
        if effects[pos].barrier || effects[j].barrier || EffectsConflict(effects[j], effects[pos]) {
          own := own + {j};
        }
      }
      assert own == DependenciesOf(effects, pos);
      ghost var before := deps;
      deps := deps[pos := own];
      if effects[pos].barrier {
        for later := pos + 1 to |effects|
          invariant |deps| == |effects|
          invariant forall i :: 0 <= i < |effects| ==>
            deps[i] == if i == pos then own else if pos < i < later then before[i] + {pos} else before[i]
        {
          deps := deps[later := deps[later] + {pos}];
        }
      }
      assert BarriersBefore(effects, pos + 1)
          == BarriersBefore(effects, pos) + if effects[pos].barrier then {pos} else {};
    }
  }

  function BarriersBefore(effects: seq<CallEffect>, pos: nat): set<nat>
    requires pos <= |effects|
  {
    set j: nat | j < pos && effects[j].barrier
  }

  // ---------------------------------------------------------------------------------
  // Ready calls
  // ---------------------------------------------------------------------------------

  function ReadyFrom(deps: seq<set<nat>>, start: nat, pending: set<nat>, completed: set<nat>): (ready: seq<nat>)
    requires start <= |deps|
    ensures forall i :: i in ready <==> start <= i < |deps| && i in pending && deps[i] <= completed
    ensures forall a, b :: 0 <= a < b < |ready| ==> ready[a] < ready[b]
    decreases |deps| - start
  {
    if start == |deps| then []
    else
      var rest := ReadyFrom(deps, start + 1, pending, completed);
      assert forall k :: 0 <= k < |rest| ==> rest[k] in rest;
      if start in pending && deps[start] <= completed then [start] + rest else rest
  }

  /** `ready`: the pending calls whose dependencies have all completed, in model order. */
  function Ready(deps: seq<set<nat>>, pending: set<nat>, completed: set<nat>): seq<nat> {
    ReadyFrom(deps, 0, pending, completed)
  }

  /** Every call is either pending or completed. */
  ghost predicate Partition(n: nat, pending: set<nat>, completed: set<nat>) {
    && pending !! completed
    && forall i: nat :: i < n <==> i in pending || i in completed
  }

  /** There is always a call to run: the planner never reports a dependency cycle. */
  lemma AlwaysReady(effects: seq<CallEffect>, deps: seq<set<nat>>, pending: set<nat>, completed: set<nat>)
    requires AreDependencies(effects, deps) && Partition(|effects|, pending, completed) && pending != {}
    ensures Ready(deps, pending, completed) != []
  {
    var first := Least(pending);
    assert first in Ready(deps, pending, completed);
  }

  lemma {:induction false} Least(s: set<nat>) returns (least: nat)
    requires s != {}
    ensures least in s && forall i :: i in s ==> least <= i
    decreases |s|
  {
    var one :| one in s;
    least := one;
    if s != {one} {
      var other := Least(s - {one});
      assert forall i :: i in s ==> i == one || i in s - {one};
      least := if other < one then other else one;
    }
  }

  /** A pending call is ready exactly when every earlier call has completed, or neither of
      the two is a barrier and nowhere in their claims do they share a location that one of
      them writes. */
  lemma ReadyExactly(effects: seq<CallEffect>, deps: seq<set<nat>>, pending: set<nat>, completed: set<nat>, i: nat)
    requires AreDependencies(effects, deps) && Partition(|effects|, pending, completed)
    ensures i in Ready(deps, pending, completed) <==>
            i in pending && forall j: nat :: j < i ==> j in completed || Independent(effects[j], effects[i])
  {
    if i in pending {
      forall j: nat | j < i ensures j in deps[i] <==> !Independent(effects[j], effects[i]) {
        IndependentExactly(effects[j], effects[i]);
      }
    }
  }

  ghost predicate Independent(left: CallEffect, right: CallEffect) {
    && !left.barrier && !right.barrier
    && forall a, b :: a in left.resources && b in right.resources && (a.access == Write || b.access == Write) ==> !Share(a, b)
  }

  lemma IndependentExactly(left: CallEffect, right: CallEffect)
    ensures Independent(left, right) <==> !MustPrecede(left, right)
  {
    forall a, b | a in left.resources && b in right.resources
      ensures ClaimsConflict(a, b) <==> (a.access == Write || b.access == Write) && Share(a, b)
    {
      ClaimsConflictExactly(a, b);
    }
  }

  /** Calls that are ready together do not conflict. */
  lemma ReadyTogether(effects: seq<CallEffect>, deps: seq<set<nat>>, pending: set<nat>, completed: set<nat>, i: nat, j: nat)
    requires AreDependencies(effects, deps) && Partition(|effects|, pending, completed)
    requires i in Ready(deps, pending, completed) && j in Ready(deps, pending, completed) && i != j
    ensures i < |effects| && j < |effects| && !MustPrecede(effects[i], effects[j])
  {
    MustPrecedeSymmetric(effects[i], effects[j]);
    var (early, late) := if i < j then (i, j) else (j, i);
    assert early !in deps[late];
  }
}
