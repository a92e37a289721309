/** The elements of a finite set of integers in ascending order. */
module SortedKeys {
  lemma AnyOf<T>(s: set<T>) returns (one: T)
    requires s != {}
    ensures one in s
  {
    one :| one in s;
  }

  lemma {:induction false} LeastExists(keys: set<int>)
    requires keys != {}
    ensures exists k :: IsLeast(keys, k)
    decreases |keys|
  {
    var one := AnyOf(keys);
    if keys == {one} {
      assert IsLeast(keys, one);
    } else {
      LeastExists(keys - {one});
      var other :| IsLeast(keys - {one}, other);
      assert forall k :: k in keys ==> k == one || k in keys - {one};
      assert IsLeast(keys, if other < one then other else one);
    }
  }

  predicate IsLeast(keys: set<int>, k: int) {
    k in keys && forall j :: j in keys ==> k <= j
  }

  function LeastKey(keys: set<int>): (k: int)
    requires keys != {}
    ensures IsLeast(keys, k)
  {
    LeastExists(keys);
    var k :| IsLeast(keys, k);
    k
  }

  function Ascending(keys: set<int>): seq<int>
    decreases |keys|
  {
    if keys == {} then [] else [LeastKey(keys)] + Ascending(keys - {LeastKey(keys)})
  }

  /** Every key once, in strictly ascending order. */
  lemma {:induction false} AscendingExactly(keys: set<int>)
    ensures forall i :: i in Ascending(keys) <==> i in keys
    ensures forall k, l :: 0 <= k < l < |Ascending(keys)| ==> Ascending(keys)[k] < Ascending(keys)[l]
    decreases |keys|
  {
    if keys != {} {
      var least := LeastKey(keys);
      AscendingExactly(keys - {least});
      var rest := Ascending(keys - {least});
      forall k | 0 <= k < |rest| ensures least < rest[k] {
        assert rest[k] in rest;
      }
    }
  }

  lemma LeastOfPart(keys: set<int>, part: set<int>, k: int)
    requires IsLeast(keys, k) && k in part && part <= keys
    ensures LeastKey(part) == k && Ascending(part) == [k] + Ascending(part - {k})
  {
    assert IsLeast(part, LeastKey(part));
  }

  function UpTo(n: nat): (keys: set<int>)
    ensures forall i :: i in keys <==> 0 <= i < n
    ensures |keys| == n
  {
    if n == 0 then {} else UpTo(n - 1) + {n - 1}
  }

  lemma {:induction false} AscendingSize(keys: set<int>)
    ensures |Ascending(keys)| == |keys|
    decreases |keys|
  {
    if keys != {} {
      AscendingSize(keys - {LeastKey(keys)});
    }
  }

  /** The keys from `from` up to `to`, in order. */
  lemma {:induction false} AscendingRange(keys: set<int>, from: int, to: int)
    requires from <= to && forall i :: i in keys <==> from <= i < to
    ensures |Ascending(keys)| == to - from
    ensures forall k :: 0 <= k < to - from ==> Ascending(keys)[k] == from + k
    decreases |keys|
  {
    if from < to {
      assert from in keys;
      assert LeastKey(keys) == from;
      AscendingRange(keys - {from}, from + 1, to);
    } else {
      assert forall i :: i !in keys;
    }
  }
}
