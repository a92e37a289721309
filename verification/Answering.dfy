/**
  What a closed history looks like, and which answers close one.  `Balanced` describes
  closed histories by shape; `Ordered` is the stricter shape the runtime produces: each
  assistant message is followed at once by one result per call, in the model's order.
 */
module Answering {
  import opened Wrappers
  import opened Messages

  // ---------------------------------------------------------------------------------
  // Closed histories by shape
  // ---------------------------------------------------------------------------------

  /** Tool messages that answer every id of `ids` exactly once, in any order. */
  predicate Covers(results: seq<Message>, ids: set<CallId>)
    decreases |results|
  {
    if results == [] then ids == {}
    else
      results[0].Tool? && results[0].callId in ids && Covers(results[1..], ids - {results[0].callId})
  }

  /** Every assistant message is followed at once by exactly one answer per call id. */
  predicate Balanced(history: seq<Message>)
    decreases |history|
  {
    history == [] ||
    match history[0]
    case Tool(_, _) => false
    case Assistant(_, calls) =>
      var n := |RawIds(calls)|;
      n < |history| && Covers(history[1..n + 1], RawIds(calls)) && Balanced(history[n + 1..])
    case _ => Balanced(history[1..])
  }

  lemma {:induction false} CoverSize(results: seq<Message>, ids: set<CallId>)
    requires Covers(results, ids)
    ensures |results| == |ids|
    decreases |results|
  {
    if results != [] {
      CoverSize(results[1..], ids - {results[0].callId});
    }
  }

  /** A scan that has ids open succeeds exactly when the next messages answer each once. */
  lemma {:induction false} DrainExactly(history: seq<Message>, ids: set<CallId>)
    ensures Scan(history, ids) == Some({})
       <==> |ids| <= |history| && Covers(history[..|ids|], ids) && Closed(history[|ids|..])
    decreases |ids|
  {
    if ids == {} {
      assert history[..0] == [] && history[0..] == history;
    } else if history != [] && history[0].Tool? && history[0].callId in ids {
      var left := ids - {history[0].callId};
      DrainExactly(history[1..], left);
      if |ids| <= |history| {
        assert history[1..][|left|..] == history[|ids|..];
        assert history[..|ids|][1..] == history[1..][..|left|];
      }
    } else if history != [] && |ids| <= |history| {
      assert history[..|ids|][0] == history[0];
    }
  }

  /** The one-pass check accepts exactly the histories of this shape. */
  lemma {:induction false} ClosedIsBalanced(history: seq<Message>)
    ensures Closed(history) <==> Balanced(history)
    decreases |history|
  {
    if history != [] {
      var rest := history[1..];
      match history[0]
      case Tool(_, _) =>
      case Assistant(_, calls) =>
        var n := |RawIds(calls)|;
        assert {} + RawIds(calls) == RawIds(calls);
        DrainExactly(rest, RawIds(calls));
        if n <= |rest| {
          assert history[1..n + 1] == rest[..n] && history[n + 1..] == rest[n..];
          ClosedIsBalanced(rest[n..]);
        }
      case _ => ClosedIsBalanced(rest);
    }
  }

  /** Cutting a closed history before a closed rest leaves a closed front. */
  lemma ClosedFront(front: seq<Message>, back: seq<Message>)
    requires Closed(front + back) && Closed(back)
    ensures Closed(front)
  {
    ScanSplit(front, back, {});
  }

  lemma ClosedJoin(front: seq<Message>, back: seq<Message>)
    requires Closed(front)
    ensures Closed(front + back) <==> Closed(back)
  {
    ScanSplit(front, back, {});
  }

  lemma {:induction false} PlainCloses(messages: seq<Message>)
    requires AllPlain(messages)
    ensures Closed(messages)
    decreases |messages|
  {
    if messages != [] {
      assert RawIds([]) == {};
      PlainCloses(messages[1..]);
    }
  }

  // ---------------------------------------------------------------------------------
  // Answers in the model's order
  // ---------------------------------------------------------------------------------

  /** `results` answers the calls from `start` on, one result each, in index order. */
  predicate AnswersFrom(calls: seq<RawCall>, start: nat, results: seq<Message>) {
    && start + |results| <= |calls|
    && forall i :: 0 <= i < |results| ==>
         results[i].Tool? && results[i].callId == AnswerId(calls[start + i], start + i)
  }

  predicate Answers(calls: seq<RawCall>, results: seq<Message>) {
    |results| == |calls| && AnswersFrom(calls, 0, results)
  }

  /** Each assistant message is followed at once by one result per call, in index order,
      and no result stands anywhere else. */
  predicate Ordered(history: seq<Message>)
    decreases |history|
  {
    history == [] ||
    match history[0]
    case Tool(_, _) => false
    case Assistant(_, calls) =>
      |calls| < |history| && Answers(calls, history[1..|calls| + 1]) && Ordered(history[|calls| + 1..])
    case _ => Ordered(history[1..])
  }

  /** The number of messages in the first block. */
  function FirstBlock(history: seq<Message>): (n: nat)
    requires history != [] && Ordered(history)
    ensures 1 <= n <= |history| && Ordered(history[n..])
  {
    if history[0].Assistant? then 1 + |history[0].calls| else 1
  }

  lemma {:induction false} OrderedJoin(a: seq<Message>, b: seq<Message>)
    requires Ordered(a) && Ordered(b)
    ensures Ordered(a + b)
    decreases |a|
  {
    if a == [] {
      assert a + b == b;
    } else {
      var n := FirstBlock(a);
      OrderedJoin(a[n..], b);
      BlockInFront(a, n, b);
      OrderedFromBlock(a + b, n);
    }
  }

  lemma BlockInFront(a: seq<Message>, n: nat, b: seq<Message>)
    requires 1 <= n <= |a|
    ensures (a + b)[n..] == a[n..] + b && (a + b)[1..n] == a[1..n] && (a + b)[0] == a[0]
  {
  }

  lemma OrderedFromBlock(history: seq<Message>, n: nat)
    requires 1 <= n <= |history| && Ordered(history[n..]) && !history[0].Tool?
    requires n == if history[0].Assistant? then 1 + |history[0].calls| else 1
    requires history[0].Assistant? ==> Answers(history[0].calls, history[1..n])
    ensures Ordered(history)
  {
  }

  lemma {:induction false} PlainIsOrdered(messages: seq<Message>)
    requires AllPlain(messages)
    ensures Ordered(messages)
    decreases |messages|
  {
    if messages != [] {
      PlainIsOrdered(messages[1..]);
    }
  }

  lemma AnsweredBatchIsOrdered(content: string, calls: seq<RawCall>, results: seq<Message>)
    requires Answers(calls, results)
    ensures Ordered([Assistant(content, calls)] + results)
  {
    var batch := [Assistant(content, calls)] + results;
    assert batch[1..|calls| + 1] == results;
    assert batch[|calls| + 1..] == [];
  }

  /** In-order answers close the history exactly when the ids can be matched. */
  lemma AnswersClose(history: seq<Message>, content: string, calls: seq<RawCall>, results: seq<Message>)
    requires Closed(history) && Answers(calls, results)
    ensures Closed(history + [Assistant(content, calls)] + results) <==> Addressable(calls)
  {
    var batch := [Assistant(content, calls)] + results;
    assert history + [Assistant(content, calls)] + results == history + batch;
    ClosedJoin(history, batch);
    assert batch[1..] == results;
    assert {} + RawIds(calls) == RawIds(calls);
    ToolsDrain(results, RawIds(calls));
    AnswersCover(calls, 0, results, RawIds(calls));
  }

  lemma ToolsDrain(results: seq<Message>, ids: set<CallId>)
    requires forall i :: 0 <= i < |results| ==> results[i].Tool?
    ensures Scan(results, ids) == Some({}) <==> Covers(results, ids)
  {
    DrainExactly(results, ids);
    var n := |ids|;
    if n < |results| {
      assert results[n..][0].Tool?;
    } else if n == |results| {
      assert results[..n] == results && results[n..] == [];
    }
    if Covers(results, ids) {
      CoverSize(results, ids);
    }
  }

  /** The answer ids of the calls from `start` on. */
  function IdsFrom(calls: seq<RawCall>, start: nat): set<CallId> {
    set i | start <= i < |calls| :: AnswerId(calls[i], i)
  }

  predicate DistinctFrom(calls: seq<RawCall>, start: nat) {
    forall i, j :: start <= i < j < |calls| ==> AnswerId(calls[i], i) != AnswerId(calls[j], j)
  }

  lemma {:induction false} AnswersCover(calls: seq<RawCall>, start: nat, results: seq<Message>, ids: set<CallId>)
    requires start + |results| == |calls| && AnswersFrom(calls, start, results)
    ensures Covers(results, ids) <==> DistinctFrom(calls, start) && IdsFrom(calls, start) == ids
    decreases |results|
  {
    if results != [] {
      var id := AnswerId(calls[start], start);
      assert results[0].callId == id;
      var rest := results[1..];
      forall i | 0 <= i < |rest|
        ensures rest[i].Tool? && rest[i].callId == AnswerId(calls[start + 1 + i], start + 1 + i)
      {
        assert rest[i] == results[i + 1];
      }
      AnswersCover(calls, start + 1, rest, ids - {id});
      IdsFromNext(calls, start);
    }
  }

  lemma IdsFromNext(calls: seq<RawCall>, start: nat)
    requires start < |calls|
    ensures IdsFrom(calls, start) == {AnswerId(calls[start], start)} + IdsFrom(calls, start + 1)
    ensures DistinctFrom(calls, start)
       <==> DistinctFrom(calls, start + 1) && AnswerId(calls[start], start) !in IdsFrom(calls, start + 1)
  {
  }
}
