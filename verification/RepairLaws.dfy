/**
  When the repair after an escaped exception leaves a closed history.  It looks up ids in
  the whole live context, so an id that was already answered in an earlier batch counts as
  answered again.
 */
module RepairLaws {
  import opened Wrappers
  import opened Messages
  import opened PyStrings
  import opened Answering
  import opened ToolBatch

  lemma {:induction false} OrphansSkip(calls: seq<RawCall>, from: nat, to: nat, answered: set<CallId>)
    requires from <= to <= |calls|
    requires forall i :: from <= i < to ==> AnswerId(calls[i], i) in answered
    ensures Orphans(calls, from, answered) == Orphans(calls, to, answered)
    decreases |calls| + to - from
  {
    hide AnswerId;
    if from < to {
      OrphansSkip(calls, from + 1, to, answered);
    }
  }

  lemma {:induction false} OrphansAll(calls: seq<RawCall>, from: nat, answered: set<CallId>)
    requires from <= |calls|
    requires forall i :: from <= i < |calls| ==> AnswerId(calls[i], i) !in answered
    ensures |Orphans(calls, from, answered)| == |calls| - from
    ensures forall k :: 0 <= k < |calls| - from ==> Orphans(calls, from, answered)[k] == from + k
    decreases |calls| - from
  {
    hide AnswerId;
    if from < |calls| {
      OrphansAll(calls, from + 1, answered);
    }
  }

  lemma {:induction false} OrphansUnanswered(calls: seq<RawCall>, from: nat, answered: set<CallId>)
    requires from <= |calls|
    ensures forall k :: 0 <= k < |Orphans(calls, from, answered)| ==>
              var i := Orphans(calls, from, answered)[k];
              i < |calls| && AnswerId(calls[i], i) !in answered
    decreases |calls| - from
  {
    hide AnswerId;
    if from < |calls| {
      OrphansUnanswered(calls, from + 1, answered);
    }
  }

  lemma {:induction false} CoveredIds(results: seq<Message>, ids: set<CallId>)
    requires Covers(results, ids)
    ensures AnsweredIds(results) == ids
    decreases |results|
  {
    if results != [] {
      CoveredIds(results[1..], ids - {results[0].callId});
      assert results == [results[0]] + results[1..];
      AnsweredSplit([results[0]], results[1..]);
      assert results[0] in [results[0]];
    }
  }

  /** None of the calls from `from` on carries an id that was answered before. */
  predicate FreshFrom(calls: seq<RawCall>, from: nat, answered: set<CallId>) {
    forall i :: from <= i < |calls| ==> AnswerId(calls[i], i) !in answered
  }

  lemma AnsweredSplit(a: seq<Message>, b: seq<Message>)
    ensures AnsweredIds(a + b) == AnsweredIds(a) + AnsweredIds(b)
  {
    forall id ensures id in AnsweredIds(a + b) <==> id in AnsweredIds(a) || id in AnsweredIds(b) {
      if id in AnsweredIds(a) {
        var m :| m in a && m.Tool? && m.callId == id;
        assert m in a + b;
      }
      if id in AnsweredIds(b) {
        var m :| m in b && m.Tool? && m.callId == id;
        assert m in a + b;
      }
    }
  }

  lemma ResultIds(calls: seq<RawCall>, results: seq<Message>)
    requires AnswersFrom(calls, 0, results)
    ensures AnsweredIds(results) == set i | 0 <= i < |results| :: AnswerId(calls[i], i)
  {
    hide AnswerId;
    forall i | 0 <= i < |results| ensures AnswerId(calls[i], i) in AnsweredIds(results) {
      assert results[i] in results;
    }
  }

  /** With fresh ids the repair answers precisely the unanswered calls, in index order. */
  lemma RepairAnswersRest(calls: seq<RawCall>, results: seq<Message>, answered: set<CallId>, known: map<CallId, ToolResult>, repaired: seq<Message>)
    requires DistinctAnswers(calls) && AnswersFrom(calls, 0, results)
    requires FreshFrom(calls, |results|, answered)
    requires IsRepair(calls, Orphans(calls, 0, answered + AnsweredIds(results)), known, repaired)
    ensures Answers(calls, results + repaired)
  {
    hide AnswerId;
    var all := answered + AnsweredIds(results);
    var k := |results|;
    ResultIds(calls, results);
    OrphansSkip(calls, 0, k, all);
    OrphansAll(calls, k, all);
    var orphans := Orphans(calls, 0, all);
    var full := results + repaired;
    forall i | 0 <= i < |full| ensures full[i].Tool? && full[i].callId == AnswerId(calls[i], i) {
      if i >= k {
        assert full[i] == repaired[i - k] && orphans[i - k] == i;
      }
    }
  }

  /** After an exception the history is closed exactly when the repair got to its end and
      no unanswered call reuses an id that the context had already answered. */
  lemma RepairClosesExactly(history: seq<Message>, content: string, calls: seq<RawCall>, results: seq<Message>,
                            known: map<CallId, ToolResult>, repaired: seq<Message>, all: bool)
    requires Closed(history) && Addressable(calls) && AnswersFrom(calls, 0, results)
    requires RepairPart(calls, history + [Assistant(content, calls)] + results, known, repaired, all)
    ensures Closed(history + [Assistant(content, calls)] + results + repaired)
       <==> all && FreshFrom(calls, |results|, AnsweredIds(history))
  {
    hide AnswerId, Orphans, IsRepair;
    var asked := history + [Assistant(content, calls)];
    AnsweredSplit(asked, results);
    AnsweredSplit(history, [Assistant(content, calls)]);
    var answered := AnsweredIds(history);
    assert AnsweredIds(asked) == answered;
    var orphans := Orphans(calls, 0, answered + AnsweredIds(results));
    var full := results + repaired;
    assert asked + results + repaired == asked + full;
    OnlyTools(calls, results, orphans[..|repaired|], known, repaired);
    if all {
      assert orphans[..|repaired|] == orphans;
      WholeRepair(history, content, calls, results, known, repaired);
    } else if Closed(asked + full) {
      ClosedMeansAnswered(history, content, calls, full);
      SomeUnanswered(calls, results, answered, known, repaired);
    }
  }

  lemma OnlyTools(calls: seq<RawCall>, results: seq<Message>, orphans: seq<nat>, known: map<CallId, ToolResult>, repaired: seq<Message>)
    requires AnswersFrom(calls, 0, results) && IsRepair(calls, orphans, known, repaired)
    ensures forall k :: 0 <= k < |results + repaired| ==> (results + repaired)[k].Tool?
  {
    hide AnswerId;
  }

  lemma WholeRepair(history: seq<Message>, content: string, calls: seq<RawCall>, results: seq<Message>, known: map<CallId, ToolResult>, repaired: seq<Message>)
    requires Closed(history) && Addressable(calls) && AnswersFrom(calls, 0, results)
    requires IsRepair(calls, Orphans(calls, 0, AnsweredIds(history) + AnsweredIds(results)), known, repaired)
    ensures Closed(history + [Assistant(content, calls)] + (results + repaired))
       <==> FreshFrom(calls, |results|, AnsweredIds(history))
  {
    hide AnswerId, Orphans;
    var (answered, full) := (AnsweredIds(history), results + repaired);
    OnlyTools(calls, results, Orphans(calls, 0, answered + AnsweredIds(results)), known, repaired);
    if FreshFrom(calls, |results|, answered) {
      RepairAnswersRest(calls, results, answered, known, repaired);
      AnswersClose(history, content, calls, full);
    }
    if Closed(history + [Assistant(content, calls)] + full) {
      ClosedMeansAnswered(history, content, calls, full);
      assert AnswerIds(calls) == RawIds(calls);
      forall i | |results| <= i < |calls| ensures AnswerId(calls[i], i) !in answered {
        OnlyFreshAnswered(calls, results, answered, known, repaired, i);
      }
    }
  }

  lemma {:induction false} OrphansIncrease(calls: seq<RawCall>, from: nat, answered: set<CallId>)
    requires from <= |calls|
    ensures AscendsFrom(Orphans(calls, from, answered), from)
    decreases |calls| - from
  {
    hide AnswerId;
    if from < |calls| {
      OrphansIncrease(calls, from + 1, answered);
      AscendsMore(Orphans(calls, from + 1, answered), from);
    }
  }

  predicate AscendsFrom(s: seq<nat>, from: nat) {
    && (forall k :: 0 <= k < |s| ==> from <= s[k])
    && (forall k, l :: 0 <= k < l < |s| ==> s[k] < s[l])
  }

  lemma AscendsMore(s: seq<nat>, from: nat)
    requires AscendsFrom(s, from + 1)
    ensures AscendsFrom([from] + s, from) && AscendsFrom([] + s, from)
  {
    var t := [from] + s;
    assert forall k :: 0 <= k < |t| ==> t[k] == if k == 0 then from else s[k - 1];
    assert [] + s == s;
  }

  /** A repair that stopped early leaves the next orphan's id unanswered. */
  lemma SomeUnanswered(calls: seq<RawCall>, results: seq<Message>, answered: set<CallId>, known: map<CallId, ToolResult>, repaired: seq<Message>)
    requires Addressable(calls) && AnswersFrom(calls, 0, results)
    requires var orphans := Orphans(calls, 0, answered + AnsweredIds(results));
             |repaired| < |orphans| && IsRepair(calls, orphans[..|repaired|], known, repaired)
    ensures AnsweredIds(results + repaired) != RawIds(calls)
  {
    hide AnswerId, Orphans;
    var m, orphans := |repaired|, Orphans(calls, 0, answered + AnsweredIds(results));
    OrphansIncrease(calls, 0, answered + AnsweredIds(results));
    OrphansUnanswered(calls, 0, answered + AnsweredIds(results));
    var i := orphans[m];
    var id := AnswerId(calls[i], i);
    assert id in AnswerIds(calls) && AnswerIds(calls) == RawIds(calls);
    AnsweredSplit(results, repaired);
    forall k | 0 <= k < m ensures repaired[k].Tool? && repaired[k].callId != id {
      assert orphans[..m][k] == orphans[k] < i;
      assert AnswerId(calls[orphans[k]], orphans[k]) != id;
    }
  }

  lemma ClosedMeansAnswered(history: seq<Message>, content: string, calls: seq<RawCall>, full: seq<Message>)
    requires Closed(history) && Closed(history + [Assistant(content, calls)] + full)
    requires forall k :: 0 <= k < |full| ==> full[k].Tool?
    ensures AnsweredIds(full) == RawIds(calls)
  {
    var batch := [Assistant(content, calls)] + full;
    assert history + [Assistant(content, calls)] + full == history + batch;
    ClosedJoin(history, batch);
    assert batch[1..] == full && {} + RawIds(calls) == RawIds(calls);
    ToolsDrain(full, RawIds(calls));
    CoveredIds(full, RawIds(calls));
  }

  /** The answers carry the ids of recorded results and ids that were fresh. */
  lemma OnlyFreshAnswered(calls: seq<RawCall>, results: seq<Message>, answered: set<CallId>, known: map<CallId, ToolResult>, repaired: seq<Message>, i: nat)
    requires DistinctAnswers(calls) && AnswersFrom(calls, 0, results)
    requires IsRepair(calls, Orphans(calls, 0, answered + AnsweredIds(results)), known, repaired)
    requires |results| <= i < |calls| && AnswerId(calls[i], i) in AnsweredIds(results + repaired)
    ensures AnswerId(calls[i], i) !in answered
  {
    hide AnswerId, Orphans;
    OrphansUnanswered(calls, 0, answered + AnsweredIds(results));
    ResultIds(calls, results);
    AnsweredSplit(results, repaired);
    assert AnswerId(calls[i], i) !in AnsweredIds(results);
    var m :| m in repaired && m.Tool? && m.callId == AnswerId(calls[i], i);
    var k :| 0 <= k < |repaired| && repaired[k] == m;
  }

  /** A provider that omits ids makes every first call "call_0".  When the second such call
      is cancelled before its result, the repair finds nothing to answer. */
  lemma ReusedIdStaysOpen(known: map<CallId, ToolResult>, ok: ToolResult)
    ensures
      var call := RawCall(Some("call_0"), "read_file");
      var history := [User("go"), Assistant("", [call]), Tool("call_0", ok)];
      && Closed(history) && Addressable([call])
      && Orphans([call], 0, AnsweredIds(history + [Assistant("", [call])])) == []
      && !Closed(history + [Assistant("", [call])])
  {
    var call := RawCall(Some("call_0"), "read_file");
    var history := [User("go"), Assistant("", [call]), Tool("call_0", ok)];
    assert ProperIds([call]) by {
      assert StripLeft("call_0") == "call_0" && StripRight("call_0") == "call_0";
    }
    ProperIdsAreAddressable([call]);
    assert AnswerId(call, 0) == "call_0";
    PlainCloses([User("go")]);
    AnswersClose([User("go")], "", [call], [Tool("call_0", ok)]);
    assert history == [User("go")] + [Assistant("", [call])] + [Tool("call_0", ok)];
    var asked := history + [Assistant("", [call])];
    assert asked[2] == Tool("call_0", ok) && asked[2] in asked;
    ScanSplit(history, [Assistant("", [call])], {});
    assert RawId(call) in RawIds([call]) by {
      assert [call][0] == call;
    }
  }
}
