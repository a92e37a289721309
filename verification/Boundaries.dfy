/**
  What holds between the rounds of a conversation, and what links one round to the next: the
  tool protocol at every boundary, epochs that only renew or shorten the live context, and a
  log of requests tied to everything ever appended. `Conversation` keeps all of it.
 */
module Boundaries {
  import opened Wrappers
  import opened Messages
  import opened Answering
  import opened Identities
  import opened History
  import opened ToolBatch
  import opened RepairLaws
  import opened Compaction

  datatype FinishReason = Stop | Length | OtherReason

  datatype Reply = Reply(content: string, calls: seq<RawCall>, finish: FinishReason)

  function Asked(reply: Reply): Message {
    Assistant(reply.content, reply.calls)
  }

  // ---------------------------------------------------------------------------------
  // The protocol between rounds
  // ---------------------------------------------------------------------------------

  /** Between rounds: every call of the live context is answered, and in everything ever
      appended each batch is answered at once, in order, exactly once. */
  ghost predicate AtBoundary(messages: seq<Message>, raw: seq<Message>) {
    Closed(messages) && messages != [] && Plain(messages[0]) && Ordered(raw)
  }

  lemma BoundaryPlain(messages: seq<Message>, raw: seq<Message>, notes: seq<Message>)
    requires AtBoundary(messages, raw) && AllPlain(notes)
    ensures AtBoundary(messages + notes, raw + notes)
  {
    PlainCloses(notes);
    ClosedJoin(messages, notes);
    PlainIsOrdered(notes);
    OrderedJoin(raw, notes);
  }

  lemma BoundaryBatch(messages: seq<Message>, raw: seq<Message>, reply: Reply, results: seq<Message>)
    requires AtBoundary(messages, raw) && Addressable(reply.calls) && Answers(reply.calls, results)
    ensures AtBoundary(messages + [Asked(reply)] + results, raw + [Asked(reply)] + results)
  {
    hide Closed, Ordered, AnswerId, Addressable, Answers;
    AnswersClose(messages, reply.content, reply.calls, results);
    AnsweredBatchIsOrdered(reply.content, reply.calls, results);
    OrderedJoin(raw, [Asked(reply)] + results);
    assert raw + [Asked(reply)] + results == raw + ([Asked(reply)] + results);
  }

  /** A complete repair of calls with fresh ids restores the boundary. */
  lemma BoundaryRepaired(messages: seq<Message>, raw: seq<Message>, reply: Reply, results: seq<Message>,
                         known: map<CallId, ToolResult>, repaired: seq<Message>)
    requires AtBoundary(messages, raw) && Addressable(reply.calls) && AnswersFrom(reply.calls, 0, results)
    requires FreshFrom(reply.calls, |results|, AnsweredIds(messages))
    requires RepairPart(reply.calls, messages + [Asked(reply)] + results, known, repaired, true)
    ensures AtBoundary(messages + [Asked(reply)] + results + repaired, raw + [Asked(reply)] + results + repaired)
  {
    hide *;
    AskedAnswers(messages, reply, results);
    AddressableParts(reply.calls);
    WholeRepairPart(reply.calls, messages + [Asked(reply)] + results, known, repaired);
    RepairAnswersRest(reply.calls, results, AnsweredIds(messages), known, repaired);
    BoundaryBatch(messages, raw, reply, results + repaired);
    assert messages + [Asked(reply)] + results + repaired == messages + [Asked(reply)] + (results + repaired);
    assert raw + [Asked(reply)] + results + repaired == raw + [Asked(reply)] + (results + repaired);
  }

  lemma WholeRepairPart(calls: seq<RawCall>, messages: seq<Message>, known: map<CallId, ToolResult>, repaired: seq<Message>)
    requires RepairPart(calls, messages, known, repaired, true)
    ensures IsRepair(calls, Orphans(calls, 0, AnsweredIds(messages)), known, repaired)
  {
    hide IsRepair, Orphans, AnsweredIds;
    var orphans := Orphans(calls, 0, AnsweredIds(messages));
    assert orphans[..|repaired|] == orphans;
  }

  lemma AskedAnswers(messages: seq<Message>, reply: Reply, results: seq<Message>)
    ensures AnsweredIds(messages + [Asked(reply)] + results) == AnsweredIds(messages) + AnsweredIds(results)
  {
    AnsweredSplit(messages + [Asked(reply)], results);
    AnsweredSplit(messages, [Asked(reply)]);
    assert AnsweredIds([Asked(reply)]) == {};
  }

  lemma AddressableParts(calls: seq<RawCall>)
    requires Addressable(calls)
    ensures DistinctAnswers(calls)
  {
  }

  /** Answers to the first calls only close the history when they are all of them. */
  lemma PartlyAnswered(messages: seq<Message>, reply: Reply, results: seq<Message>)
    requires Closed(messages) && Addressable(reply.calls) && AnswersFrom(reply.calls, 0, results)
    ensures Closed(messages + [Asked(reply)] + results) <==> |results| == |reply.calls|
  {
    hide AnswerId, Closed;
    var (calls, asked) := (reply.calls, messages + [Asked(reply)]);
    if |results| == |calls| {
      AnswersClose(messages, reply.content, calls, results);
    } else if Closed(asked + results) {
      ClosedMeansAnswered(messages, reply.content, calls, results);
      SomeOpen(calls, results);
    }
  }

  lemma SomeOpen(calls: seq<RawCall>, results: seq<Message>)
    requires Addressable(calls) && AnswersFrom(calls, 0, results) && |results| < |calls|
    ensures AnsweredIds(results) != RawIds(calls)
  {
    hide AnswerId;
    ResultIds(calls, results);
    var id := AnswerId(calls[|results|], |results|);
    assert id in AnswerIds(calls) && AnswerIds(calls) == RawIds(calls);
    assert id !in AnsweredIds(results);
  }

  /** A system message at the head is not taken for dynamic context. */
  predicate HeadStays(messages: seq<Message>) {
    messages != [] && (messages[0].System? ==> !IsDynamic(messages[0]))
  }

  lemma HeadStaysMore(messages: seq<Message>, more: seq<Message>)
    requires HeadStays(messages)
    ensures HeadStays(messages + more)
  {
  }

  /** How a batch leaves the conversation. */
  datatype BatchEnd = AllAnswered | BatchRaised(repaired: bool) | BlockingRaised

  /** The exact condition for every call to be answered after a batch that recorded
      `recorded` results. */
  predicate Settles(messages: seq<Message>, reply: Reply, end: BatchEnd, recorded: nat) {
    match end
    case AllAnswered => true
    case BatchRaised(repaired) => repaired && FreshFrom(reply.calls, recorded, AnsweredIds(messages))
    case BlockingRaised => recorded == |reply.calls|
  }

  /** After the batch the boundary holds again or some call is open, as `Settles` says. */
  ghost predicate BatchLeft(messages: seq<Message>, reply: Reply, end: BatchEnd, recorded: nat,
                            messages': seq<Message>, raw': seq<Message>)
  {
    && (Closed(messages') <==> Settles(messages, reply, end, recorded))
    && (Closed(messages') ==> AtBoundary(messages', raw') && HeadStays(messages'))
  }

  lemma LeftAnswered(messages: seq<Message>, raw: seq<Message>, reply: Reply, results: seq<Message>, notes: seq<Message>)
    requires AtBoundary(messages, raw) && HeadStays(messages)
    requires Addressable(reply.calls) && Answers(reply.calls, results) && AllUser(notes)
    ensures var (messages', raw') := (messages + [Asked(reply)] + results + notes, raw + [Asked(reply)] + results + notes);
            BatchLeft(messages, reply, AllAnswered, |results|, messages', raw')
  {
    hide AtBoundary, Addressable, Answers, AnswerId;
    BoundaryBatch(messages, raw, reply, results);
    BoundaryPlain(messages + [Asked(reply)] + results, raw + [Asked(reply)] + results, notes);
    BoundaryCloses(messages + [Asked(reply)] + results + notes, raw + [Asked(reply)] + results + notes);
    HeadStaysMore(messages, [Asked(reply)]);
    HeadStaysMore(messages + [Asked(reply)], results);
    HeadStaysMore(messages + [Asked(reply)] + results, notes);
    hide HeadStays, Closed;
  }

  lemma BoundaryCloses(messages: seq<Message>, raw: seq<Message>)
    requires AtBoundary(messages, raw)
    ensures Closed(messages) && messages != [] && Plain(messages[0])
  {
  }

  lemma LeftRaised(messages: seq<Message>, raw: seq<Message>, reply: Reply, results: seq<Message>,
                   known: map<CallId, ToolResult>, repaired: seq<Message>, all: bool)
    requires AtBoundary(messages, raw) && HeadStays(messages)
    requires Addressable(reply.calls) && AnswersFrom(reply.calls, 0, results)
    requires RepairPart(reply.calls, messages + [Asked(reply)] + results, known, repaired, all)
    ensures var (messages', raw') := (messages + [Asked(reply)] + results + repaired, raw + [Asked(reply)] + results + repaired);
            BatchLeft(messages, reply, BatchRaised(all), |results|, messages', raw')
  {
    hide AtBoundary, Addressable, RepairPart, AnswersFrom, Closed, HeadStays, FreshFrom, AnsweredIds;
    BoundaryCloses(messages, raw);
    RepairClosesExactly(messages, reply.content, reply.calls, results, known, repaired, all);
    if all && FreshFrom(reply.calls, |results|, AnsweredIds(messages)) {
      BoundaryRepaired(messages, raw, reply, results, known, repaired);
    }
    HeadStaysMore(messages, [Asked(reply)]);
    HeadStaysMore(messages + [Asked(reply)], results);
    HeadStaysMore(messages + [Asked(reply)] + results, repaired);
  }

  /** An exception behind the last answer leaves nothing open. */
  lemma LeftNotes(messages: seq<Message>, raw: seq<Message>, reply: Reply, results: seq<Message>, notes: seq<Message>)
    requires AtBoundary(messages, raw) && HeadStays(messages)
    requires Addressable(reply.calls) && Answers(reply.calls, results) && AllUser(notes)
    ensures var (messages', raw') := (messages + [Asked(reply)] + results + notes, raw + [Asked(reply)] + results + notes);
            BatchLeft(messages, reply, BatchRaised(true), |results|, messages', raw')
  {
    LeftAnswered(messages, raw, reply, results, notes);
    hide AtBoundary, HeadStays, Closed, Addressable, AnswerId;
  }

  lemma LeftBlocked(messages: seq<Message>, raw: seq<Message>, reply: Reply, results: seq<Message>)
    requires AtBoundary(messages, raw) && HeadStays(messages)
    requires Addressable(reply.calls) && AnswersFrom(reply.calls, 0, results)
    ensures var (messages', raw') := (messages + [Asked(reply)] + results, raw + [Asked(reply)] + results);
            && BatchLeft(messages, reply, BlockingRaised, |results|, messages', raw')
            && (|results| == |reply.calls| ==> BatchLeft(messages, reply, AllAnswered, |results|, messages', raw'))
  {
    hide AtBoundary, Addressable, AnswersFrom, Closed, HeadStays;
    BoundaryCloses(messages, raw);
    PartlyAnswered(messages, reply, results);
    if |results| == |reply.calls| {
      assert Answers(reply.calls, results);
      BoundaryBatch(messages, raw, reply, results);
    }
    HeadStaysMore(messages, [Asked(reply)]);
    HeadStaysMore(messages + [Asked(reply)], results);
  }

  // ---------------------------------------------------------------------------------
  // The context after compaction
  // ---------------------------------------------------------------------------------

  /** The oracles of a run: the token counter, the summarising model, what the middlewares
      put back after compaction, and the minimum region worth compacting. */
  datatype Oracles = Oracles(
    cost: Cost,
    summarize: Summarize,
    inject: seq<Message> -> Option<seq<Message>>,
    economical: seq<Message> -> bool)

  /** Middlewares inject messages, not tool calls or results. */
  ghost predicate PlainInjections(oracles: Oracles) {
    forall messages :: oracles.inject(messages).Some? ==> AllPlain(oracles.inject(messages).value)
  }

  /** `_refreshed_context`: dynamic context out, the prompt renewed, injections after the head. */
  function RefreshedContext(messages: seq<Message>, prompt: string, oracles: Oracles): Option<seq<Message>> {
    var kept := WithPrompt(Kept(messages, (m: Message) => !IsDynamic(m)), prompt);
    match oracles.inject(kept)
    case None => None
    case Some(injected) =>
      if kept == [] then Some(injected) else Some(kept[..1] + injected + kept[1..])
  }

  function Refresher(prompt: string, oracles: Oracles): Refresh {
    (messages: seq<Message>) => RefreshedContext(messages, prompt, oracles)
  }

  /** The refreshed context keeps a plain head. */
  lemma RefreshedHead(messages: seq<Message>, prompt: string, oracles: Oracles, head: Message)
    requires messages != [] && messages[0] == head && Plain(head) && !IsDynamic(head)
    requires RefreshedContext(messages, prompt, oracles).Some?
    ensures var anew := RefreshedContext(messages, prompt, oracles).value;
            anew != [] && Plain(anew[0]) && WithPrompt(anew, prompt) == anew
  {
    hide IsDynamic;
    var keep := (m: Message) => !IsDynamic(m);
    var filtered := Kept(messages, keep);
    assert filtered[0] == head;
    var kept := WithPrompt(filtered, prompt);
    var injected := oracles.inject(kept).value;
    var anew := kept[..1] + injected + kept[1..];
    assert anew[0] == kept[0];
  }

  /** The compaction candidate starts with the system message or the summary. */
  lemma CandidateHead(messages: seq<Message>, split: nat, summary: string, facts: string)
    requires SystemLength(messages) <= split <= |messages|
    requires messages != [] && (messages[0].System? ==> !IsDynamic(messages[0]))
    ensures var candidate := Candidate(messages, split, summary, facts);
            candidate != [] && Plain(candidate[0]) && !IsDynamic(candidate[0])
  {
    SummaryIsNotDynamic(summary, facts);
    hide IsDynamic, IsEvent;
    var candidate := Candidate(messages, split, summary, facts);
    assert messages[0].System? ==> candidate[0] == messages[0];
  }

  lemma SummaryIsNotDynamic(summary: string, facts: string)
    ensures !IsDynamic(User(SUMMARY_MARKER + "\n" + summary + "\n\n" + FACTS_MARKER + "\n" + facts))
  {
    var text := SUMMARY_MARKER + "\n" + summary + "\n\n" + FACTS_MARKER + "\n" + facts;
    assert "[COMPACTED CONTEXT" <= SUMMARY_MARKER <= text;
    assert text[1] == "[COMPACTED CONTEXT"[1] == 'C' && DYNAMIC_MARKER[1] == 'H';
  }

  /** An accepted compaction result keeps the boundary. */
  lemma CompactedBoundary(messages: seq<Message>, raw: seq<Message>, oracles: Oracles, prompt: string,
                          turnStart: int, facts: string, result: CompactionResult)
    requires AtBoundary(messages, raw) && HeadStays(messages)
    requires PlainInjections(oracles) && !IsDynamic(System(prompt)) && Closed(result.messages)
    requires Compacts(messages, oracles.cost, oracles.summarize, Refresher(prompt, oracles), turnStart, facts, result)
    ensures AtBoundary(result.messages, raw) && HeadStays(result.messages)
    ensures WithPrompt(result.messages, prompt) == result.messages
  {
    hide IsDynamic, Candidate;
    CandidateHead(messages, result.firstKept, result.summary, facts);
    var candidate := Candidate(messages, result.firstKept, result.summary, facts);
    assert RefreshedContext(candidate, prompt, oracles) == Some(result.messages);
    RefreshedHead(candidate, prompt, oracles, candidate[0]);
  }

  lemma HeadReplaced(messages: seq<Message>, prompt: string)
    requires messages != []
    ensures Plain(messages[0]) && Closed(messages) ==> Closed([System(prompt)] + messages[1..])
  {
    if Plain(messages[0]) {
      assert messages == [messages[0]] + messages[1..];
      PlainCloses([messages[0]]);
      PlainCloses([System(prompt)]);
      ScanSplit([messages[0]], messages[1..], {});
      ScanSplit([System(prompt)], messages[1..], {});
    }
  }

  // ---------------------------------------------------------------------------------
  // Where the turn starts
  // ---------------------------------------------------------------------------------

  /** The number of the message the turn starts with; 0 stands for none. */
  function Anchor(start: int, sequences: seq<nat>): nat
    requires start >= 0
  {
    if start < |sequences| then sequences[start] else 0
  }

  /** When an epoch retains the turn's first message, the new turn start is that message
      again, duplicates and dropped neighbours notwithstanding. */
  lemma TurnStartStays(epoch: Option<Epoch>, messages: seq<Message>, sequences: seq<nat>, next: nat, journal: Option<Journal>,
                       front: seq<Message>, from: nat, keep: Message -> bool, start: nat, base: seq<Message>, numbers: seq<nat>)
    requires Sound(epoch, messages, sequences, next, journal)
    requires from <= start < |messages| == |sequences| && keep(messages[start]) && sequences[start] != 0
    requires base == front + Kept(messages[from..], keep)
    requires numbers == Assigned(base, SourcesOf(messages, sequences, journal))
    ensures sequences[start] in numbers
    ensures forall at :: 0 <= at < |base| && numbers[at] == sequences[start] ==>
              base[at] == messages[start] && at == |front| + |Kept(messages[from..start], keep)|
  {
    AnchorStays(epoch, messages, sequences, next, journal, front, from, keep, start, base, numbers);
    hide *;
    OnlyNamed(base, numbers, |front| + |Kept(messages[from..start], keep)|, messages[start], sequences[start]);
  }

  lemma OnlyNamed(messages: seq<Message>, numbers: seq<nat>, place: nat, message: Message, number: nat)
    requires Names(messages, numbers, place, message, number)
    ensures number in numbers
    ensures forall at :: 0 <= at < |messages| && numbers[at] == number ==> messages[at] == message && at == place
  {
    assert numbers[place] == number;
  }

  /** A renewed head moves nothing. */
  lemma RenewedStart(epoch: Option<Epoch>, messages: seq<Message>, sequences: seq<nat>, next: nat, journal: Option<Journal>,
                     prompt: string, start: nat, numbers: seq<nat>)
    requires Sound(epoch, messages, sequences, next, journal)
    requires 1 <= start < |messages| == |sequences| && sequences[start] != 0
    requires numbers == Assigned([System(prompt)] + messages[1..], SourcesOf(messages, sequences, journal))
    ensures sequences[start] in numbers
    ensures forall at :: 0 <= at < |messages| && numbers[at] == sequences[start] ==> at == start
  {
    var all := (m: Message) => true;
    KeptAll(messages[1..], all);
    KeptAll(messages[1..start], all);
    hide *;
    TurnStartStays(epoch, messages, sequences, next, journal, [System(prompt)], 1, all, start, [System(prompt)] + messages[1..], numbers);
  }

  lemma {:induction false} KeptAll(messages: seq<Message>, keep: Message -> bool)
    requires forall m :: keep(m)
    ensures Kept(messages, keep) == messages
    decreases |messages|
  {
    if messages != [] {
      KeptAll(messages[1..], keep);
    }
  }

  /** Filtering twice is filtering by both. */
  lemma {:induction false} KeptTwice(messages: seq<Message>, first: Message -> bool, second: Message -> bool, both: Message -> bool)
    requires forall m :: both(m) <==> first(m) && second(m)
    ensures Kept(Kept(messages, first), second) == Kept(messages, both)
    decreases |messages|
  {
    if messages != [] {
      KeptTwice(messages[1..], first, second, both);
      var m, rest := messages[0], Kept(messages[1..], first);
      KeptFirst(m, rest, second);
      assert Kept(messages, first) == if first(m) then [m] + rest else rest;
    }
  }

  lemma KeptFirst(m: Message, rest: seq<Message>, keep: Message -> bool)
    ensures Kept([m] + rest, keep) == if keep(m) then [m] + Kept(rest, keep) else Kept(rest, keep)
  {
    assert ([m] + rest)[1..] == rest;
  }

  lemma {:induction false} KeptSplit(a: seq<Message>, b: seq<Message>, keep: Message -> bool)
    ensures Kept(a + b, keep) == Kept(a, keep) + Kept(b, keep)
    decreases |a|
  {
    if a == [] {
      assert a + b == b;
    } else {
      var m, rest := a[0], a[1..];
      KeptSplit(rest, b, keep);
      assert a == [m] + rest && a + b == [m] + (rest + b);
      hide *;
      KeptFirst(m, rest, keep);
      KeptFirst(m, rest + b, keep);
    }
  }

  predicate Survives(message: Message) {
    !IsEvent(message) && !IsDynamic(message)
  }

  /** The context an accepted compaction ends with: the renewed system message and what is
      injected behind it, the summary, and the messages after the cut that are neither
      runtime events nor dynamic context; without a system message the summary comes first. */
  ghost predicate CompactedInto(messages: seq<Message>, cut: nat, summary: string, facts: string, prompt: string, oracles: Oracles,
                                result: seq<Message>)
  {
    cut <= |messages| &&
    var note := User("[COMPACTED CONTEXT \U{2014} structured working state]\n" + summary + "\n\n[CURRENT RUNTIME FACTS]\n" + facts);
    var rest := Kept(messages[cut..], Survives);
    if messages != [] && messages[0].System? then
      var injected := oracles.inject([System(prompt), note] + rest);
      injected.Some? && result == [System(prompt)] + injected.value + [note] + rest
    else
      var injected := oracles.inject([note] + rest);
      injected.Some? && result == [note] + injected.value + rest
  }

  /** Different summaries give different contexts, as far as the injections are the same. */
  lemma SummaryMatters(messages: seq<Message>, cut: nat, summary: string, other: string, facts: string, prompt: string, oracles: Oracles,
                       result: seq<Message>, result': seq<Message>)
    requires CompactedInto(messages, cut, summary, facts, prompt, oracles, result)
    requires CompactedInto(messages, cut, other, facts, prompt, oracles, result')
    requires forall asked, asked' :: oracles.inject(asked) == oracles.inject(asked')
    ensures result == result' ==> summary == other
  {
    var prefix := "[COMPACTED CONTEXT \U{2014} structured working state]\n";
    var suffix := "\n\n[CURRENT RUNTIME FACTS]\n" + facts;
    var (text, text') := (prefix + summary + suffix, prefix + other + suffix);
    assert prefix + summary + "\n\n[CURRENT RUNTIME FACTS]\n" + facts == text;
    assert prefix + other + "\n\n[CURRENT RUNTIME FACTS]\n" + facts == text';
    if result == result' {
      var injected := oracles.inject([]).value;
      var at := if messages != [] && messages[0].System? then 1 + |injected| else 0;
      assert oracles.inject([]) == Some(injected);
      assert result[at] == User(text) && result'[at] == User(text');
      assert text[|prefix|..|text| - |suffix|] == summary && text'[|prefix|..|text'| - |suffix|] == other;
    }
  }

  /** What an accepted compaction keeps is a filtered suffix behind a new front, and the
      summary stands in that front. */
  lemma CompactedShape(messages: seq<Message>, split: nat, summary: string, facts: string, prompt: string, oracles: Oracles)
    returns (front: seq<Message>)
    requires SystemLength(messages) <= split <= |messages| && HeadStays(messages)
    requires RefreshedContext(Candidate(messages, split, summary, facts), prompt, oracles).Some?
    ensures front != []
    ensures RefreshedContext(Candidate(messages, split, summary, facts), prompt, oracles).value ==
            front + Kept(messages[split..], Survives)
    ensures CompactedInto(messages, split, summary, facts, prompt, oracles,
                          RefreshedContext(Candidate(messages, split, summary, facts), prompt, oracles).value)
  {
    front := FrontAndRest(messages, split, summary, facts, prompt, oracles);
    FrontText(summary, facts);
    hide *;
    Composed(messages, split, summary, facts, prompt, oracles, SUMMARY_MARKER + "\n" + summary + "\n\n" + FACTS_MARKER + "\n" + facts,
             front, RefreshedContext(Candidate(messages, split, summary, facts), prompt, oracles).value);
  }

  /** The front: the renewed head, what is injected, and the summary. */
  ghost predicate IsFront(messages: seq<Message>, text: string, rest: seq<Message>, prompt: string, oracles: Oracles, front: seq<Message>) {
    var renewed := WithPrompt(messages[..SystemLength(messages)] + [User(text)], prompt);
    && oracles.inject(renewed + rest).Some?
    && renewed != [] && front == renewed[..1] + oracles.inject(renewed + rest).value + renewed[1..]
  }

  lemma Composed(messages: seq<Message>, cut: nat, summary: string, facts: string, prompt: string, oracles: Oracles,
                 text: string, front: seq<Message>, result: seq<Message>)
    requires cut <= |messages|
    requires text == "[COMPACTED CONTEXT \U{2014} structured working state]\n" + summary + "\n\n[CURRENT RUNTIME FACTS]\n" + facts
    requires IsFront(messages, text, Kept(messages[cut..], Survives), prompt, oracles, front)
    requires result == front + Kept(messages[cut..], Survives)
    ensures CompactedInto(messages, cut, summary, facts, prompt, oracles, result)
  {
    hide Kept, Survives;
    var (note, rest) := (User(text), Kept(messages[cut..], Survives));
    if messages != [] && messages[0].System? {
      assert messages[..SystemLength(messages)] + [note] == [messages[0], note];
      assert WithPrompt([messages[0], note], prompt) == [System(prompt), note];
      var injected := oracles.inject([System(prompt), note] + rest).value;
      assert [System(prompt), note][..1] == [System(prompt)] && [System(prompt), note][1..] == [note];
      assert result == [System(prompt)] + injected + [note] + rest;
    } else {
      assert messages[..SystemLength(messages)] + [note] == [note];
      var injected := oracles.inject([note] + rest).value;
      assert [note][..1] == [note] && [note][1..] == [];
      assert [note] + injected + [] == [note] + injected;
    }
  }

  lemma FrontAndRest(messages: seq<Message>, split: nat, summary: string, facts: string, prompt: string, oracles: Oracles)
    returns (front: seq<Message>)
    requires SystemLength(messages) <= split <= |messages| && HeadStays(messages)
    requires RefreshedContext(Candidate(messages, split, summary, facts), prompt, oracles).Some?
    ensures front != []
    ensures var rest := Kept(messages[split..], Survives);
            && RefreshedContext(Candidate(messages, split, summary, facts), prompt, oracles).value == front + rest
            && IsFront(messages, SUMMARY_MARKER + "\n" + summary + "\n\n" + FACTS_MARKER + "\n" + facts, rest, prompt, oracles, front)
  {
    var candidate := Candidate(messages, split, summary, facts);
    var head := messages[..SystemLength(messages)];
    var note := [User(SUMMARY_MARKER + "\n" + summary + "\n\n" + FACTS_MARKER + "\n" + facts)];
    SummaryIsNotDynamic(summary, facts);
    var keep := (m: Message) => !IsDynamic(m);
    var noEvent := (m: Message) => !IsEvent(m);
    KeptSplit(head + note, Retained(messages, split), keep);
    KeptFront(head, note[0], keep);
    assert forall m :: Survives(m) <==> noEvent(m) && keep(m);
    KeptTwice(messages[split..], noEvent, keep, Survives);
    hide *;
    front := RefreshedFront(candidate, head + note, Kept(messages[split..], Survives), prompt, oracles);
    FrontMade(messages, note[0].content, Kept(messages[split..], Survives), prompt, oracles, front);
  }

  lemma FrontMade(messages: seq<Message>, text: string, rest: seq<Message>, prompt: string, oracles: Oracles, front: seq<Message>)
    requires var renewed := WithPrompt(messages[..SystemLength(messages)] + [User(text)], prompt);
             && renewed != [] && oracles.inject(renewed + rest).Some?
             && front == renewed[..1] + oracles.inject(renewed + rest).value + renewed[1..]
    ensures IsFront(messages, text, rest, prompt, oracles, front)
  {
  }

  lemma FrontText(summary: string, facts: string)
    ensures SUMMARY_MARKER + "\n" + summary + "\n\n" + FACTS_MARKER + "\n" + facts
         == "[COMPACTED CONTEXT \U{2014} structured working state]\n" + summary + "\n\n[CURRENT RUNTIME FACTS]\n" + facts
  {
    var (a, b) := ("[COMPACTED CONTEXT \U{2014} structured working state]\n", "\n\n[CURRENT RUNTIME FACTS]\n");
    assert SUMMARY_MARKER + "\n" == a && "\n\n" + FACTS_MARKER + "\n" == b;
    assert SUMMARY_MARKER + "\n" + summary + "\n\n" + FACTS_MARKER + "\n" + facts
        == (SUMMARY_MARKER + "\n") + summary + ("\n\n" + FACTS_MARKER + "\n") + facts;
  }

  lemma KeptFront(head: seq<Message>, note: Message, keep: Message -> bool)
    requires |head| <= 1 && (head != [] ==> keep(head[0])) && keep(note)
    ensures Kept(head + [note], keep) == head + [note]
  {
    KeptFirst(note, [], keep);
    assert [note] + [] == [note];
    if head == [] {
      assert head + [note] == [note];
    } else {
      KeptFirst(head[0], [note], keep);
      assert head == [head[0]];
    }
  }

  lemma RefreshedFront(candidate: seq<Message>, kept: seq<Message>, rest: seq<Message>, prompt: string, oracles: Oracles)
    returns (front: seq<Message>)
    requires kept != [] && Kept(candidate, (m: Message) => !IsDynamic(m)) == kept + rest
    requires RefreshedContext(candidate, prompt, oracles).Some?
    ensures front != [] && RefreshedContext(candidate, prompt, oracles).value == front + rest
    ensures var renewed := WithPrompt(kept, prompt);
            && renewed != [] && oracles.inject(renewed + rest).Some?
            && front == renewed[..1] + oracles.inject(renewed + rest).value + renewed[1..]
  {
    hide IsDynamic, Kept;
    var anew := WithPrompt(kept + rest, prompt);
    var renewed := WithPrompt(kept, prompt);
    assert anew == renewed + rest;
    var injected := oracles.inject(anew).value;
    front := renewed[..1] + injected + renewed[1..];
    assert anew[..1] == renewed[..1] && anew[1..] == renewed[1..] + rest;
  }

  // ---------------------------------------------------------------------------------
  // Epochs
  // ---------------------------------------------------------------------------------

  /** The epochs the loop starts by itself: the live context with its head renewed, or a
      shorter one that an accepted compaction made of it. */
  ghost predicate OwnEpoch(live: seq<Message>, base: seq<Message>, prompt: string, oracles: Oracles) {
    || (live != [] && base == [System(prompt)] + live[1..])
    || (Tokens(base, oracles.cost) < Tokens(live, oracles.cost) &&
        exists turnStart: int, facts: string, result: CompactionResult ::
          && base == result.messages
          && Compacts(live, oracles.cost, oracles.summarize, Refresher(prompt, oracles), turnStart, facts, result))
  }

  /** The log and its epochs grew, and each new epoch is one of the loop's own. */
  ghost predicate Grew(raw: seq<Message>, marks: seq<EpochMark>, raw': seq<Message>, marks': seq<EpochMark>,
                       prompt: string, oracles: Oracles)
  {
    && raw <= raw' && marks <= marks' && MarksWithin(marks', raw')
    && forall j :: |marks| <= j < |marks'| ==> OwnAt(raw, raw', marks', j, prompt, oracles)
  }

  ghost predicate OwnAt(raw: seq<Message>, raw': seq<Message>, marks': seq<EpochMark>, j: nat, prompt: string, oracles: Oracles)
    requires j < |marks'| && MarksWithin(marks', raw')
  {
    && |raw| <= marks'[j].at
    && OwnEpoch(Live(raw'[..marks'[j].at], marks'[..j]), marks'[j].epoch.base, prompt, oracles)
  }

  lemma GrewSame(raw: seq<Message>, marks: seq<EpochMark>, raw': seq<Message>, prompt: string, oracles: Oracles)
    requires raw <= raw' && MarksWithin(marks, raw)
    ensures Grew(raw, marks, raw', marks, prompt, oracles)
  {
  }

  lemma GrewOn(raw: seq<Message>, marks: seq<EpochMark>, raw': seq<Message>, marks': seq<EpochMark>,
               raw'': seq<Message>, marks'': seq<EpochMark>, prompt: string, oracles: Oracles)
    requires Grew(raw, marks, raw', marks', prompt, oracles) && Grew(raw', marks', raw'', marks'', prompt, oracles)
    ensures Grew(raw, marks, raw'', marks'', prompt, oracles)
  {
    hide OwnEpoch;
    forall j | |marks| <= j < |marks''| ensures OwnAt(raw, raw'', marks'', j, prompt, oracles) {
      if j < |marks'| {
        assert OwnAt(raw, raw', marks', j, prompt, oracles);
        assert marks''[j] == marks'[j] && marks''[..j] == marks'[..j];
        assert raw''[..marks'[j].at] == raw'[..marks'[j].at];
      } else {
        assert OwnAt(raw', raw'', marks'', j, prompt, oracles);
      }
    }
  }

  /** One epoch more. */
  lemma GrewEpoch(raw: seq<Message>, marks: seq<EpochMark>, live: seq<Message>, epoch: Epoch, prompt: string, oracles: Oracles)
    requires MarksWithin(marks, raw) && live == Live(raw, marks) && OwnEpoch(live, epoch.base, prompt, oracles)
    ensures Grew(raw, marks, raw, marks + [EpochMark(|raw|, epoch)], prompt, oracles)
  {
    hide OwnEpoch;
    var marks' := marks + [EpochMark(|raw|, epoch)];
    assert marks'[..|marks|] == marks && raw[..|raw|] == raw;
  }

  // ---------------------------------------------------------------------------------
  // Queued messages
  // ---------------------------------------------------------------------------------

  /** From place `from` on, each queued text stands behind its tag, as a user message, in the
      order of the queue. */
  predicate Stands(queue: seq<(string, string)>, raw: seq<Message>, from: nat) {
    && from + |queue| <= |raw|
    && forall k :: 0 <= k < |queue| ==> raw[from + k] == User("[" + queue[k].0 + "]\n" + queue[k].1)
  }

  /** All of the queue was written between these two moments. */
  ghost predicate Delivered(queue: seq<(string, string)>, before: seq<Message>, after: seq<Message>) {
    exists from: nat :: |before| <= from && Stands(queue, after, from)
  }

  lemma DeliveredAt(queue: seq<(string, string)>, before: seq<Message>, after: seq<Message>, from: nat)
    requires |before| <= from && Stands(queue, after, from)
    ensures Delivered(queue, before, after)
  {
  }

  lemma StandsLonger(queue: seq<(string, string)>, raw: seq<Message>, from: nat)
    requires Stands(queue, raw, from)
    ensures from + |queue| <= |raw|
  {
  }

  lemma StandsGrows(queue: seq<(string, string)>, raw: seq<Message>, more: seq<Message>, from: nat)
    requires Stands(queue, raw, from) && raw <= more
    ensures Stands(queue, more, from)
  {
  }

  lemma DeliveredGrows(queue: seq<(string, string)>, earlier: seq<Message>, before: seq<Message>, after: seq<Message>, later: seq<Message>)
    requires Delivered(queue, before, after) && earlier <= before && after <= later
    ensures Delivered(queue, earlier, later)
  {
    var from: nat :| |before| <= from && Stands(queue, after, from);
    StandsGrows(queue, after, later, from);
  }

  // ---------------------------------------------------------------------------------
  // The log of requests
  // ---------------------------------------------------------------------------------

  /** What the model is sent, all that was ever appended up to then, and the number of
      epochs started up to then. */
  datatype Request = Request(messages: seq<Message>, raw: seq<Message>, epochs: nat)

  ghost predicate GoodRequests(requests: seq<Request>) {
    forall k :: 0 <= k < |requests| ==> Closed(requests[k].messages) && Ordered(requests[k].raw)
  }

  /** The request is the live context at a moment of the run: a prefix of the log, under the
      epochs of that moment. */
  ghost predicate Sent(request: Request, start: seq<Message>, raw: seq<Message>, marks: seq<EpochMark>) {
    && start <= request.raw <= raw && request.epochs <= |marks|
    && MarksWithin(marks[..request.epochs], request.raw)
    && request.messages == Live(request.raw, marks[..request.epochs])
  }

  /** Each request was sent during the run; the log goes on with its reply, and the next
      request was sent after that. */
  ghost predicate Tied(requests: seq<Request>, replies: seq<Reply>, answered: nat,
                       start: seq<Message>, raw: seq<Message>, marks: seq<EpochMark>)
  {
    && answered <= |requests| <= answered + 1 && answered <= |replies|
    && (forall k :: 0 <= k < |requests| ==> Sent(requests[k], start, raw, marks))
    && (forall k :: 0 <= k < answered ==> requests[k].raw + [Asked(replies[k])] <= raw)
    && (forall k :: 0 < k < |requests| ==> requests[k - 1].raw + [Asked(replies[k - 1])] <= requests[k].raw)
  }

  /** What others queue during a run: `inbox(2 * k)` before request `k` is prepared, and
      `inbox(2 * k + 1)` while its reply is handled. */
  type Inbox = nat -> seq<(string, string)>

  /** Every request finds all that was queued before it, written since the one before. */
  ghost predicate Heard(requests: seq<Request>, start: seq<Message>, first: seq<(string, string)>, inbox: Inbox) {
    && (requests != [] ==> Delivered(first + inbox(0), start, requests[0].raw))
    && (forall k :: 0 < k < |requests| ==>
          && Delivered(inbox(2 * k - 1), requests[k - 1].raw, requests[k].raw)
          && Delivered(inbox(2 * k), requests[k - 1].raw, requests[k].raw))
  }

  /** What is queued between two rounds, and what of the inbox was already delivered. */
  ghost predicate Pending(queued: seq<(string, string)>, raw: seq<Message>, requests: seq<Request>, start: seq<Message>,
                          first: seq<(string, string)>, inbox: Inbox)
  {
    var k := |requests|;
    if k == 0 then queued == first && raw == start
    else queued == [] && Delivered(inbox(2 * k - 1), requests[k - 1].raw, raw) && requests[k - 1].raw <= raw
  }

  lemma PendingFirst(start: seq<Message>, first: seq<(string, string)>, inbox: Inbox)
    ensures Pending(first, start, [], start, first, inbox)
  {
  }

  lemma PendingParts(queued: seq<(string, string)>, raw: seq<Message>, requests: seq<Request>, start: seq<Message>,
                     first: seq<(string, string)>, inbox: Inbox)
    requires Pending(queued, raw, requests, start, first, inbox)
    ensures var (k, arriving) := (|requests|, inbox(2 * |requests|));
            if k == 0 then queued + arriving == first + inbox(0) && raw == start
            else queued + arriving == arriving && Delivered(inbox(2 * k - 1), requests[k - 1].raw, raw) && requests[k - 1].raw <= raw
  {
  }

  lemma PendingNext(raw: seq<Message>, requests: seq<Request>, start: seq<Message>, first: seq<(string, string)>, inbox: Inbox)
    requires requests != [] && requests[|requests| - 1].raw <= raw
    requires Delivered(inbox(2 * |requests| - 1), requests[|requests| - 1].raw, raw)
    ensures Pending([], raw, requests, start, first, inbox)
  {
  }

  lemma NothingHeard(start: seq<Message>, first: seq<(string, string)>, inbox: Inbox)
    ensures Heard([], start, first, inbox)
  {
  }

  lemma HeardFirst(start: seq<Message>, first: seq<(string, string)>, inbox: Inbox, request: Request)
    requires Delivered(first + inbox(0), start, request.raw)
    ensures Heard([request], start, first, inbox)
  {
  }

  lemma HeardNext(requests: seq<Request>, start: seq<Message>, first: seq<(string, string)>, inbox: Inbox, request: Request)
    requires Heard(requests, start, first, inbox) && requests != []
    requires var k := |requests|;
             && Delivered(inbox(2 * k - 1), requests[k - 1].raw, request.raw)
             && Delivered(inbox(2 * k), requests[k - 1].raw, request.raw)
    ensures Heard(requests + [request], start, first, inbox)
  {
    hide Delivered;
    var more := requests + [request];
    assert forall k :: 0 <= k < |requests| ==> more[k] == requests[k];
  }

  /** The next request of a run, prepared from `before` on. */
  lemma HeardMore(requests: seq<Request>, start: seq<Message>, first: seq<(string, string)>, inbox: Inbox, request: Request, before: seq<Message>)
    requires Heard(requests, start, first, inbox) && before <= request.raw
    requires var k := |requests|;
             if k == 0 then before == start && Stands(first + inbox(0), request.raw, |before|)
             else && Stands(inbox(2 * k), request.raw, |before|)
                  && requests[k - 1].raw <= before && Delivered(inbox(2 * k - 1), requests[k - 1].raw, before)
    ensures Heard(requests + [request], start, first, inbox)
  {
    hide Stands;
    var k := |requests|;
    if k == 0 {
      DeliveredAt(first + inbox(0), start, request.raw, |before|);
      HeardFirst(start, first, inbox, request);
      assert requests + [request] == [request];
    } else {
      DeliveredAt(inbox(2 * k), requests[k - 1].raw, request.raw, |before|);
      DeliveredGrows(inbox(2 * k - 1), requests[k - 1].raw, requests[k - 1].raw, before, request.raw);
      HeardNext(requests, start, first, inbox, request);
    }
  }

  lemma NothingSent(replies: seq<Reply>, start: seq<Message>, marks: seq<EpochMark>)
    ensures Tied([], replies, 0, start, start, marks) && GoodRequests([])
  {
  }

  lemma TiedGrows(requests: seq<Request>, replies: seq<Reply>, answered: nat, start: seq<Message>,
                  raw: seq<Message>, marks: seq<EpochMark>, raw': seq<Message>, marks': seq<EpochMark>)
    requires Tied(requests, replies, answered, start, raw, marks) && raw <= raw' && marks <= marks'
    ensures Tied(requests, replies, answered, start, raw', marks')
  {
    forall k | 0 <= k < |requests| ensures Sent(requests[k], start, raw', marks') {
      assert Sent(requests[k], start, raw, marks);
      assert marks'[..requests[k].epochs] == marks[..requests[k].epochs];
    }
  }

  lemma TiedRequest(requests: seq<Request>, replies: seq<Reply>, answered: nat, start: seq<Message>,
                    messages: seq<Message>, raw: seq<Message>, marks: seq<EpochMark>)
    requires Tied(requests, replies, answered, start, raw, marks) && |requests| == answered && start <= raw
    requires MarksWithin(marks, raw) && messages == Live(raw, marks) && AtBoundary(messages, raw) && GoodRequests(requests)
    ensures Tied(requests + [Request(messages, raw, |marks|)], replies, answered, start, raw, marks)
    ensures GoodRequests(requests + [Request(messages, raw, |marks|)])
  {
    hide Live, MarksWithin, Closed, Ordered;
    var request := Request(messages, raw, |marks|);
    assert marks[..|marks|] == marks;
    assert Sent(request, start, raw, marks);
    var more := requests + [request];
    assert forall k :: 0 <= k < |requests| ==> more[k] == requests[k];
  }

  lemma TiedReply(requests: seq<Request>, replies: seq<Reply>, answered: nat, start: seq<Message>,
                  raw: seq<Message>, marks: seq<EpochMark>, raw': seq<Message>)
    requires Tied(requests, replies, answered, start, raw, marks) && |requests| == answered + 1 && answered < |replies|
    requires requests[answered].raw == raw && raw + [Asked(replies[answered])] <= raw'
    ensures Tied(requests, replies, answered + 1, start, raw', marks)
  {
    TiedGrows(requests, replies, answered, start, raw, marks, raw', marks);
    hide Sent;
    forall k | 0 <= k < answered ensures requests[k].raw + [Asked(replies[k])] <= raw' {
      assert requests[k].raw + [Asked(replies[k])] <= raw;
    }
  }
}
