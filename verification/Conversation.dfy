/**
  `AgentConversation`: the turn loop over the history.  The model's replies are a sequence;
  everything else that can happen in a round is arbitrary: queued messages, middleware
  injections, contract changes, compaction, budget stops, cancellation and failures.
 */
module Conversation {
  import opened Wrappers
  import opened PyStrings
  import opened Messages
  import opened Answering
  import opened Identities
  import opened History
  import opened RuntimeStates
  import opened ToolBatch
  import opened ToolExecution
  import opened RepairLaws
  import opened Compaction
  import opened Boundaries
  import PlannedOrder
  import Planner

  /** How a round ends: with another one, by the turn's end, by an exception between two
      batches, or by one inside a batch. */
  datatype Verdict = Proceed | Stopped | GiveUp | InBatch(end: BatchEnd)

  /** What a reply that was cut off is answered with. */
  const TRUNCATED := "[SYSTEM] Your response was truncated (token limit), but your tool calls WERE executed successfully. "
    + "The results are above. If you had more tool calls planned, continue with the remaining ones now. "
    + "Do NOT re-run the tools that already executed."

  /** How a budget warning begins, before its kind. */
  const BUDGET_EVENT := "[HARNESS_RUNTIME_EVENT v1]\nkind: budget_warning\nlimit_type: "

  /** The model has nothing left to do: it called no tool, or said that it stops, and nothing
      is queued. */
  predicate EndsTurn(reply: Reply, queue: seq<(string, string)>) {
    queue == [] && (reply.calls == [] || reply.finish == Stop)
  }

  /** The run went on until the replies ran out, the last reply ended the turn, or the
      tool-call limit was reached. */
  predicate RanOn(outcome: RunOutcome, replies: seq<Reply>, answered: nat, inbox: Inbox, limit: nat, count: nat)
  {
    && answered <= |replies|
    && match outcome
       case OutOfReplies => answered == |replies|
       case Idle => 0 < limit <= count || (answered > 0 && EndsTurn(replies[answered - 1], inbox(2 * answered - 1)))
       case _ => false
  }

  lemma TurnEnds(reply: Reply, queue: seq<(string, string)>)
    ensures EndsTurn(reply, queue) <==> queue == [] && (reply.calls == [] || reply.finish == Stop)
  {
  }

  lemma RanOnIdle(replies: seq<Reply>, answered: nat, inbox: Inbox, limit: nat, count: nat)
    requires answered <= |replies|
    requires 0 < limit <= count || (answered > 0 && EndsTurn(replies[answered - 1], inbox(2 * answered - 1)))
    ensures RanOn(Idle, replies, answered, inbox, limit, count)
  {
  }

  lemma RanOnAll(replies: seq<Reply>, inbox: Inbox, limit: nat, count: nat)
    ensures RanOn(OutOfReplies, replies, |replies|, inbox, limit, count)
  {
  }

  datatype RunOutcome = Idle | Failed | FailedInBatch(end: BatchEnd) | OutOfReplies

  // ---------------------------------------------------------------------------------
  // Steps of the proofs about one method
  // ---------------------------------------------------------------------------------

  lemma StartsAtBoundary(prompt: string)
    requires !IsDynamic(System(prompt))
    ensures AtBoundary([System(prompt)], [System(prompt)]) && HeadStays([System(prompt)]) && Closed([System(prompt)])
  {
    PlainCloses([System(prompt)]);
    PlainIsOrdered([System(prompt)]);
  }

  lemma PlainAt(notes: seq<Message>, k: nat)
    requires AllPlain(notes) && k < |notes|
    ensures Plain(notes[k])
  {
  }

  lemma HeadRenewed(epoch: Option<Epoch>, messages: seq<Message>, sequences: seq<nat>, next: nat, journal: Option<Journal>,
                    prompt: string, start: int, numbers: seq<nat>, start': int)
    requires Sound(epoch, messages, sequences, next, journal) && messages != [] && start >= 0
    requires numbers == Assigned([System(prompt)] + messages[1..], SourcesOf(messages, sequences, journal))
    requires var anchor := Anchor(start, sequences);
             anchor != 0 && anchor in numbers ==> 0 <= start' < |messages| && numbers[start'] == anchor
    ensures |numbers| == |messages|
    ensures 0 < start < |messages| == |sequences| && sequences[start] != 0 ==> start' == start && numbers[start] != 0
  {
    if 0 < start < |messages| && |messages| == |sequences| && sequences[start] != 0 {
      RenewedStart(epoch, messages, sequences, next, journal, prompt, start, numbers);
    }
  }

  lemma HeadBoundary(messages: seq<Message>, raw: seq<Message>, prompt: string)
    requires AtBoundary(messages, raw) && !IsDynamic(System(prompt))
    ensures messages != [] && AtBoundary([System(prompt)] + messages[1..], raw) && HeadStays([System(prompt)] + messages[1..])
  {
    HeadReplaced(messages, prompt);
  }

  lemma HeadIsOwn(messages: seq<Message>, prompt: string, oracles: Oracles)
    requires messages != []
    ensures OwnEpoch(messages, [System(prompt)] + messages[1..], prompt, oracles)
  {
  }

  lemma CompactionIsOwn(messages: seq<Message>, prompt: string, oracles: Oracles, turnStart: int, facts: string, result: CompactionResult)
    requires Tokens(result.messages, oracles.cost) < Tokens(messages, oracles.cost)
    requires Compacts(messages, oracles.cost, oracles.summarize, Refresher(prompt, oracles), turnStart, facts, result)
    ensures OwnEpoch(messages, result.messages, prompt, oracles)
  {
  }

  lemma SettledAll(messages: seq<Message>, reply: Reply, recorded: nat)
    ensures Settles(messages, reply, AllAnswered, recorded)
  {
  }

  lemma LeftExactly(messages: seq<Message>, reply: Reply, end: BatchEnd, recorded: nat, messages': seq<Message>, raw': seq<Message>)
    requires BatchLeft(messages, reply, end, recorded, messages', raw')
    ensures Closed(messages') <==> Settles(messages, reply, end, recorded)
  {
  }

  lemma GrewParts(raw: seq<Message>, marks: seq<EpochMark>, raw': seq<Message>, marks': seq<EpochMark>, prompt: string, oracles: Oracles)
    requires Grew(raw, marks, raw', marks', prompt, oracles)
    ensures raw <= raw' && marks <= marks'
  {
  }

  lemma ReplyGrew(raw: seq<Message>, marks: seq<EpochMark>, raw': seq<Message>, marks': seq<EpochMark>, raw'': seq<Message>,
                  reply: Reply, prompt: string, oracles: Oracles)
    requires Grew(raw, marks, raw', marks', prompt, oracles) && raw' + [Asked(reply)] <= raw''
    ensures Grew(raw, marks, raw'', marks', prompt, oracles)
  {
    hide OwnAt;
    assert raw' <= raw'';
    GrewSame(raw', marks', raw'', prompt, oracles);
    GrewOn(raw, marks, raw', marks', raw'', marks', prompt, oracles);
  }

  method IndexOf(s: seq<nat>, x: nat) returns (at: nat)
    requires x in s
    ensures at < |s| && s[at] == x && forall i :: 0 <= i < at ==> s[i] != x
  {
    at := 0;
    while s[at] != x
      invariant at < |s| && x in s[at..]
      invariant forall i :: 0 <= i < at ==> s[i] != x
      decreases |s| - at
    {
      assert s[at..] == [s[at]] + s[at + 1..];
      at := at + 1;
    }
  }

  lemma CompactsParts(messages: seq<Message>, prompt: string, oracles: Oracles, turnStart: int, facts: string, result: CompactionResult)
    requires Compacts(messages, oracles.cost, oracles.summarize, Refresher(prompt, oracles), turnStart, facts, result)
    ensures SystemLength(messages) <= result.firstKept <= |messages|
    ensures RefreshedContext(Candidate(messages, result.firstKept, result.summary, facts), prompt, oracles) == Some(result.messages)
  {
    hide RefreshedContext, Candidate;
  }

  /** A message behind the cut that survives it is still where the turn starts. */
  lemma CompactedStart(epoch: Option<Epoch>, messages: seq<Message>, sequences: seq<nat>, next: nat, journal: Option<Journal>,
                       prompt: string, oracles: Oracles, facts: string, result: CompactionResult, start: int,
                       numbers: seq<nat>, start': int)
    requires Sound(epoch, messages, sequences, next, journal) && HeadStays(messages) && start >= 0
    requires SystemLength(messages) <= result.firstKept <= |messages|
    requires RefreshedContext(Candidate(messages, result.firstKept, result.summary, facts), prompt, oracles) == Some(result.messages)
    requires numbers == Assigned(result.messages, SourcesOf(messages, sequences, journal))
    requires var anchor := Anchor(start, sequences);
             anchor != 0 && anchor in numbers ==> 0 <= start' < |result.messages| && numbers[start'] == anchor
    ensures |numbers| == |result.messages|
    ensures result.firstKept <= start < |messages| == |sequences| && sequences[start] != 0 && Survives(messages[start]) ==>
              0 < start' < |result.messages| && result.messages[start'] == messages[start] && numbers[start'] != 0
  {
    if result.firstKept <= start < |messages| && |messages| == |sequences| && sequences[start] != 0 && Survives(messages[start]) {
      var front := CompactedShape(messages, result.firstKept, result.summary, facts, prompt, oracles);
      hide *;
      TurnStartStays(epoch, messages, sequences, next, journal, front, result.firstKept, Survives, start, result.messages, numbers);
    }
  }

  class AgentConversation {
    const history: ContextHistory
    const state: RuntimeState
    const world: World
    var queued: seq<(string, string)>
    /** Where the current user turn starts in the live context. */
    var turnStart: int

    /** The state between rounds. */
    ghost predicate Between()
      reads `turnStart, history
    {
      && history.Valid() && turnStart >= 0 && history.epoch.Some?
      && AtBoundary(history.messages, history.raw) && HeadStays(history.messages)
    }

    /** The turn starts with `message`, which carries a number. */
    ghost predicate NamesTurn(message: Message)
      reads `turnStart, history
    {
      && |history.sequences| == |history.messages| && 0 < turnStart < |history.messages|
      && history.messages[turnStart] == message && history.sequences[turnStart] != 0
    }

    /** The counters of a new turn. */
    ghost predicate FreshTurn()
      reads this, state
    {
      !state.stopRequested && state.toolCallCount == 0 && state.pendingBudgetWarnings == []
    }

    lemma FreshParts()
      requires FreshTurn()
      ensures !state.stopRequested
    {
    }

    lemma MakesBetween()
      requires history.Valid() && turnStart >= 0 && history.marks != []
      requires AtBoundary(history.messages, history.raw) && HeadStays(history.messages)
      ensures Between()
    {
    }

    lemma BetweenParts()
      requires Between()
      ensures history.Valid() && turnStart >= 0 && history.epoch.Some? && history.marks != []
      ensures AtBoundary(history.messages, history.raw) && HeadStays(history.messages)
    {
    }

    lemma ValidMarks()
      requires Between()
      ensures MarksWithin(history.marks, history.raw) && history.messages == Live(history.raw, history.marks)
    {
    }

    /** `__init__`: the system message, the initial epoch, what the start middlewares
        inject, and the first user turn, if there is one. */
    constructor (journal: Option<Journal>, state: RuntimeState, world: World, prompt: string, contract: string,
                 injected: seq<Message>, task: Option<string>)
      requires journal.Some? ==> Increasing(journal.value)
      requires AllPlain(injected) && !IsDynamic(System(prompt))
      modifies state
      ensures fresh(history) && this.state == state && this.world == world && queued == []
      ensures Between()
      ensures history.messages == history.raw == [System(prompt)] + injected + if task.Some? then [User(task.value)] else []
      ensures history.marks == [EpochMark(1, Epoch("initial", contract, [System(prompt)]))]
      ensures task.Some? ==> turnStart == |history.messages| - 1 && NamesTurn(User(task.value)) && FreshTurn()
    {
      this.history := new ContextHistory(journal);
      this.state, this.world := state, world;
      queued, turnStart := [], 0;
      new;
      hide *;
      Start(prompt, contract, injected, task);
    }

    method Start(prompt: string, contract: string, injected: seq<Message>, task: Option<string>)
      requires history.Valid() && history.messages == history.raw == [] && history.marks == [] && turnStart == 0
      requires AllPlain(injected) && !IsDynamic(System(prompt))
      modifies `turnStart, history, state
      ensures Between()
      ensures history.messages == history.raw == [System(prompt)] + injected + if task.Some? then [User(task.value)] else []
      ensures history.marks == [EpochMark(1, Epoch("initial", contract, [System(prompt)]))]
      ensures task.Some? ==> turnStart == |history.messages| - 1 && NamesTurn(User(task.value)) && FreshTurn()
    {
      hide *;
      Begin(prompt, contract);
      AppendPlain(injected);
      BetweenParts();
      if task.Some? {
        AddUserTurn(task.value);
      }
    }

    /** The system message and the epoch it starts. */
    method Begin(prompt: string, contract: string)
      requires history.Valid() && history.messages == history.raw == [] && history.marks == [] && turnStart == 0
      requires !IsDynamic(System(prompt))
      modifies `turnStart, history
      ensures Between() && history.messages == history.raw == [System(prompt)]
      ensures history.marks == [EpochMark(1, Epoch("initial", contract, [System(prompt)]))]
    {
      hide *;
      var _ := history.Append(System(prompt));
      StartsAtBoundary(prompt);
      assert [] + [System(prompt)] == [System(prompt)];
      var _ := StartEpoch("initial", history.messages, contract);
      MakesBetween();
    }

    method AppendOne(note: Message)
      requires history.Valid() && Plain(note)
      modifies history
      ensures history.Valid() && history.marks == old(history.marks)
      ensures history.messages == old(history.messages) + [note] && history.raw == old(history.raw) + [note]
      ensures |history.sequences| == |history.messages| && history.sequences[|old(history.messages)|] != 0
      ensures old(Between()) ==> Between()
    {
      hide AtBoundary, HeadStays, Sound, MarksWithin, Live;
      SameLength(history.epoch, history.messages, history.sequences, history.nextSequence, history.journal);
      if AtBoundary(history.messages, history.raw) && HeadStays(history.messages) {
        BoundaryPlain(history.messages, history.raw, [note]);
        HeadStaysMore(history.messages, [note]);
      }
      var _ := history.Append(note);
    }

    /** Plain messages one after the other. */
    method AppendPlain(notes: seq<Message>)
      requires Between() && AllPlain(notes)
      modifies history
      ensures Between() && history.marks == old(history.marks)
      ensures history.messages == old(history.messages) + notes && history.raw == old(history.raw) + notes
    {
      hide *;
      for k := 0 to |notes|
        invariant Between() && history.marks == old(history.marks)
        invariant history.messages == old(history.messages) + notes[..k] && history.raw == old(history.raw) + notes[..k]
      {
        PlainAt(notes, k);
        BetweenParts();
        AppendOne(notes[k]);
        assert notes[..k + 1] == notes[..k] + [notes[k]];
      }
      assert notes[..|notes|] == notes;
    }

    /** `queue_message`: a text that is not blank, under its tag. */
    method QueueMessage(message: string, tag: string) returns (accepted: bool)
      modifies this`queued
      ensures accepted <==> Strip(message) != ""
      ensures queued == if accepted then old(queued) + [(tag, Strip(message))] else old(queued)
    {
      var text := Strip(message);
      accepted := text != "";
      if accepted {
        queued := queued + [(tag, text)];
      }
    }

    /** What others have queued meanwhile. */
    method Arrive(more: seq<(string, string)>)
      modifies this`queued
      ensures queued == old(queued) + more
    {
      queued := queued + more;
    }

    /** `_drain_queued_messages`: the queue is emptied first; writing a message may raise, and
        then the rest of them is lost. */
    method DrainQueued() returns (any: bool, raised: bool, ghost notes: seq<Message>)
      requires history.Valid()
      modifies this`queued, history
      ensures history.Valid() && queued == [] && any == (old(queued) != []) && history.marks == old(history.marks)
      ensures |notes| <= |old(queued)| && Stands(old(queued)[..|notes|], notes, 0)
      ensures (!raised ==> |notes| == |old(queued)|) && (world.calm ==> !raised)
      ensures history.messages == old(history.messages) + notes && history.raw == old(history.raw) + notes
      ensures old(Between()) ==> Between()
    {
      hide AtBoundary, HeadStays, Between;
      var pending := queued;
      queued := [];
      notes, raised, any := [], false, pending != [];
      for k := 0 to |pending|
        invariant history.Valid() && |notes| == k && queued == [] && history.marks == old(history.marks)
        invariant Stands(pending[..k], notes, 0)
        invariant history.messages == old(history.messages) + notes && history.raw == old(history.raw) + notes
        invariant old(Between()) ==> Between()
      {
        raised := world.Disturbs();
        if raised {
          return;
        }
        var (tag, text) := pending[k];
        var message := User("[" + tag + "]\n" + text);
        AppendOne(message);
        notes := notes + [message];
      }
    }

    /** `add_user_turn`: the new turn starts at its user message, with fresh counters. */
    method AddUserTurn(task: string)
      requires history.Valid()
      modifies this`turnStart, history, state
      ensures history.Valid() && history.marks == old(history.marks) && FreshTurn()
      ensures history.messages == old(history.messages) + [User(task)] && history.raw == old(history.raw) + [User(task)]
      ensures turnStart == |old(history.messages)|
      ensures old(history.messages) != [] ==> NamesTurn(User(task))
      ensures old(Between()) ==> Between()
    {
      hide AtBoundary, HeadStays;
      var before := history.messages;
      AppendOne(User(task));
      state.stopRequested, state.toolCallCount, state.pendingBudgetWarnings := false, 0, [];
      turnStart := |before|;
    }

    /** `start_epoch`: the turn start follows its message by sequence number; when that is
        gone, it becomes the last message. */
    method StartEpoch(reason: string, base: seq<Message>, contract: string) returns (started: bool)
      requires history.Valid() && turnStart >= 0
      modifies this`turnStart, history
      ensures history.Valid() && turnStart >= 0
      ensures started == Closed(base)
      ensures !started ==> unchanged(history) && turnStart == old(turnStart)
      ensures started ==> history.messages == base && history.epoch == Some(Epoch(reason, contract, base))
      ensures started ==> history.marks == old(history.marks) + [EpochMark(|old(history.raw)|, Epoch(reason, contract, base))]
      ensures |old(history.messages)| == |old(history.sequences)|
      ensures started ==>
                history.sequences == Assigned(base, SourcesOf(old(history.messages), old(history.sequences), old(history.journal)))
      ensures started ==>
                var anchor := Anchor(old(turnStart), old(history.sequences));
                if anchor != 0 && anchor in history.sequences
                then turnStart < |base| && history.sequences[turnStart] == anchor
                else turnStart == Max(1, |base| - 1)
      ensures history.raw == old(history.raw)
    {
      var anchor := Anchor(turnStart, history.sequences);
      started := history.StartEpoch(reason, base, contract);
      if !started {
        return;
      }
      if anchor != 0 && anchor in history.sequences {
        turnStart := IndexOf(history.sequences, anchor);
      } else {
        turnStart := Max(1, |base| - 1);
      }
    }

    /** `_ensure_request_contract`: a changed contract renews the system message, and a turn
        start that has a number stays where it is. */
    method EnsureRequestContract(contract: string, prompt: string) returns (raised: bool)
      requires history.Valid() && turnStart >= 0 && history.epoch.Some? && history.messages != []
      modifies this`turnStart, history
      ensures history.Valid() && turnStart >= 0 && history.epoch.Some? && history.raw == old(history.raw)
      ensures history.messages == (if old(history.epoch.value.contract) == contract || raised then old(history.messages)
                                   else [System(prompt)] + old(history.messages)[1..])
      ensures raised <==> old(history.epoch.value.contract) != contract && !Closed([System(prompt)] + old(history.messages)[1..])
      ensures Plain(old(history.messages)[0]) && Closed(old(history.messages)) ==> !raised
      ensures history.marks == old(history.marks) +
                (if old(history.epoch.value.contract) == contract || raised then []
                 else [EpochMark(|old(history.raw)|, Epoch("request_contract_changed", contract, history.messages))])
      ensures forall m :: old(NamesTurn(m)) ==> NamesTurn(m) && turnStart == old(turnStart)
    {
      raised := false;
      if history.epoch.value.contract != contract {
        var messages := history.messages;
        HeadReplaced(messages, prompt);
        hide *;
        var started := StartEpoch("request_contract_changed", [System(prompt)] + messages[1..], contract);
        raised := !started;
        if started {
          HeadRenewed(old(history.epoch), messages, old(history.sequences), old(history.nextSequence), old(history.journal),
                      prompt, old(turnStart), history.sequences, turnStart);
        }
      }
    }

    /** `_flush_runtime_events`: pending budget warnings, and only into a closed context. */
    method FlushRuntimeEvents() returns (raised: bool, ghost notes: seq<Message>)
      requires history.Valid()
      modifies history, state`pendingBudgetWarnings
      ensures history.Valid() && AllPlain(notes) && history.marks == old(history.marks)
      ensures history.messages == old(history.messages) + notes && history.raw == old(history.raw) + notes
      ensures notes != [] ==> Closed(old(history.messages)) && !state.stopRequested
      ensures |notes| <= |old(state.pendingBudgetWarnings)| && (world.calm ==> !raised)
      ensures forall k :: 0 <= k < |notes| ==>
                notes[k] == System(BUDGET_EVENT + old(state.pendingBudgetWarnings)[k])
      ensures !raised && !state.stopRequested && Closed(old(history.messages)) ==>
                |notes| == |old(state.pendingBudgetWarnings)| && state.pendingBudgetWarnings == []
      ensures old(Between()) ==> Between()
    {
      hide AtBoundary, HeadStays, Between, Closed, BUDGET_EVENT;
      notes, raised := [], false;
      if state.stopRequested {
        return;
      }
      var closed := ToolPairsClosed(history.messages);
      if !closed {
        return;
      }
      var warnings := state.pendingBudgetWarnings;
      for k := 0 to |warnings|
        invariant history.Valid() && AllPlain(notes) && |notes| == k && history.marks == old(history.marks)
        invariant forall i :: 0 <= i < k ==>
          notes[i] == System(BUDGET_EVENT + warnings[i])
        invariant history.messages == old(history.messages) + notes && history.raw == old(history.raw) + notes
        invariant old(Between()) ==> Between()
      {
        raised := world.Disturbs();
        if raised {
          return;
        }
        var event := System(BUDGET_EVENT + warnings[k]);
        AppendOne(event);
        notes := notes + [event];
      }
      state.pendingBudgetWarnings := [];
    }

    /** `_append_blocked_tool_results`: finalising or writing a result may raise, and then the
        later calls stay without an answer. */
    method AppendBlockedResults(calls: seq<RawCall>) returns (raised: bool, ghost results: seq<Message>)
      requires history.Valid()
      modifies history
      ensures history.Valid() && AnswersFrom(calls, 0, results) && history.marks == old(history.marks)
      ensures |results| <= |calls| && (raised <==> |results| < |calls|) && (world.calm ==> !raised)
      ensures forall i :: 0 <= i < |results| ==> results[i].result.source == OverBudget
      ensures history.messages == old(history.messages) + results && history.raw == old(history.raw) + results
    {
      hide AnswerId;
      results, raised := [], false;
      for index := 0 to |calls|
        invariant history.Valid() && |results| == index && AnswersFrom(calls, 0, results) && history.marks == old(history.marks)
        invariant forall i :: 0 <= i < |results| ==> results[i].result.source == OverBudget
        invariant history.messages == old(history.messages) + results && history.raw == old(history.raw) + results
      {
        raised := world.Disturbs();
        if raised {
          return;
        }
        var output: string := *;
        var message := Tool(AnswerId(calls[index], index), ToolResult(output, OverBudget));
        var _ := history.Append(message);
        results := results + [message];
      }
    }

    /** `_maybe_auto_compact`: a shorter context replaces the old one in a new epoch. A turn
        start behind the cut that is neither event nor dynamic context keeps its message. */
    method AutoCompact(oracles: Oracles, prompt: string, contract: string, facts: string)
      returns (ghost cut: Option<nat>, ghost summary: string)
      requires Between() && PlainInjections(oracles) && !IsDynamic(System(prompt))
      modifies this`turnStart, history
      ensures Between() && history.raw == old(history.raw)
      ensures cut == None ==> history.messages == old(history.messages) && history.marks == old(history.marks)
                              && turnStart == old(turnStart)
      ensures cut.Some? ==> Tokens(history.messages, oracles.cost) < Tokens(old(history.messages), oracles.cost)
      ensures cut.Some? ==>
                && SystemLength(old(history.messages)) <= cut.value <= |old(history.messages)|
                && oracles.summarize(Summarised(old(history.messages), cut.value)) == Some(summary)
                && CompactedInto(old(history.messages), cut.value, summary, facts, prompt, oracles, history.messages)
      ensures Grew(old(history.raw), old(history.marks), history.raw, history.marks, prompt, oracles)
      ensures forall m :: old(NamesTurn(m)) && Survives(m) && (cut == None || cut.value <= old(turnStart)) ==> NamesTurn(m)
    {
      var messages := history.messages;
      ghost var (raw, marks) := (history.raw, history.marks);
      cut, summary := None, "";
      GrewSame(raw, marks, raw, prompt, oracles);
      var compacted := Compact(messages, oracles.cost, oracles.summarize, Refresher(prompt, oracles),
                               turnStart, facts, false, oracles.economical);
      if compacted.Some? {
        var base := WithPrompt(compacted.value.messages, prompt);
        CompactedBoundary(messages, raw, oracles, prompt, turnStart, facts, compacted.value);
        CompactionIsOwn(messages, prompt, oracles, turnStart, facts, compacted.value);
        GrewEpoch(raw, marks, messages, Epoch("compaction", contract, base), prompt, oracles);
        ghost var r := compacted.value;
        CompactsParts(messages, prompt, oracles, turnStart, facts, r);
        cut, summary := Some(r.firstKept), r.summary;
        var _ := CompactedShape(messages, r.firstKept, r.summary, facts, prompt, oracles);
        hide *;
        var started := StartEpoch("compaction", base, contract);
        CompactedStart(old(history.epoch), messages, old(history.sequences), old(history.nextSequence), old(history.journal),
                       prompt, oracles, facts, r, old(turnStart), history.sequences, turnStart);
      }
    }

    // -------------------------------------------------------------------------------
    // A round
    // -------------------------------------------------------------------------------

    method Drain() returns (any: bool, raised: bool)
      requires Between()
      modifies this`queued, history
      ensures Between() && old(history.raw) <= history.raw && history.marks == old(history.marks)
      ensures queued == [] && any == (old(queued) != []) && (world.calm ==> !raised)
      ensures !raised ==> Stands(old(queued), history.raw, |old(history.raw)|)
      ensures !any && !raised ==> history.raw == old(history.raw) && history.messages == old(history.messages)
    {
      hide AtBoundary, HeadStays;
      ghost var notes;
      any, raised, notes := DrainQueued();
      assert !raised ==> old(queued)[..|notes|] == old(queued);
    }

    /** Whatever text the middlewares or the loop itself inject, as user messages. */
    method InjectUsers(texts: seq<string>)
      requires Between()
      modifies history
      ensures Between() && old(history.raw) <= history.raw && history.marks == old(history.marks)
      ensures history.raw == old(history.raw) + AsUsers(texts) && history.messages == old(history.messages) + AsUsers(texts)
    {
      hide AtBoundary, HeadStays, AsUsers;
      assert texts[..0] == [];
      AsUsersNone();
      for k := 0 to |texts|
        invariant Between() && old(history.raw) <= history.raw && history.marks == old(history.marks)
        invariant history.raw == old(history.raw) + AsUsers(texts[..k]) && history.messages == old(history.messages) + AsUsers(texts[..k])
      {
        AppendOne(User(texts[k]));
        AsUsersMore(texts[..k], texts[k]);
        assert texts[..k + 1] == texts[..k] + [texts[k]];
      }
      assert texts[..|texts|] == texts;
    }

    method Renew(contract: string, prompt: string, ghost oracles: Oracles)
      requires Between() && !IsDynamic(System(prompt))
      modifies this`turnStart, history
      ensures Between() && history.raw == old(history.raw)
      ensures Grew(old(history.raw), old(history.marks), history.raw, history.marks, prompt, oracles)
      ensures forall m :: old(NamesTurn(m)) ==> NamesTurn(m)
    {
      ghost var (messages, raw, marks) := (history.messages, history.raw, history.marks);
      GrewSame(raw, marks, raw, prompt, oracles);
      HeadBoundary(messages, raw, prompt);
      ghost var epoch := Epoch("request_contract_changed", contract, [System(prompt)] + messages[1..]);
      HeadIsOwn(messages, prompt, oracles);
      GrewEpoch(raw, marks, messages, epoch, prompt, oracles);
      hide AtBoundary, HeadStays, Grew, OwnEpoch;
      var _ := EnsureRequestContract(contract, prompt);
    }

    /** The part of a round before the model is asked. */
    method PrepareRequest(oracles: Oracles, prompt: string) returns (verdict: Verdict)
      requires Between() && PlainInjections(oracles) && !IsDynamic(System(prompt))
      modifies this, history, state`stopRequested, state`pendingBudgetWarnings
      ensures world.calm ==> verdict == if 0 < state.toolLimit <= state.toolCallCount then Stopped else Proceed
      ensures verdict == Proceed ==>
                state.stopRequested == old(state.stopRequested) && !(0 < state.toolLimit <= state.toolCallCount)
      ensures Between() && !verdict.InBatch?
      ensures Grew(old(history.raw), old(history.marks), history.raw, history.marks, prompt, oracles)
      ensures verdict == Proceed ==> queued == [] && Stands(old(queued), history.raw, |old(history.raw)|)
    {
      hide *;
      ghost var (raw, marks) := (history.raw, history.marks);
      ValidMarks();
      GrewSame(raw, marks, raw, prompt, oracles);
      var disturbed := world.Disturbs();
      if disturbed {
        return GiveUp;
      }
      var _, failed := Drain();
      GrewSame(raw, marks, history.raw, prompt, oracles);
      if failed {
        return GiveUp;
      }
      ghost var drained := history.raw;
      var spent := world.Disturbs();
      if spent || (0 < state.toolLimit <= state.toolCallCount) {
        state.RequestStop();
        return Stopped;
      }
      var injected: seq<string> := *;
      InjectUsers(injected);
      GrewSame(raw, marks, history.raw, prompt, oracles);
      disturbed := world.Disturbs();
      if disturbed {
        return GiveUp;
      }
      var contract: string := *;
      ghost var injectedRaw := history.raw;
      Renew(contract, prompt, oracles);
      GrewOn(raw, marks, injectedRaw, marks, history.raw, history.marks, prompt, oracles);
      ghost var (renewed, renewedMarks) := (history.raw, history.marks);
      verdict := FlushAndCompact(oracles, prompt, contract, raw, marks);
      StandsGrows(old(queued), drained, history.raw, |raw|);
    }

    method FlushAndCompact(oracles: Oracles, prompt: string, contract: string, ghost raw: seq<Message>, ghost marks: seq<EpochMark>)
      returns (verdict: Verdict)
      requires Between() && PlainInjections(oracles) && !IsDynamic(System(prompt))
      requires Grew(raw, marks, history.raw, history.marks, prompt, oracles)
      modifies this`turnStart, history, state`pendingBudgetWarnings
      ensures Between() && (verdict == Proceed || verdict == GiveUp) && old(history.raw) <= history.raw
      ensures world.calm ==> verdict == Proceed
      ensures Grew(raw, marks, history.raw, history.marks, prompt, oracles)
    {
      hide *;
      ghost var (raw', marks') := (history.raw, history.marks);
      ValidMarks();
      var failed;
      ghost var notes;
      BetweenParts();
      failed, notes := FlushRuntimeEvents();
      GrewSame(raw', marks', history.raw, prompt, oracles);
      GrewOn(raw, marks, raw', marks', history.raw, history.marks, prompt, oracles);
      if failed {
        return GiveUp;
      }
      if * {
        var facts: string := *;
        ghost var (raw'', marks'') := (history.raw, history.marks);
        ghost var cut, summary := AutoCompact(oracles, prompt, contract, facts);
        GrewOn(raw, marks, raw'', marks'', history.raw, history.marks, prompt, oracles);
      }
      var disturbed := world.Disturbs();
      if disturbed {
        return GiveUp;
      }
      return Proceed;
    }

    /** The part of a round after the reply: budget stop, exit gates, tools, continuation. */
    method HandleReply(reply: Reply, arriving: seq<(string, string)>) returns (verdict: Verdict, ghost recorded: nat)
      requires Between() && Addressable(reply.calls)
      modifies this, history, state, world
      ensures old(history.raw) + [Asked(reply)] <= history.raw && history.marks == old(history.marks)
      ensures history.Valid()
      ensures verdict.InBatch? ==>
                && !verdict.end.AllAnswered?
                && BatchLeft(old(history.messages), reply, verdict.end, recorded, history.messages, history.raw)
                && (Closed(history.messages) ==> Between())
      ensures !verdict.InBatch? ==> Between()
      ensures verdict == Proceed ==> queued == [] && Delivered(old(queued) + arriving, old(history.raw), history.raw)
      ensures world.calm && !old(state.stopRequested) ==>
                && (verdict == Stopped || (verdict == Proceed && !state.stopRequested))
                && (verdict == Stopped ==>
                      EndsTurn(reply, old(queued) + arriving) || (0 < state.toolLimit <= state.toolCallCount))
                && (reply.calls != [] && EndsTurn(reply, old(queued) + arriving) ==> verdict == Stopped)
    {
      hide *;
      TurnEnds(reply, old(queued) + arriving);
      Arrive(arriving);
      BetweenSame();
      var end;
      var spent := world.Disturbs();
      if spent {
        state.RequestStop();
        end, recorded := AnswerBlocked(reply);
        return if end == AllAnswered then Stopped else InBatch(end), recorded;
      }
      if reply.calls == [] {
        end, recorded := AnswerBlocked(reply);
        if end != AllAnswered {
          return InBatch(end), recorded;
        }
        ghost var answered := history.raw;
        verdict := AfterNoToolCalls();
        if verdict == Proceed {
          DeliveredAt(old(queued) + arriving, old(history.raw), history.raw, |answered|);
        }
        BetweenParts();
        return;
      }
      var stopped;
      end, stopped, recorded := RunTools(reply);
      if end != AllAnswered {
        return InBatch(end), recorded;
      }
      if stopped {
        return Stopped, recorded;
      }
      ghost var answered := history.raw;
      verdict := AfterToolCalls(reply.finish);
      if verdict == Proceed {
        DeliveredAt(old(queued) + arriving, old(history.raw), history.raw, |answered|);
      }
      BetweenParts();
    }

    /** The reply is appended and each of its calls is answered without running. */
    method AnswerBlocked(reply: Reply) returns (end: BatchEnd, ghost recorded: nat)
      requires Between() && Addressable(reply.calls)
      modifies history
      ensures old(history.raw) + [Asked(reply)] <= history.raw && history.marks == old(history.marks)
      ensures history.Valid() && (Closed(history.messages) ==> Between()) && (end.AllAnswered? ==> Between())
      ensures BatchLeft(old(history.messages), reply, end, recorded, history.messages, history.raw)
      ensures world.calm ==> end.AllAnswered?
    {
      hide *;
      ghost var (messages, raw) := (history.messages, history.raw);
      BetweenParts();
      var _ := history.Append(Asked(reply));
      var failed := false;
      ghost var results: seq<Message> := [];
      NoAnswers(reply.calls);
      failed := world.Disturbs();
      if !failed {
        failed, results := AppendBlockedResults(reply.calls);
      }
      recorded := |results|;
      end := if failed then BlockingRaised else AllAnswered;
      LeftBlocked(messages, raw, reply, results);
      SettledAll(messages, reply, recorded);
      assert history.raw == raw + [Asked(reply)] + results && history.messages == messages + [Asked(reply)] + results;
      LeftBetween(messages, reply, end, recorded);
    }

    method RunTools(reply: Reply) returns (end: BatchEnd, stopped: bool, ghost recorded: nat)
      requires Between() && Addressable(reply.calls)
      modifies history, state, world
      ensures old(history.raw) + [Asked(reply)] <= history.raw && history.marks == old(history.marks)
      ensures history.Valid() && (Closed(history.messages) ==> Between()) && (end.AllAnswered? ==> Between())
      ensures world.calm && !old(state.stopRequested) ==>
                stopped == state.stopRequested && (stopped ==> 0 < state.toolLimit <= state.toolCallCount)
      ensures BatchLeft(old(history.messages), reply, end, recorded, history.messages, history.raw)
      ensures world.calm ==> end.AllAnswered?
    {
      hide *;
      ghost var (messages, raw) := (history.messages, history.raw);
      BetweenParts();
      var _ := history.Append(Asked(reply));
      var executor := new ToolExecutor(history, state, world);
      ghost var results, extra, runs;
      var actions: nat -> PlannedOrder.Action := *;
      var classify: nat -> Planner.CallEffect := *;
      var admits: Guard := *;
      var outcome;
      outcome, results, extra, runs := executor.Execute(reply.calls, actions, classify, admits);
      recorded := |results|;
      stopped := outcome.Finished? && outcome.stopped;
      end := match outcome
        case Finished(_) => AllAnswered
        case NotesLost(_) => BatchRaised(true)
        case Raised(repaired) => BatchRaised(repaired);
      if outcome.Finished? {
        LeftAnswered(messages, raw, reply, results, extra);
      } else if outcome.NotesLost? {
        LeftNotes(messages, raw, reply, results, extra);
      } else {
        LeftRaised(messages, raw, reply, results, executor.cancelledResults, extra, outcome.repaired);
      }
      SettledAll(messages, reply, recorded);
      LeftBetween(messages, reply, end, recorded);
    }

    twostate lemma BetweenSame()
      requires old(Between()) && unchanged(this`turnStart) && unchanged(history)
      ensures Between()
    {
    }

    lemma LeftBetween(messages: seq<Message>, reply: Reply, end: BatchEnd, recorded: nat)
      requires BatchLeft(messages, reply, end, recorded, history.messages, history.raw)
      requires history.Valid() && turnStart >= 0 && history.marks != []
      ensures Closed(history.messages) ==> Between()
      ensures end.AllAnswered? ==> Between()
    {
    }

    /** `after_no_tool_calls` */
    method AfterNoToolCalls() returns (verdict: Verdict)
      requires Between()
      modifies this`queued, history
      ensures Between() && old(history.raw) <= history.raw && history.marks == old(history.marks) && !verdict.InBatch?
      ensures old(queued) != [] ==> verdict == Proceed || verdict == GiveUp
      ensures verdict == Proceed ==> queued == [] && Stands(old(queued), history.raw, |old(history.raw)|)
      ensures verdict == Proceed ==> |old(history.raw)| < |history.raw|
      ensures verdict == Stopped ==> old(queued) == [] && history.raw == old(history.raw)
      ensures world.calm ==> verdict != GiveUp
    {
      hide *;
      var any, failed := Drain();
      if failed {
        return GiveUp;
      }
      if any {
        StandsLonger(old(queued), history.raw, |old(history.raw)|);
        return Proceed;
      }
      var disturbed := world.Disturbs();
      if disturbed {
        return GiveUp;
      }
      if * {
        var injection: string := *;
        ghost var drained := history.raw;
        InjectUsers([injection]);
        AsUsersOne(injection);
        StandsGrows(old(queued), drained, history.raw, |old(history.raw)|);
        return Proceed;
      }
      return Stopped;
    }

    /** `after_tool_calls` */
    method AfterToolCalls(finish: FinishReason) returns (verdict: Verdict)
      requires Between()
      modifies this`queued, history
      ensures Between() && old(history.raw) <= history.raw && history.marks == old(history.marks)
      ensures verdict == GiveUp || verdict == if old(queued) == [] && finish == Stop then Stopped else Proceed
      ensures world.calm ==> verdict != GiveUp
      ensures verdict == Proceed ==> queued == [] && Stands(old(queued), history.raw, |old(history.raw)|)
      ensures verdict == Proceed && old(queued) == [] && finish == Length ==>
                history.raw == old(history.raw) + [User(TRUNCATED)] && history.messages == old(history.messages) + [User(TRUNCATED)]
      ensures verdict == Stopped ==> history.raw == old(history.raw)
    {
      hide *;
      var any, failed := Drain();
      if failed {
        return GiveUp;
      }
      if any {
        return Proceed;
      }
      match finish
      case Stop => return Stopped;
      case Length =>
        var disturbed := world.Disturbs();
        if disturbed {
          return GiveUp;
        }
        ghost var drained := history.raw;
        InjectUsers([TRUNCATED]);
        AsUsersOne(TRUNCATED);
        StandsGrows(old(queued), drained, history.raw, |old(history.raw)|);
        return Proceed;
      case OtherReason => return Proceed;
    }

    // -------------------------------------------------------------------------------
    // Runs
    // -------------------------------------------------------------------------------

    /** A round up to its request, which joins the requests sent so far. */
    method Ask(oracles: Oracles, prompt: string, arriving: seq<(string, string)>, ghost replies: seq<Reply>, ghost requests: seq<Request>,
               ghost raw: seq<Message>, ghost marks: seq<EpochMark>, ghost first: seq<(string, string)>, ghost inbox: Inbox)
      returns (verdict: Verdict, ghost sent: seq<Request>)
      requires Between() && PlainInjections(oracles) && !IsDynamic(System(prompt))
      requires GoodRequests(requests) && Tied(requests, replies, |requests|, raw, history.raw, history.marks)
      requires Grew(raw, marks, history.raw, history.marks, prompt, oracles)
      requires Heard(requests, raw, first, inbox) && arriving == inbox(2 * |requests|)
      requires Pending(queued, history.raw, requests, raw, first, inbox)
      modifies this, history, state`stopRequested, state`pendingBudgetWarnings
      ensures Between() && history.Valid() && !verdict.InBatch? && (verdict == Proceed ==> queued == [])
      ensures GoodRequests(sent) && Tied(sent, replies, |requests|, raw, history.raw, history.marks)
      ensures Grew(raw, marks, history.raw, history.marks, prompt, oracles) && Heard(sent, raw, first, inbox)
      ensures sent == if verdict == Proceed then requests + [Request(history.messages, history.raw, |history.marks|)] else requests
      ensures world.calm ==> verdict == if 0 < state.toolLimit <= state.toolCallCount then Stopped else Proceed
      ensures verdict == Proceed ==> state.stopRequested == old(state.stopRequested)
      ensures state.toolCallCount == old(state.toolCallCount)
    {
      hide *;
      ghost var (raw', marks') := (history.raw, history.marks);
      sent := requests;
      Arrive(arriving);
      PendingParts(old(queued), history.raw, requests, raw, first, inbox);
      BetweenParts();
      verdict := PrepareRequest(oracles, prompt);
      GrewOn(raw, marks, raw', marks', history.raw, history.marks, prompt, oracles);
      GrewParts(raw', marks', history.raw, history.marks, prompt, oracles);
      GrewParts(raw, marks, history.raw, history.marks, prompt, oracles);
      TiedGrows(requests, replies, |requests|, raw, raw', marks', history.raw, history.marks);
      BetweenParts();
      if verdict == Proceed {
        ValidMarks();
        TiedRequest(requests, replies, |requests|, raw, history.messages, history.raw, history.marks);
        ghost var request := Request(history.messages, history.raw, |history.marks|);
        HeardMore(requests, raw, first, inbox, request, raw');
        sent := requests + [request];
      }
    }

    /** `run_until_idle`, for every finite sequence of replies. Every request finds all calls
        answered, and is the live context of a moment of this run; the log grows by each
        reply in turn; new epochs only renew the head or shorten the context. An exception
        inside a batch leaves calls open exactly as `Settles` says; every other way out
        leaves none. */
    method RunUntilIdle(replies: seq<Reply>, inbox: Inbox, oracles: Oracles, prompt: string)
      returns (outcome: RunOutcome, ghost requests: seq<Request>, ghost answered: nat, ghost recorded: nat)
      requires Between() && forall r :: 0 <= r < |replies| ==> Addressable(replies[r].calls)
      requires PlainInjections(oracles) && !IsDynamic(System(prompt))
      modifies this, history, state, world
      ensures history.Valid() && GoodRequests(requests)
      ensures Tied(requests, replies, answered, old(history.raw), history.raw, history.marks)
      ensures Heard(requests, old(history.raw), old(queued), inbox)
      ensures Grew(old(history.raw), old(history.marks), history.raw, history.marks, prompt, oracles)
      ensures !outcome.FailedInBatch? ==> Between()
      ensures outcome.FailedInBatch? ==>
                && 0 < answered == |requests| && !outcome.end.AllAnswered?
                && (Closed(history.messages) <==>
                      Settles(requests[answered - 1].messages, replies[answered - 1], outcome.end, recorded))
                && (Closed(history.messages) ==> Between())
      ensures outcome == OutOfReplies ==> answered == |replies|
      ensures world.calm && !old(state.stopRequested) ==>
                RanOn(outcome, replies, answered, inbox, state.toolLimit, state.toolCallCount)
    {
      hide *;
      ghost var (raw, marks) := (history.raw, history.marks);
      requests, answered, recorded := [], 0, 0;
      ValidMarks();
      NothingSent(replies, raw, marks);
      NothingHeard(raw, queued, inbox);
      PendingFirst(raw, queued, inbox);
      GrewSame(raw, marks, raw, prompt, oracles);
      for r := 0 to |replies|
        invariant Between() && answered == |requests| == r && GoodRequests(requests)
        invariant Tied(requests, replies, r, raw, history.raw, history.marks)
        invariant Grew(raw, marks, history.raw, history.marks, prompt, oracles)
        invariant Heard(requests, raw, old(queued), inbox)
        invariant world.calm && !old(state.stopRequested) ==> !state.stopRequested
        invariant Pending(queued, history.raw, requests, raw, old(queued), inbox)
      {
        var verdict;
        verdict, requests := Ask(oracles, prompt, inbox(2 * r), replies, requests, raw, marks, old(queued), inbox);
        if verdict != Proceed {
          if verdict == Stopped && 0 < state.toolLimit <= state.toolCallCount {
            RanOnIdle(replies, answered, inbox, state.toolLimit, state.toolCallCount);
          }
          return if verdict == Stopped then Idle else Failed, requests, answered, 0;
        }
        assert [] + inbox(2 * r + 1) == inbox(2 * r + 1);
        ghost var request := requests[r];
        var spent := world.Disturbs();
        if spent {
          return Idle, requests, answered, 0;
        }
        var failed := world.Disturbs();
        if failed {
          return Failed, requests, answered, 0;
        }
        ghost var (raw'', marks'') := (history.raw, history.marks);
        verdict, recorded := HandleReply(replies[r], inbox(2 * r + 1));
        ReplyGrew(raw, marks, raw'', marks'', history.raw, replies[r], prompt, oracles);
        TiedReply(requests, replies, r, raw, raw'', marks'', history.raw);
        answered := r + 1;
        if verdict.InBatch? {
          LeftExactly(request.messages, replies[r], verdict.end, recorded, history.messages, history.raw);
          return FailedInBatch(verdict.end), requests, answered, recorded;
        }
        if verdict != Proceed {
          if 0 < state.toolLimit <= state.toolCallCount || EndsTurn(replies[r], inbox(2 * r + 1)) {
            RanOnIdle(replies, answered, inbox, state.toolLimit, state.toolCallCount);
          }
          return if verdict == Stopped then Idle else Failed, requests, answered, 0;
        }
        PendingNext(history.raw, requests, raw, old(queued), inbox);
      }
      BetweenParts();
      outcome := OutOfReplies;
      RanOnAll(replies, inbox, state.toolLimit, state.toolCallCount);
    }

    /** `submit`: a new user turn, then the run. */
    method Submit(task: string, replies: seq<Reply>, inbox: Inbox, oracles: Oracles, prompt: string)
      returns (outcome: RunOutcome, ghost requests: seq<Request>, ghost answered: nat, ghost recorded: nat)
      requires Between() && forall r :: 0 <= r < |replies| ==> Addressable(replies[r].calls)
      requires PlainInjections(oracles) && !IsDynamic(System(prompt))
      modifies this, history, state, world
      ensures history.Valid() && GoodRequests(requests)
      ensures Tied(requests, replies, answered, old(history.raw) + [User(task)], history.raw, history.marks)
      ensures Heard(requests, old(history.raw) + [User(task)], old(queued), inbox)
      ensures Grew(old(history.raw), old(history.marks), history.raw, history.marks, prompt, oracles)
      ensures !outcome.FailedInBatch? ==> Between()
      ensures outcome.FailedInBatch? ==>
                && 0 < answered == |requests| && !outcome.end.AllAnswered?
                && (Closed(history.messages) <==>
                      Settles(requests[answered - 1].messages, replies[answered - 1], outcome.end, recorded))
                && (Closed(history.messages) ==> Between())
      ensures outcome == OutOfReplies ==> answered == |replies|
      ensures world.calm ==> RanOn(outcome, replies, answered, inbox, state.toolLimit, state.toolCallCount)
    {
      hide *;
      ghost var (raw, marks) := (history.raw, history.marks);
      ValidMarks();
      BetweenParts();
      AddUserTurn(task);
      FreshParts();
      ghost var (raw', marks') := (history.raw, history.marks);
      GrewSame(raw, marks, raw', prompt, oracles);
      outcome, requests, answered, recorded := RunUntilIdle(replies, inbox, oracles, prompt);
      GrewOn(raw, marks, raw', marks', history.raw, history.marks, prompt, oracles);
    }
  }

  /** `Agent.run`: a new conversation for one task, run until it is idle. */
  method RunTask(journal: Option<Journal>, state: RuntimeState, world: World, prompt: string, contract: string,
                 injected: seq<Message>, task: string, replies: seq<Reply>, inbox: Inbox, oracles: Oracles)
    returns (c: AgentConversation, outcome: RunOutcome, ghost requests: seq<Request>, ghost answered: nat, ghost recorded: nat)
    requires journal.Some? ==> Increasing(journal.value)
    requires AllPlain(injected) && !IsDynamic(System(prompt)) && PlainInjections(oracles)
    requires forall r :: 0 <= r < |replies| ==> Addressable(replies[r].calls)
    modifies state, world
    ensures fresh(c) && GoodRequests(requests)
    ensures Tied(requests, replies, answered, [System(prompt)] + injected + [User(task)], c.history.raw, c.history.marks)
    ensures Heard(requests, [System(prompt)] + injected + [User(task)], [], inbox)
    ensures Grew([System(prompt)] + injected + [User(task)], [EpochMark(1, Epoch("initial", contract, [System(prompt)]))],
                 c.history.raw, c.history.marks, prompt, oracles)
    ensures !outcome.FailedInBatch? ==> c.Between()
    ensures outcome.FailedInBatch? ==>
              && 0 < answered == |requests|
              && (Closed(c.history.messages) <==>
                    Settles(requests[answered - 1].messages, replies[answered - 1], outcome.end, recorded))
    ensures world.calm ==> RanOn(outcome, replies, answered, inbox, state.toolLimit, state.toolCallCount)
  {
    hide *;
    c := new AgentConversation(journal, state, world, prompt, contract, injected, Some(task));
    c.FreshParts();
    outcome, requests, answered, recorded := c.RunUntilIdle(replies, inbox, oracles, prompt);
  }
}
