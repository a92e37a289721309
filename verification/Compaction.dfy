/**
  `ContextManager.compact`: where the context is cut, what is summarised, what is kept, and
  when the shorter context is accepted.  The token counter, the summarising model and the
  refresh hook are arbitrary functions.
 */
module Compaction {
  import opened Wrappers
  import opened Messages
  import opened Answering
  import opened Identities

  const RECENT_TAIL_TOKENS: nat := 16_384
  const MIN_RECENT_MESSAGES: nat := 2
  const SUMMARY_MARKER := "[COMPACTED CONTEXT \U{2014} structured working state]"
  const EVENT_MARKER := "[HARNESS_RUNTIME_EVENT"
  const DYNAMIC_MARKER := "[HARNESS_DYNAMIC_CONTEXT:"
  const FACTS_MARKER := "[CURRENT RUNTIME FACTS]"

  function Content(message: Message): string {
    if message.Tool? then message.result.output else message.content
  }

  predicate IsEvent(message: Message) {
    EVENT_MARKER <= Content(message)
  }

  predicate IsDynamic(message: Message) {
    DYNAMIC_MARKER <= Content(message)
  }

  predicate IsSummary(message: Message) {
    SUMMARY_MARKER <= Content(message)
  }

  /** The text before the first `marker`. */
  function Before(text: string, marker: string): string {
    if text == "" || marker <= text then "" else [text[0]] + Before(text[1..], marker)
  }

  /** An earlier summary is summarised again without its runtime facts. */
  function CutFacts(message: Message): Message {
    if !IsSummary(message) then message
    else match message
      case System(content) => System(Before(content, FACTS_MARKER))
      case User(content) => User(Before(content, FACTS_MARKER))
      case Assistant(content, calls) => Assistant(Before(content, FACTS_MARKER), calls)
      case Tool(id, result) => Tool(id, result.(output := Before(result.output, FACTS_MARKER)))
  }

  /** What is left is the text up to the first marker. */
  lemma {:induction false} BeforeExactly(text: string, marker: string)
    requires marker != ""
    ensures Before(text, marker) <= text
    ensures forall k :: 0 <= k < |Before(text, marker)| ==> !(marker <= text[k..])
    ensures Before(text, marker) == text || marker <= text[|Before(text, marker)|..]
    decreases |text|
  {
    if text != "" && !(marker <= text) {
      var rest := Before(text[1..], marker);
      BeforeExactly(text[1..], marker);
      assert text == [text[0]] + text[1..];
      forall k | 0 <= k < |rest| + 1 ensures !(marker <= text[k..]) {
        if k > 0 {
          assert text[k..] == text[1..][k - 1..];
        }
      }
      assert text[|rest| + 1..] == text[1..][|rest|..];
    }
  }

  /** Only an earlier summary is changed, and only behind its first facts marker. */
  lemma CutFactsExactly(message: Message)
    ensures !(SUMMARY_MARKER <= Content(message)) ==> CutFacts(message) == message
    ensures SUMMARY_MARKER <= Content(message) ==> Content(CutFacts(message)) == Before(Content(message), "[CURRENT RUNTIME FACTS]")
    ensures CutFacts(message).System? == message.System? && CutFacts(message).User? == message.User?
    ensures CutFacts(message).Assistant? == message.Assistant? && (message.Tool? ==> CutFacts(message).Tool? && CutFacts(message).callId == message.callId)
    ensures message.Assistant? ==> CutFacts(message).calls == message.calls
  {
    hide Before;
  }

  function CutAll(messages: seq<Message>): (cut: seq<Message>)
    ensures |cut| == |messages|
  {
    seq(|messages|, i requires 0 <= i < |messages| => CutFacts(messages[i]))
  }

  type Cost = Message -> nat

  function Tokens(messages: seq<Message>, cost: Cost): nat {
    if messages == [] then 0 else cost(messages[0]) + Tokens(messages[1..], cost)
  }

  lemma {:induction false} TokensSplit(a: seq<Message>, b: seq<Message>, cost: Cost)
    ensures Tokens(a + b, cost) == Tokens(a, cost) + Tokens(b, cost)
    decreases |a|
  {
    if a == [] {
      assert a + b == b;
    } else {
      assert (a + b)[1..] == a[1..] + b;
      TokensSplit(a[1..], b, cost);
    }
  }

  function SystemLength(messages: seq<Message>): nat {
    if messages != [] && messages[0].System? then 1 else 0
  }

  function Max(a: int, b: int): int {
    if a < b then b else a
  }

  function Min(a: int, b: int): int {
    if a < b then a else b
  }

  // ---------------------------------------------------------------------------------
  // Where to cut
  // ---------------------------------------------------------------------------------

  /** The longest suffix within the token limit, but never fewer than the last messages. */
  predicate IsTail(messages: seq<Message>, cost: Cost, tail: nat) {
    var least := SystemLength(messages);
    var top := Max(least, |messages| - MIN_RECENT_MESSAGES);
    && least <= tail <= top
    && (tail == top || Tokens(messages[tail..], cost) <= RECENT_TAIL_TOKENS)
    && (forall cut :: least <= cut < tail ==> Tokens(messages[cut..], cost) > RECENT_TAIL_TOKENS)
  }

  /** An earlier cut never keeps fewer tokens. */
  lemma EarlierCutsCostMore(messages: seq<Message>, cost: Cost, cut: nat, later: nat)
    requires cut <= later <= |messages|
    ensures Tokens(messages[later..], cost) <= Tokens(messages[cut..], cost)
  {
    assert messages[cut..] == messages[cut..later] + messages[later..];
    TokensSplit(messages[cut..later], messages[later..], cost);
  }

  ghost predicate IsWanted(messages: seq<Message>, turnStart: int, cost: Cost, wanted: nat) {
    var split := Max(SystemLength(messages), Min(turnStart, |messages|));
    if Tokens(messages[split..], cost) <= RECENT_TAIL_TOKENS then wanted == split
    else split <= wanted <= |messages| && exists tail: nat :: IsTail(messages, cost, tail) && wanted == Max(split, tail)
  }

  method WantedSplit(messages: seq<Message>, turnStart: int, cost: Cost) returns (wanted: nat)
    ensures IsWanted(messages, turnStart, cost, wanted) && SystemLength(messages) <= wanted <= |messages|
  {
    var least := SystemLength(messages);
    wanted := Max(least, Min(turnStart, |messages|));
    if Tokens(messages[wanted..], cost) > RECENT_TAIL_TOKENS {
      var tail: nat := Max(least, |messages| - MIN_RECENT_MESSAGES);
      while tail > least && Tokens(messages[tail - 1..], cost) <= RECENT_TAIL_TOKENS
        invariant least <= tail <= Max(least, |messages| - MIN_RECENT_MESSAGES)
        invariant tail == Max(least, |messages| - MIN_RECENT_MESSAGES) || Tokens(messages[tail..], cost) <= RECENT_TAIL_TOKENS
      {
        tail := tail - 1;
      }
      forall cut | least <= cut < tail ensures Tokens(messages[cut..], cost) > RECENT_TAIL_TOKENS {
        EarlierCutsCostMore(messages, cost, cut, tail - 1);
      }
      assert IsTail(messages, cost, tail);
      wanted := Max(wanted, tail);
    }
  }

  /** The last cut at or before `wanted` whose rest is closed. */
  predicate IsCut(messages: seq<Message>, wanted: nat, split: nat) {
    var least := SystemLength(messages);
    && least <= split <= wanted <= |messages|
    && (split == least || Closed(messages[split..]))
    && forall j :: split < j <= wanted ==> !Closed(messages[j..])
  }

  method WalkBack(messages: seq<Message>, wanted: nat) returns (split: nat)
    requires SystemLength(messages) <= wanted <= |messages|
    ensures IsCut(messages, wanted, split)
  {
    split := wanted;
    while split > SystemLength(messages)
      invariant SystemLength(messages) <= split <= wanted
      invariant forall j :: split < j <= wanted ==> !Closed(messages[j..])
    {
      var closed := ToolPairsClosed(messages[split..]);
      if closed {
        break;
      }
      split := split - 1;
    }
  }

  /** A closed context is cut into a closed front and a closed rest. */
  lemma CutIsClosed(messages: seq<Message>, wanted: nat, split: nat)
    requires Closed(messages) && IsCut(messages, wanted, split)
    ensures Closed(messages[split..]) && Closed(messages[..split])
    ensures messages == messages[..SystemLength(messages)] + messages[SystemLength(messages)..split] + messages[split..]
  {
    assert messages == messages[..split] + messages[split..];
    if split == SystemLength(messages) {
      PlainCloses(messages[..split]);
      ClosedJoin(messages[..split], messages[split..]);
    }
    ClosedFront(messages[..split], messages[split..]);
  }

  // ---------------------------------------------------------------------------------
  // Compacting
  // ---------------------------------------------------------------------------------

  datatype CompactionResult = CompactionResult(messages: seq<Message>, summary: string, firstKept: nat)

  type Summarize = seq<Message> -> Option<string>

  type Refresh = seq<Message> -> Option<seq<Message>>

  /** What the summarising model is shown: everything before the cut except the system
      message, runtime events and dynamic context. */
  function Summarised(messages: seq<Message>, split: nat): seq<Message>
    requires SystemLength(messages) <= split <= |messages|
  {
    CutAll(Kept(messages[SystemLength(messages)..split], (m: Message) => !IsEvent(m) && !IsDynamic(m)))
  }

  /** The model is shown the messages before the cut in their order, each once. */
  lemma SummarisedNext(messages: seq<Message>, split: nat)
    requires SystemLength(messages) <= split < |messages|
    ensures Summarised(messages, SystemLength(messages)) == []
    ensures Summarised(messages, split + 1) == Summarised(messages, split) +
              if EVENT_MARKER <= Content(messages[split]) || DYNAMIC_MARKER <= Content(messages[split]) then [] else [CutFacts(messages[split])]
  {
    hide CutFacts;
    var (least, keep) := (SystemLength(messages), (m: Message) => !IsEvent(m) && !IsDynamic(m));
    assert messages[least..least] == [];
    assert messages[least..split + 1] == messages[least..split] + [messages[split]];
    KeptSnoc(messages[least..split], messages[split], keep);
    hide IsEvent, IsDynamic, Kept;
    var kept := Kept(messages[least..split], keep);
    if keep(messages[split]) {
      assert CutAll(kept + [messages[split]]) == CutAll(kept) + [CutFacts(messages[split])];
    }
    CutUnlike(messages[split]);
  }

  lemma CutUnlike(message: Message)
    ensures IsEvent(message) <==> EVENT_MARKER <= Content(message)
    ensures IsDynamic(message) <==> DYNAMIC_MARKER <= Content(message)
  {
  }

  lemma {:induction false} KeptSnoc(messages: seq<Message>, last: Message, keep: Message -> bool)
    ensures Kept(messages + [last], keep) == Kept(messages, keep) + if keep(last) then [last] else []
    decreases |messages|
  {
    if messages == [] {
      assert [] + [last] == [last] && [last][1..] == [];
    } else {
      assert (messages + [last])[1..] == messages[1..] + [last];
      KeptSnoc(messages[1..], last, keep);
    }
  }

  function Retained(messages: seq<Message>, split: nat): seq<Message>
    requires split <= |messages|
  {
    Kept(messages[split..], (m: Message) => !IsEvent(m))
  }

  function Candidate(messages: seq<Message>, split: nat, summary: string, facts: string): seq<Message>
    requires SystemLength(messages) <= split <= |messages|
  {
    messages[..SystemLength(messages)]
      + [User(SUMMARY_MARKER + "\n" + summary + "\n\n" + FACTS_MARKER + "\n" + facts)]
      + Retained(messages, split)
  }

  /** What the new context starts from: the system message, then one user message with the
      summary and the facts, then what stands behind the cut without the runtime events. */
  ghost predicate HandedOver(messages: seq<Message>, cut: nat, summary: string, facts: string, context: seq<Message>) {
    var head := if messages != [] && messages[0].System? then 1 else 0;
    && cut <= |messages| && head < |context| && (head == 1 ==> context[0] == messages[0])
    && context[head].User?
    && context[head].content == SUMMARY_MARKER + "\n" + summary + "\n\n" + "[CURRENT RUNTIME FACTS]\n" + facts
    && context[head + 1..] == Kept(messages[cut..], (m: Message) => !(EVENT_MARKER <= Content(m)))
  }

  lemma CandidateHandsOver(messages: seq<Message>, split: nat, summary: string, facts: string)
    requires SystemLength(messages) <= split <= |messages|
    ensures HandedOver(messages, split, summary, facts, Candidate(messages, split, summary, facts))
  {
    var least := SystemLength(messages);
    var context := Candidate(messages, split, summary, facts);
    assert context[least + 1..] == Retained(messages, split);
    KeptSame(messages[split..], (m: Message) => !IsEvent(m), (m: Message) => !(EVENT_MARKER <= Content(m)));
    assert SUMMARY_MARKER + "\n" + summary + "\n\n" + FACTS_MARKER + "\n" + facts
        == SUMMARY_MARKER + "\n" + summary + "\n\n" + "[CURRENT RUNTIME FACTS]\n" + facts;
  }

  lemma {:induction false} KeptSame(messages: seq<Message>, one: Message -> bool, other: Message -> bool)
    requires forall m :: one(m) <==> other(m)
    ensures Kept(messages, one) == Kept(messages, other)
    decreases |messages|
  {
    if messages != [] {
      KeptSame(messages[1..], one, other);
    }
  }

  /** `economical` stands for the minimum size of a region worth compacting. */
  method Compact(messages: seq<Message>, cost: Cost, summarize: Summarize, refresh: Refresh,
                 turnStart: int, facts: string, force: bool, economical: seq<Message> -> bool)
    returns (r: Option<CompactionResult>)
    ensures r.Some? ==>
      && Closed(r.value.messages) && Tokens(r.value.messages, cost) < Tokens(messages, cost)
      && Compacts(messages, cost, summarize, refresh, turnStart, facts, r.value)
      && SystemLength(messages) <= r.value.firstKept
      && summarize(Summarised(messages, r.value.firstKept)) == Some(r.value.summary)
      && exists context ::
           HandedOver(messages, r.value.firstKept, r.value.summary, facts, context) && refresh(context) == Some(r.value.messages)
  {
    if messages == [] {
      return None;
    }
    var wanted := WantedSplit(messages, turnStart, cost);
    var split := WalkBack(messages, wanted);
    var older := Summarised(messages, split);
    var unsummarised := Kept(older, (m: Message) => !IsSummary(m));
    if unsummarised == [] || (!force && !economical(unsummarised)) {
      return None;
    }
    var summary := summarize(older);
    if summary.None? {
      return None;
    }
    var candidate := refresh(Candidate(messages, split, summary.value, facts));
    if candidate.None? {
      return None;
    }
    var closed := ToolPairsClosed(candidate.value);
    if !closed || Tokens(candidate.value, cost) >= Tokens(messages, cost) {
      return None;
    }
    assert IsWanted(messages, turnStart, cost, wanted) && IsCut(messages, wanted, split);
    CandidateHandsOver(messages, split, summary.value, facts);
    return Some(CompactionResult(candidate.value, summary.value, split));
  }

  /** The result was made from the last closed cut: the model summarised all that stands
      before it, and all that follows it is kept, runtime events apart. */
  ghost predicate Compacts(messages: seq<Message>, cost: Cost, summarize: Summarize, refresh: Refresh,
                           turnStart: int, facts: string, result: CompactionResult)
  {
    exists wanted: nat ::
      && IsWanted(messages, turnStart, cost, wanted) && IsCut(messages, wanted, result.firstKept)
      && summarize(Summarised(messages, result.firstKept)) == Some(result.summary)
      && refresh(Candidate(messages, result.firstKept, result.summary, facts)) == Some(result.messages)
  }

  // ---------------------------------------------------------------------------------
  // Conservation
  // ---------------------------------------------------------------------------------

  lemma {:induction false} KeptHas(messages: seq<Message>, keep: Message -> bool, at: nat)
    requires at < |messages| && keep(messages[at])
    ensures messages[at] in Kept(messages, keep)
    decreases |messages|
  {
    if at > 0 {
      KeptHas(messages[1..], keep, at - 1);
      assert messages[1..][at - 1] == messages[at];
    }
  }

  /** No message is lost: it is the system message, a runtime event, dynamic context before
      the cut, kept, or shown to the summarising model. */
  lemma NothingLost(messages: seq<Message>, split: nat, at: nat)
    requires SystemLength(messages) <= split <= |messages| && at < |messages|
    ensures
      || at < SystemLength(messages) || IsEvent(messages[at]) || (at < split && IsDynamic(messages[at]))
      || (at >= split && messages[at] in Retained(messages, split))
      || (at < split && CutFacts(messages[at]) in Summarised(messages, split))
  {
    hide CutFacts, IsEvent, IsDynamic;
    var m := messages[at];
    if at >= split && !IsEvent(m) {
      RetainedHas(messages, split, at);
    } else if SystemLength(messages) <= at < split && !IsEvent(m) && !IsDynamic(m) {
      SummarisedHas(messages, split, at);
    }
  }

  lemma RetainedHas(messages: seq<Message>, split: nat, at: nat)
    requires split <= at < |messages| && !IsEvent(messages[at])
    ensures messages[at] in Retained(messages, split)
  {
    hide CutFacts, IsEvent, IsDynamic;
    assert messages[split..][at - split] == messages[at];
    KeptHas(messages[split..], (m: Message) => !IsEvent(m), at - split);
  }

  lemma SummarisedHas(messages: seq<Message>, split: nat, at: nat)
    requires SystemLength(messages) <= at < split <= |messages|
    requires !IsEvent(messages[at]) && !IsDynamic(messages[at])
    ensures CutFacts(messages[at]) in Summarised(messages, split)
  {
    hide CutFacts, IsEvent, IsDynamic, Kept;
    var least := SystemLength(messages);
    var keep := (m: Message) => !IsEvent(m) && !IsDynamic(m);
    var region := messages[least..split];
    assert region[at - least] == messages[at];
    KeptHas(region, keep, at - least);
    var kept := Kept(region, keep);
    var k :| 0 <= k < |kept| && kept[k] == messages[at];
    assert CutAll(kept)[k] == CutFacts(messages[at]);
  }

  /** Dropping messages that are not part of the tool protocol keeps a scan's outcome. */
  lemma {:induction false} KeptScan(messages: seq<Message>, keep: Message -> bool, pending: set<CallId>)
    requires forall m :: m in messages && !keep(m) ==> Plain(m)
    requires Scan(messages, pending).Some?
    ensures Scan(Kept(messages, keep), pending) == Scan(messages, pending)
    decreases |messages|
  {
    if messages != [] {
      var next := Step(messages[0], pending);
      KeptScan(messages[1..], keep, next.value);
      var rest := Kept(messages[1..], keep);
      if keep(messages[0]) {
        assert ([messages[0]] + rest)[1..] == rest;
      } else {
        assert Kept(messages, keep) == rest;
        assert messages[0] in messages;
        assert messages[0].Assistant? ==> RawIds(messages[0].calls) == {} && pending + {} == pending;
        assert next.value == pending;
      }
    }
  }

  /** Unless a tool call or result itself looks like a runtime event, the candidate is
      always closed: an unclosed one is the refresh hook's doing. */
  lemma CandidateIsClosed(messages: seq<Message>, wanted: nat, split: nat, summary: string, facts: string)
    requires Closed(messages) && IsCut(messages, wanted, split)
    requires forall m :: m in messages && IsEvent(m) ==> Plain(m)
    ensures Closed(Candidate(messages, split, summary, facts))
  {
    CutIsClosed(messages, wanted, split);
    var head := messages[..SystemLength(messages)]
      + [User(SUMMARY_MARKER + "\n" + summary + "\n\n" + FACTS_MARKER + "\n" + facts)];
    PlainCloses(head);
    KeptScan(messages[split..], (m: Message) => !IsEvent(m), {});
    ClosedJoin(head, Retained(messages, split));
  }
}
