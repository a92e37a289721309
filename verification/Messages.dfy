/**
  Conversation messages, and what it means that every tool call has been answered:
  `tool_pairs_closed` as a loop, as a scan, and as a shape of the whole history.
 */
module Messages {
  import opened PyStrings
  import opened Wrappers

  type CallId = string

  /** A tool call as the provider sent it; the id may be missing. */
  datatype RawCall = RawCall(id: Option<string>, name: string)

  datatype ResultSource = Executed | Intercepted | OverBudget | Aborted

  datatype ToolResult = ToolResult(output: string, source: ResultSource)

  datatype Message =
    | System(content: string)
    | User(content: string)
    | Assistant(content: string, calls: seq<RawCall>)
    | Tool(callId: CallId, result: ToolResult)

  /** Neither asks for tools nor answers a call. */
  predicate Plain(message: Message) {
    message.System? || message.User? || (message.Assistant? && message.calls == [])
  }

  predicate AllPlain(messages: seq<Message>) {
    forall i :: 0 <= i < |messages| ==> Plain(messages[i])
  }

  // ---------------------------------------------------------------------------------
  // Call ids
  // ---------------------------------------------------------------------------------

  function Digits(n: nat): string {
    var last := ['0' + (n % 10) as char];
    if n < 10 then last else Digits(n / 10) + last
  }

  /** The id `tool_pairs_closed` expects an answer to. */
  function RawId(call: RawCall): CallId {
    if call.id.Some? then call.id.value else "None"
  }

  /** The id `ToolCall.from_raw` gives the answer. */
  function AnswerId(call: RawCall, index: nat): CallId {
    var given := if call.id.Some? then Strip(call.id.value) else "";
    if given == "" then "call_" + Digits(index) else given
  }

  function RawIds(calls: seq<RawCall>): set<CallId> {
    set i | 0 <= i < |calls| :: RawId(calls[i])
  }

  lemma RawIdsGrow(calls: seq<RawCall>, k: nat)
    requires k < |calls|
    ensures RawIds(calls[..k + 1]) == RawIds(calls[..k]) + {RawId(calls[k])}
  {
    var front := calls[..k];
    var more := calls[..k + 1];
    assert forall i :: 0 <= i < k ==> more[i] == front[i];
    forall id ensures id in RawIds(more) <==> id in RawIds(front) + {RawId(calls[k])} {
      if id in RawIds(front) {
        var i :| 0 <= i < |front| && id == RawId(front[i]);
        assert id == RawId(more[i]);
      }
      if id == RawId(calls[k]) {
        assert id == RawId(more[k]);
      }
    }
  }

  function AnswerIds(calls: seq<RawCall>): set<CallId> {
    set i | 0 <= i < |calls| :: AnswerId(calls[i], i)
  }

  predicate DistinctAnswers(calls: seq<RawCall>) {
    forall i, j :: 0 <= i < j < |calls| ==> AnswerId(calls[i], i) != AnswerId(calls[j], j)
  }

  /** The answers can be matched with the calls: distinct ids, and the ids that are expected. */
  predicate Addressable(calls: seq<RawCall>) {
    DistinctAnswers(calls) && AnswerIds(calls) == RawIds(calls)
  }

  /** Ids as a provider should send them: present, trimmed, not empty, pairwise different. */
  predicate ProperIds(calls: seq<RawCall>) {
    && (forall i :: 0 <= i < |calls| ==>
         calls[i].id.Some? && calls[i].id.value != "" && Strip(calls[i].id.value) == calls[i].id.value)
    && (forall i, j :: 0 <= i < j < |calls| ==> calls[i].id != calls[j].id)
  }

  lemma ProperIdsAreAddressable(calls: seq<RawCall>)
    requires ProperIds(calls)
    ensures Addressable(calls)
  {
    forall i | 0 <= i < |calls| ensures AnswerId(calls[i], i) == RawId(calls[i]) {
    }
  }

  // ---------------------------------------------------------------------------------
  // The check
  // ---------------------------------------------------------------------------------

  function Step(message: Message, pending: set<CallId>): Option<set<CallId>> {
    if pending != {} && !message.Tool? then None
    else match message
      case Assistant(_, calls) => Some(pending + RawIds(calls))
      case Tool(id, _) => if id in pending then Some(pending - {id}) else None
      case _ => Some(pending)
  }

  function Scan(history: seq<Message>, pending: set<CallId>): Option<set<CallId>> {
    if history == [] then Some(pending)
    else match Step(history[0], pending)
      case None => None
      case Some(next) => Scan(history[1..], next)
  }

  predicate Closed(history: seq<Message>) {
    Scan(history, {}) == Some({})
  }

  lemma {:induction false} ScanSplit(a: seq<Message>, b: seq<Message>, pending: set<CallId>)
    ensures Scan(a + b, pending)
         == match Scan(a, pending) case None => None case Some(next) => Scan(b, next)
    decreases |a|
  {
    if a == [] {
      assert a + b == b;
    } else {
      assert (a + b)[1..] == a[1..] + b;
      if Step(a[0], pending).Some? {
        ScanSplit(a[1..], b, Step(a[0], pending).value);
      }
    }
  }

  method ToolPairsClosed(messages: seq<Message>) returns (closed: bool)
    ensures closed <==> Closed(messages)
  {
    var pending: set<CallId> := {};
    for i := 0 to |messages|
      invariant Scan(messages[..i], {}) == Some(pending)
    {
      var message := messages[i];
      assert messages == messages[..i] + messages[i..];
      ScanSplit(messages[..i], messages[i..], {});
      assert messages[..i + 1] == messages[..i] + [message];
      ScanSplit(messages[..i], [message], {});
      assert Scan([message], pending) == Step(message, pending) by {
        assert [message][1..] == [];
      }
      if pending != {} && !message.Tool? {
        return false;
      }
      match message
      case Assistant(_, calls) =>
        ghost var before := pending;
        for k := 0 to |calls|
          invariant pending == before + RawIds(calls[..k])
        {
          RawIdsGrow(calls, k);
          pending := pending + {RawId(calls[k])};
        }
        assert calls[..|calls|] == calls;
      case Tool(id, _) =>
        if id !in pending {
          return false;
        }
        pending := pending - {id};
      case _ =>
    }
    assert messages[..|messages|] == messages;
    return pending == {};
  }
}
