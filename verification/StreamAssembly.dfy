/**
  Building an assistant message from a stream of deltas, and from a whole response.  Absent
  and empty text have the same effect in the source and are both written "".
 */
module StreamAssembly {
  import opened Wrappers
  import opened SortedKeys
  import opened FiniteSets
  import Messages

  datatype ToolDelta = ToolDelta(index: Option<int>, id: string, kind: string, name: string, arguments: string)

  datatype Choice = Choice(finish: Option<string>, content: string, reasoning: string, tools: seq<ToolDelta>)

  /** A chunk may carry usage only, without a choice. */
  datatype Chunk = Chunk(choice: Option<Choice>, usage: Option<string>)

  datatype Entry = Entry(id: string, kind: string, name: string, arguments: string)

  datatype Call = Call(id: string, kind: string, name: Option<string>, arguments: string)

  /** No calls stands for a message without the `tool_calls` key. */
  datatype AssistantMessage = AssistantMessage(content: Option<string>, reasoning: Option<string>, calls: seq<Call>)

  datatype StreamResult = StreamResult(message: AssistantMessage, finish: Option<string>, usage: Option<string>)

  const EMPTY := Entry("", "function", "", "")

  type Entries = map<int, Entry>

  function Get(entries: Entries, index: int): Entry {
    if index in entries then entries[index] else EMPTY
  }

  function Merge(entry: Entry, delta: ToolDelta): Entry {
    Entry(
      if delta.id != "" then delta.id else entry.id,
      if delta.kind != "" then delta.kind else entry.kind,
      entry.name + delta.name,
      entry.arguments + delta.arguments)
  }

  /** A delta without an index opens the slot after the number of known slots. */
  function Put(entries: Entries, delta: ToolDelta): Entries {
    var index := if delta.index.Some? then delta.index.value else |entries|;
    entries[index := Merge(Get(entries, index), delta)]
  }

  function Fold(deltas: seq<ToolDelta>): Entries {
    if deltas == [] then map[] else Put(Fold(deltas[..|deltas| - 1]), deltas[|deltas| - 1])
  }

  // ---------------------------------------------------------------------------------
  // What a stream says, whatever its pieces
  // ---------------------------------------------------------------------------------

  function Deltas(chunks: seq<Chunk>): seq<ToolDelta> {
    if chunks == [] then []
    else
      var last := chunks[|chunks| - 1];
      Deltas(chunks[..|chunks| - 1]) + if last.choice.Some? then last.choice.value.tools else []
  }

  function Text(chunks: seq<Chunk>): string {
    if chunks == [] then ""
    else
      var last := chunks[|chunks| - 1];
      Text(chunks[..|chunks| - 1]) + if last.choice.Some? then last.choice.value.content else ""
  }

  function Reasoning(chunks: seq<Chunk>): string {
    if chunks == [] then ""
    else
      var last := chunks[|chunks| - 1];
      Reasoning(chunks[..|chunks| - 1]) + if last.choice.Some? then last.choice.value.reasoning else ""
  }

  function Finish(chunks: seq<Chunk>): Option<string> {
    if chunks == [] then None
    else
      var last := chunks[|chunks| - 1];
      if last.choice.Some? && last.choice.value.finish.Some? then last.choice.value.finish
      else Finish(chunks[..|chunks| - 1])
  }

  function Usage(chunks: seq<Chunk>): Option<string> {
    if chunks == [] then None
    else if chunks[|chunks| - 1].usage.Some? then chunks[|chunks| - 1].usage
    else Usage(chunks[..|chunks| - 1])
  }

  /** The deltas of one tool call, in order. */
  function Of(deltas: seq<ToolDelta>, index: int): seq<ToolDelta> {
    if deltas == [] then []
    else
      var last := deltas[|deltas| - 1];
      Of(deltas[..|deltas| - 1], index) + if last.index == Some(index) then [last] else []
  }

  function LastId(deltas: seq<ToolDelta>): string {
    if deltas == [] then ""
    else if deltas[|deltas| - 1].id != "" then deltas[|deltas| - 1].id
    else LastId(deltas[..|deltas| - 1])
  }

  function LastKind(deltas: seq<ToolDelta>): string {
    if deltas == [] then "function"
    else if deltas[|deltas| - 1].kind != "" then deltas[|deltas| - 1].kind
    else LastKind(deltas[..|deltas| - 1])
  }

  function Names(deltas: seq<ToolDelta>): string {
    if deltas == [] then "" else Names(deltas[..|deltas| - 1]) + deltas[|deltas| - 1].name
  }

  function Arguments(deltas: seq<ToolDelta>): string {
    if deltas == [] then "" else Arguments(deltas[..|deltas| - 1]) + deltas[|deltas| - 1].arguments
  }

  /** One tool call by its fields: last id, last type, joined name, joined arguments. */
  function Spoken(deltas: seq<ToolDelta>, index: int): Entry {
    var own := Of(deltas, index);
    Entry(LastId(own), LastKind(own), Names(own), Arguments(own))
  }

  predicate Indexed(deltas: seq<ToolDelta>) {
    forall k :: 0 <= k < |deltas| ==> deltas[k].index.Some?
  }

  /** The dictionary holds, slot by slot, what the stream says about that call. */
  lemma {:induction false} FoldIsSpoken(deltas: seq<ToolDelta>, index: int)
    requires Indexed(deltas)
    ensures Get(Fold(deltas), index) == Spoken(deltas, index)
    decreases |deltas|
  {
    if deltas != [] {
      var front := deltas[..|deltas| - 1];
      var last := deltas[|deltas| - 1];
      FoldIsSpoken(front, index);
      SpokenMore(front, last, index);
      assert deltas == front + [last];
    }
  }

  lemma SpokenMore(front: seq<ToolDelta>, last: ToolDelta, index: int)
    ensures Spoken(front + [last], index)
         == if last.index == Some(index) then Merge(Spoken(front, index), last) else Spoken(front, index)
  {
    var all := front + [last];
    assert all[..|all| - 1] == front && all[|all| - 1] == last;
    FieldsMore(Of(front, index), last);
    hide LastId, LastKind, Names, Arguments;
    if last.index == Some(index) {
      assert Of(all, index) == Of(front, index) + [last];
    } else {
      assert Of(all, index) == Of(front, index);
    }
  }

  lemma FieldsMore(own: seq<ToolDelta>, last: ToolDelta)
    ensures LastId(own + [last]) == if last.id != "" then last.id else LastId(own)
    ensures LastKind(own + [last]) == if last.kind != "" then last.kind else LastKind(own)
    ensures Names(own + [last]) == Names(own) + last.name
    ensures Arguments(own + [last]) == Arguments(own) + last.arguments
  {
    assert (own + [last])[..|own + [last]| - 1] == own;
  }

  // ---------------------------------------------------------------------------------
  // The list of calls
  // ---------------------------------------------------------------------------------

  predicate Live(entry: Entry) {
    entry.id != "" || entry.name != "" || entry.arguments != ""
  }

  function LiveKeys(entries: Entries): set<int> {
    set k | k in entries && Live(entries[k])
  }

  function EntriesAt(entries: Entries, order: seq<int>): (list: seq<Entry>)
    ensures |list| == |order|
  {
    seq(|order|, k requires 0 <= k < |order| => Get(entries, order[k]))
  }

  function FallbackId(index: nat): string {
    "call_" + Messages.Digits(index)
  }

  function Number(list: seq<Entry>): (calls: seq<Call>)
    ensures |calls| == |list|
  {
    seq(|list|, k requires 0 <= k < |list| =>
      Call(if list[k].id == "" then FallbackId(k) else list[k].id, list[k].kind, Some(list[k].name), list[k].arguments))
  }

  /** The calls that say something, in index order. */
  function Calls(entries: Entries): seq<Call> {
    Number(EntriesAt(entries, Ascending(LiveKeys(entries))))
  }

  function OrNone(text: string): Option<string> {
    if text == "" then None else Some(text)
  }

  /** `roundtrip` is the provider's need to get reasoning text back. */
  function Assembled(chunks: seq<Chunk>, roundtrip: bool): AssistantMessage {
    AssistantMessage(
      OrNone(Text(chunks)),
      if roundtrip then OrNone(Reasoning(chunks)) else None,
      Calls(Fold(Deltas(chunks))))
  }

  // ---------------------------------------------------------------------------------
  // The loops
  // ---------------------------------------------------------------------------------

  lemma {:induction false} FoldMore(deltas: seq<ToolDelta>, more: seq<ToolDelta>, k: nat)
    requires k < |more|
    ensures Fold(deltas + more[..k + 1]) == Put(Fold(deltas + more[..k]), more[k])
  {
    var longer := deltas + more[..k + 1];
    assert longer[..|longer| - 1] == deltas + more[..k];
  }

  method ReadDeltas(tools: seq<ToolDelta>, entries: Entries, ghost before: seq<ToolDelta>) returns (entries': Entries)
    requires entries == Fold(before)
    ensures entries' == Fold(before + tools)
  {
    entries' := entries;
    assert before + tools[..0] == before;
    for k := 0 to |tools|
      invariant entries' == Fold(before + tools[..k])
    {
      FoldMore(before, tools, k);
      var delta := tools[k];
      var index := if delta.index.Some? then delta.index.value else |entries'|;
      var entry := if index in entries' then entries'[index] else EMPTY;
      if delta.id != "" {
        entry := entry.(id := delta.id);
      }
      if delta.kind != "" {
        entry := entry.(kind := delta.kind);
      }
      entry := entry.(name := entry.name + delta.name, arguments := entry.arguments + delta.arguments);
      entries' := entries'[index := entry];
    }
    assert before + tools[..|tools|] == before + tools;
  }

  /** The live entries of `keys`, in index order. */
  function LiveOf(entries: Entries, keys: set<int>): seq<Entry> {
    EntriesAt(entries, Ascending(LiveKeys(entries) * keys))
  }

  lemma LiveOfLeast(entries: Entries, keys: set<int>, k: int)
    requires keys <= entries.Keys && k in keys && forall j :: j in keys ==> k <= j
    ensures LiveOf(entries, keys) == (if Live(entries[k]) then [entries[k]] else []) + LiveOf(entries, keys - {k})
  {
    var live := LiveKeys(entries) * keys;
    if Live(entries[k]) {
      LeastOfPart(keys, live, k);
      assert live - {k} == LiveKeys(entries) * (keys - {k});
      assert EntriesAt(entries, [k] + Ascending(live - {k})) == [entries[k]] + EntriesAt(entries, Ascending(live - {k}));
    } else {
      assert live == LiveKeys(entries) * (keys - {k});
      assert [] + LiveOf(entries, keys - {k}) == LiveOf(entries, keys - {k});
    }
  }

  method ListCalls(entries: Entries) returns (list: seq<Entry>)
    ensures list == EntriesAt(entries, Ascending(LiveKeys(entries)))
  {
    list := [];
    var keys := entries.Keys;
    assert LiveKeys(entries) * keys == LiveKeys(entries);
    while keys != {}
      invariant keys <= entries.Keys
      invariant list + LiveOf(entries, keys) == LiveOf(entries, entries.Keys)
      decreases |keys|
    {
      hide LiveOf;
      var k := LeastKey(keys);
      LiveOfLeast(entries, keys, k);
      if Live(entries[k]) {
        list := list + [entries[k]];
      }
      keys := keys - {k};
    }
    assert LiveKeys(entries) * keys == {};
  }

  method AssistantMessageFromStream(chunks: seq<Chunk>, roundtrip: bool) returns (result: StreamResult)
    ensures result == StreamResult(Assembled(chunks, roundtrip), Finish(chunks), Usage(chunks))
  {
    var content, reasoning := "", "";
    var entries: Entries := map[];
    var finish: Option<string>, usage: Option<string> := None, None;
    for n := 0 to |chunks|
      invariant content == Text(chunks[..n]) && reasoning == Reasoning(chunks[..n])
      invariant finish == Finish(chunks[..n]) && usage == Usage(chunks[..n])
      invariant entries == Fold(Deltas(chunks[..n]))
    {
      assert chunks[..n + 1][..n] == chunks[..n];
      var chunk := chunks[n];
      if chunk.usage.Some? {
        usage := chunk.usage;
      }
      if chunk.choice.Some? {
        var choice := chunk.choice.value;
        if choice.finish.Some? {
          finish := choice.finish;
        }
        content := content + choice.content;
        reasoning := reasoning + choice.reasoning;
        entries := ReadDeltas(choice.tools, entries, Deltas(chunks[..n]));
      } else {
        assert Deltas(chunks[..n + 1]) == Deltas(chunks[..n]);
      }
    }
    assert chunks[..|chunks|] == chunks;
    var list := ListCalls(entries);
    return StreamResult(
      AssistantMessage(OrNone(content), if roundtrip then OrNone(reasoning) else None, Number(list)), finish, usage);
  }

  // ---------------------------------------------------------------------------------
  // Independent of the chunking
  // ---------------------------------------------------------------------------------

  lemma SameLiveEntries(a: Entries, b: Entries)
    requires forall i :: Get(a, i) == Get(b, i)
    ensures LiveKeys(a) == LiveKeys(b) && Calls(a) == Calls(b)
  {
    forall i ensures i in LiveKeys(a) <==> i in LiveKeys(b) {
      assert Get(a, i) == Get(b, i);
    }
    var order := Ascending(LiveKeys(a));
    forall k | 0 <= k < |order| ensures EntriesAt(a, order)[k] == EntriesAt(b, order)[k] {
      assert Get(a, order[k]) == Get(b, order[k]);
    }
    assert EntriesAt(a, order) == EntriesAt(b, order);
  }

  /** Two streams that say the same, piece boundaries and interleaving apart, give the same
      message. */
  lemma ChunkingIndependent(a: seq<Chunk>, b: seq<Chunk>, roundtrip: bool)
    requires Indexed(Deltas(a)) && Indexed(Deltas(b))
    requires Text(a) == Text(b) && Reasoning(a) == Reasoning(b)
    requires forall i :: Spoken(Deltas(a), i) == Spoken(Deltas(b), i)
    ensures Assembled(a, roundtrip) == Assembled(b, roundtrip)
  {
    forall i ensures Get(Fold(Deltas(a)), i) == Get(Fold(Deltas(b)), i) {
      FoldIsSpoken(Deltas(a), i);
      FoldIsSpoken(Deltas(b), i);
      assert Spoken(Deltas(a), i) == Spoken(Deltas(b), i);
    }
    SameLiveEntries(Fold(Deltas(a)), Fold(Deltas(b)));
  }

  // ---------------------------------------------------------------------------------
  // Streams one after the other
  // ---------------------------------------------------------------------------------

  lemma Snoc<T>(a: seq<T>, b: seq<T>)
    requires b != []
    ensures (a + b)[..|a + b| - 1] == a + b[..|b| - 1] && (a + b)[|a + b| - 1] == b[|b| - 1]
  {
  }

  /** Texts and deltas are joined in the order of the chunks; of finish reasons and usages the
      last one counts. */
  lemma {:induction false} StreamsJoin(a: seq<Chunk>, b: seq<Chunk>)
    ensures Text(a + b) == Text(a) + Text(b) && Reasoning(a + b) == Reasoning(a) + Reasoning(b)
    ensures Deltas(a + b) == Deltas(a) + Deltas(b)
    ensures Finish(a + b) == if Finish(b).Some? then Finish(b) else Finish(a)
    ensures Usage(a + b) == if Usage(b).Some? then Usage(b) else Usage(a)
    decreases |b|
  {
    if b == [] {
      assert a + b == a;
    } else {
      Snoc(a, b);
      var front := b[..|b| - 1];
      StreamsJoin(a, front);
      LastChunk(a + b);
      LastChunk(b);
      hide Text, Reasoning, Deltas, Finish, Usage;
      var last := b[|b| - 1];
      if last.choice.Some? {
        var c := last.choice.value;
        assert Text(a) + (Text(front) + c.content) == (Text(a) + Text(front)) + c.content;
        assert Reasoning(a) + (Reasoning(front) + c.reasoning) == (Reasoning(a) + Reasoning(front)) + c.reasoning;
        assert Deltas(a) + (Deltas(front) + c.tools) == (Deltas(a) + Deltas(front)) + c.tools;
      }
    }
  }

  lemma LastChunk(chunks: seq<Chunk>)
    requires chunks != []
    ensures
      var (front, last) := (chunks[..|chunks| - 1], chunks[|chunks| - 1]);
      && Usage(chunks) == (if last.usage.Some? then last.usage else Usage(front))
      && match last.choice
         case Some(c) =>
           && Text(chunks) == Text(front) + c.content && Reasoning(chunks) == Reasoning(front) + c.reasoning
           && Deltas(chunks) == Deltas(front) + c.tools && Finish(chunks) == if c.finish.Some? then c.finish else Finish(front)
         case None =>
           && Text(chunks) == Text(front) && Reasoning(chunks) == Reasoning(front)
           && Deltas(chunks) == Deltas(front) && Finish(chunks) == Finish(front)
  {
  }

  /** One chunk says what is in it. */
  lemma OneChunk(chunk: Chunk)
    ensures Usage([chunk]) == chunk.usage
    ensures match chunk.choice
            case Some(c) => Text([chunk]) == c.content && Reasoning([chunk]) == c.reasoning && Deltas([chunk]) == c.tools && Finish([chunk]) == c.finish
            case None => Text([chunk]) == "" && Reasoning([chunk]) == "" && Deltas([chunk]) == [] && Finish([chunk]) == None
  {
    assert [chunk][..0] == [];
  }

  lemma {:induction false} OfJoin(a: seq<ToolDelta>, b: seq<ToolDelta>, index: int)
    ensures Of(a + b, index) == Of(a, index) + Of(b, index)
    decreases |b|
  {
    if b == [] {
      assert a + b == a;
    } else {
      Snoc(a, b);
      OfJoin(a, b[..|b| - 1], index);
    }
  }

  lemma {:induction false} NamesJoin(a: seq<ToolDelta>, b: seq<ToolDelta>)
    ensures Names(a + b) == Names(a) + Names(b)
    ensures LastId(a + b) == if LastId(b) != "" then LastId(b) else LastId(a)
    decreases |b|
  {
    if b == [] {
      assert a + b == a;
    } else {
      Snoc(a, b);
      NamesJoin(a, b[..|b| - 1]);
    }
  }

  lemma {:induction false} ArgumentsJoin(a: seq<ToolDelta>, b: seq<ToolDelta>)
    ensures Arguments(a + b) == Arguments(a) + Arguments(b)
    decreases |b|
  {
    if b == [] {
      assert a + b == a;
    } else {
      Snoc(a, b);
      ArgumentsJoin(a, b[..|b| - 1]);
    }
  }

  predicate NoKind(deltas: seq<ToolDelta>) {
    forall k :: 0 <= k < |deltas| ==> deltas[k].kind == ""
  }

  lemma {:induction false} KindJoin(a: seq<ToolDelta>, b: seq<ToolDelta>)
    ensures LastKind(a + b) == if NoKind(b) then LastKind(a) else LastKind(b)
    decreases |b|
  {
    if b == [] {
      assert a + b == a;
    } else {
      Snoc(a, b);
      var (front, last) := (b[..|b| - 1], b[|b| - 1]);
      assert b == front + [last];
      assert NoKind(b) <==> NoKind(front) && last.kind == "";
      hide NoKind;
      KindJoin(a, front);
    }
  }

  /** What a stream says about a call is joined from what its two parts say. */
  lemma SpokenJoin(a: seq<ToolDelta>, b: seq<ToolDelta>, index: int)
    ensures
      var (whole, first, second) := (Spoken(a + b, index), Spoken(a, index), Spoken(b, index));
      && whole.name == first.name + second.name && whole.arguments == first.arguments + second.arguments
      && whole.id == (if second.id != "" then second.id else first.id)
      && whole.kind == (if NoKind(Of(b, index)) then first.kind else second.kind)
  {
    OfJoin(a, b, index);
    var (first, second) := (Of(a, index), Of(b, index));
    NamesJoin(first, second);
    ArgumentsJoin(first, second);
    KindJoin(first, second);
    hide Of, Names, Arguments, LastKind, LastId;
  }

  /** One delta says what is in it, about its own call. */
  lemma OneDelta(delta: ToolDelta, index: int)
    ensures Spoken([delta], index) ==
            if delta.index == Some(index) then Entry(delta.id, if delta.kind != "" then delta.kind else "function", delta.name, delta.arguments)
            else Entry("", "function", "", "")
  {
    SpokenMore([], delta, index);
    assert [] + [delta] == [delta];
    assert "" + delta.name == delta.name && "" + delta.arguments == delta.arguments;
  }

  /** A delta without an index extends the slot after the number of known slots, and no other. */
  lemma UnindexedDelta(deltas: seq<ToolDelta>, delta: ToolDelta, index: int)
    requires delta.index.None?
    ensures
      var (before, after) := (Get(Fold(deltas), index), Get(Fold(deltas + [delta]), index));
      if index == |Fold(deltas)| then
        after == Entry(if delta.id != "" then delta.id else before.id, if delta.kind != "" then delta.kind else before.kind,
                       before.name + delta.name, before.arguments + delta.arguments)
      else after == before
  {
    assert (deltas + [delta])[..|deltas + [delta]| - 1] == deltas;
    assert Fold(deltas + [delta]) == Put(Fold(deltas), delta);
  }

  predicate SaysSomething(entry: Entry) {
    entry.id != "" || entry.name != "" || entry.arguments != ""
  }

  function Named(entry: Entry, at: nat): Call {
    Call(if entry.id != "" then entry.id else "call_" + Messages.Digits(at), entry.kind, Some(entry.name), entry.arguments)
  }

  /** The calls that say something, each once, in index order. */
  ghost predicate InIndexOrder(deltas: seq<ToolDelta>, order: seq<int>) {
    && (forall k, l :: 0 <= k < l < |order| ==> order[k] < order[l])
    && (forall i :: i in order <==> SaysSomething(Spoken(deltas, i)))
  }

  lemma CallsExactly(deltas: seq<ToolDelta>) returns (order: seq<int>)
    requires Indexed(deltas)
    ensures InIndexOrder(deltas, order) && |Calls(Fold(deltas))| == |order|
    ensures forall k :: 0 <= k < |order| ==> Calls(Fold(deltas))[k] == Named(Spoken(deltas, order[k]), k)
  {
    var entries := Fold(deltas);
    forall i ensures Get(entries, i) == Spoken(deltas, i) {
      FoldIsSpoken(deltas, i);
    }
    order := Ascending(LiveKeys(entries));
    AscendingExactly(LiveKeys(entries));
    hide Fold, Spoken, Ascending;
    forall i ensures i in order <==> SaysSomething(Spoken(deltas, i)) {
      assert i in order <==> i in LiveKeys(entries);
      assert Get(entries, i) == Spoken(deltas, i);
    }
    forall k | 0 <= k < |order| ensures Calls(entries)[k] == Named(Spoken(deltas, order[k]), k) {
      assert Get(entries, order[k]) == Spoken(deltas, order[k]);
    }
  }

  /** The message of a stream: its text or none, its reasoning where it is wanted, and for
      each call that says something, in index order, the id it has or a numbered one. */
  lemma MessageExactly(chunks: seq<Chunk>, roundtrip: bool) returns (order: seq<int>)
    requires Indexed(Deltas(chunks))
    ensures
      var m := Assembled(chunks, roundtrip);
      && m.content == (if Text(chunks) == "" then None else Some(Text(chunks)))
      && m.reasoning == (if roundtrip && Reasoning(chunks) != "" then Some(Reasoning(chunks)) else None)
      && |m.calls| == |order| && InIndexOrder(Deltas(chunks), order)
      && forall k :: 0 <= k < |order| ==> m.calls[k] == Named(Spoken(Deltas(chunks), order[k]), k)
  {
    order := CallsExactly(Deltas(chunks));
    hide Fold, Spoken, Calls, Named, InIndexOrder;
  }

  // ---------------------------------------------------------------------------------
  // Streams and whole messages
  // ---------------------------------------------------------------------------------

  datatype WholeCall = WholeCall(id: string, kind: string, name: Option<string>, arguments: string)

  datatype Response = Response(content: Option<string>, reasoning: Option<string>, calls: seq<WholeCall>)

  function Normalised(call: WholeCall, index: nat): Call {
    Call(if call.id == "" then FallbackId(index) else call.id,
         if call.kind == "" then "function" else call.kind, call.name, call.arguments)
  }

  function Whole(response: Response, roundtrip: bool): AssistantMessage {
    AssistantMessage(response.content, if roundtrip then response.reasoning else None,
      seq(|response.calls|, k requires 0 <= k < |response.calls| => Normalised(response.calls[k], k)))
  }

  function OrEmpty(text: Option<string>): string {
    if text.Some? then text.value else ""
  }

  function AsEntry(call: WholeCall): Entry {
    Entry(call.id, if call.kind == "" then "function" else call.kind, OrEmpty(call.name), call.arguments)
  }

  /** The stream says what the response contains. */
  ghost predicate Streams(chunks: seq<Chunk>, response: Response) {
    && Indexed(Deltas(chunks))
    && Text(chunks) == OrEmpty(response.content) && Reasoning(chunks) == OrEmpty(response.reasoning)
    && forall i :: Spoken(Deltas(chunks), i)
         == if 0 <= i < |response.calls| then AsEntry(response.calls[i]) else EMPTY
  }

  /** Nothing in the response is present but empty. */
  predicate Substantial(response: Response, roundtrip: bool) {
    && response.content != Some("") && (roundtrip ==> response.reasoning != Some(""))
    && forall k :: 0 <= k < |response.calls| ==> response.calls[k].name.Some? && Live(AsEntry(response.calls[k]))
  }

  /** Streaming a response gives the message of the whole response exactly when nothing in
      it is present but empty. */
  lemma StreamMatchesWhole(chunks: seq<Chunk>, response: Response, roundtrip: bool)
    requires Streams(chunks, response)
    ensures Assembled(chunks, roundtrip) == Whole(response, roundtrip) <==> Substantial(response, roundtrip)
  {
    var entries := Fold(Deltas(chunks));
    var n := |response.calls|;
    forall i ensures Get(entries, i) == if 0 <= i < n then AsEntry(response.calls[i]) else EMPTY {
      FoldIsSpoken(Deltas(chunks), i);
    }
    CallsMatch(entries, response);
  }

  /** The smallest difference: a response whose content is the empty text. */
  lemma EmptyTextDiffers(finish: string)
    ensures
      var (chunks, response) := ([Chunk(Some(Choice(Some(finish), "", "", [])), None)], Response(Some(""), None, []));
      && Streams(chunks, response) && Assembled(chunks, false) != Whole(response, false)
  {
    var (chunks, response) := ([Chunk(Some(Choice(Some(finish), "", "", [])), None)], Response(Some(""), None, []));
    assert chunks[..|chunks| - 1] == [];
    assert Deltas(chunks) == Deltas([]) + [];
    assert Text(chunks) == Text([]) + "" && Reasoning(chunks) == Reasoning([]) + "";
    StreamMatchesWhole(chunks, response, false);
  }

  lemma CallsMatch(entries: Entries, response: Response)
    requires forall i :: Get(entries, i) == if 0 <= i < |response.calls| then AsEntry(response.calls[i]) else EMPTY
    ensures Calls(entries) == Whole(response, false).calls
       <==> forall k :: 0 <= k < |response.calls| ==> response.calls[k].name.Some? && Live(AsEntry(response.calls[k]))
  {
    if forall k :: 0 <= k < |response.calls| ==> Live(AsEntry(response.calls[k])) {
      AllLive(entries, response);
      var calls, whole := Calls(entries), Whole(response, false).calls;
      if calls == whole {
        forall k | 0 <= k < |response.calls| ensures response.calls[k].name.Some? {
          assert calls[k].name == whole[k].name;
        }
      }
    } else {
      SomeDropped(entries, response);
    }
  }

  lemma AllLive(entries: Entries, response: Response)
    requires forall i :: Get(entries, i) == if 0 <= i < |response.calls| then AsEntry(response.calls[i]) else EMPTY
    requires forall k :: 0 <= k < |response.calls| ==> Live(AsEntry(response.calls[k]))
    ensures |Calls(entries)| == |response.calls|
    ensures forall k :: 0 <= k < |response.calls| ==>
              Calls(entries)[k] == Normalised(response.calls[k].(name := Some(OrEmpty(response.calls[k].name))), k)
  {
    var n := |response.calls|;
    var live := LiveKeys(entries);
    forall i ensures i in live <==> 0 <= i < n {
      assert i in live <==> Live(Get(entries, i));
    }
    AscendingRange(live, 0, n);
    var list := EntriesAt(entries, Ascending(live));
    assert forall k :: 0 <= k < n ==> list[k] == AsEntry(response.calls[k]);
  }

  lemma SomeDropped(entries: Entries, response: Response)
    requires forall i :: Get(entries, i) == if 0 <= i < |response.calls| then AsEntry(response.calls[i]) else EMPTY
    requires exists k :: 0 <= k < |response.calls| && !Live(AsEntry(response.calls[k]))
    ensures |Calls(entries)| < |response.calls|
  {
    var n := |response.calls|;
    var live := LiveKeys(entries);
    forall i | i in live ensures 0 <= i < n {
      assert Live(Get(entries, i));
    }
    var k :| 0 <= k < n && !Live(AsEntry(response.calls[k]));
    assert !Live(Get(entries, k));
    assert live <= UpTo(n) - {k};
    SubsetSize(live, UpTo(n) - {k});
    AscendingSize(live);
  }

  method AssistantMessageFromResponse(response: Response, roundtrip: bool) returns (message: AssistantMessage)
    ensures message == Whole(response, roundtrip)
  {
    var calls: seq<Call> := [];
    for index := 0 to |response.calls|
      invariant |calls| == index
      invariant forall k :: 0 <= k < index ==> calls[k] == Normalised(response.calls[k], k)
    {
      var call := response.calls[index];
      var kind := if call.kind == "" then "function" else call.kind;
      var id := if call.id == "" then FallbackId(index) else call.id;
      calls := calls + [Call(id, kind, call.name, call.arguments)];
    }
    return AssistantMessage(response.content, if roundtrip then response.reasoning else None, calls);
  }
}
