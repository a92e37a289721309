/**
  The terminal client of a session: how it takes in published events and whole views, and the
  loop that asks for a view when numbers are missing. The client has a reducer of its own, so
  what it shows can differ from the registry's view; the module says exactly when.
 */
module SessionClient {
  import opened Wrappers
  import opened SessionViews
  import Messages

  /** What the client shows of a session. */
  datatype Shown = Shown(
    items: seq<Item>,
    snapshot: Fields,
    interaction: Option<string>,
    work: Fields,
    turnState: string,
    queueDepth: nat,
    commands: seq<string>,
    waitingReason: Option<string>)

  /** The texts of the client and the clock it numbers local rows with. */
  datatype Texts = Texts(startup: map<string, string>, ready: string, failed: string, failedTitle: string,
                         userError: string -> string, clock: nat)

  const WELCOME := "welcome"

  const INITIAL_SNAPSHOT: Fields := map[
    "profile" := "general", "permissionMode" := "workspace-write", "model" := "starting", "reasoningEffort" := "high",
    "provider" := "auto", "contextPercent" := "100", "status" := "starting", "cwd" := "\U{5DE5}\U{4F5C}\U{533A}",
    "inputMode" := "text"]

  const INITIAL_WORK: Fields := map[
    "plan" := "null", "tasks" := "{items:[],completed:0,total:0}", "agents" := "[]",
    "changes" := "{workspace:[],additions:0,deletions:0,proposals:[]}", "checks" := "[]", "artifacts" := "[]"]

  const DEFAULT_COMMANDS := ["/mcp", "/compact", "/context", "/memory", "/fork", "/observe"]

  /** A session the client has only heard the name of. */
  const INITIAL := Shown(
    [Item(WELCOME, "status", "VeriForge", "\U{51C6}\U{5907}\U{5DE5}\U{4F5C}\U{533A}\U{2026}", Some("running"), false, None, None)],
    INITIAL_SNAPSHOT, None, INITIAL_WORK, "idle", 0, DEFAULT_COMMANDS, None)

  /** How the client shows a view of the registry: with defaults for what the view leaves out. */
  function Presented(view: View): Shown {
    Shown(view.items, INITIAL_SNAPSHOT + view.snapshot, view.interaction, INITIAL_WORK + view.work,
          view.turnState, view.queueDepth, view.commands, view.waitingReason)
  }

  // ---------------------------------------------------------------------------------
  // The reducer
  // ---------------------------------------------------------------------------------

  function WelcomeBody(texts: Texts, status: string, detail: string): string {
    if status == "ready" then texts.ready
    else if status == "failed" then (if detail != "" then detail else texts.failed)
    else if status in texts.startup && texts.startup[status] != "" then texts.startup[status]
    else if detail != "" then detail
    else status
  }

  /** The empty-state row follows the start of the session. */
  function Welcomed(texts: Texts, item: Item, status: string, detail: string): Item {
    if item.id != WELCOME then item
    else item.(title := if status == "failed" then texts.failedTitle else item.title,
               body := WelcomeBody(texts, status, detail),
               state := Some(if status == "ready" then "success" else if status == "failed" then "failed" else "running"))
  }

  predicate RealContent(item: Item) {
    item.kind != "status" && item.kind != "error"
  }

  function LocalNoticeId(count: nat, clock: nat): string {
    "notice-" + Messages.Digits(count) + "-" + Messages.Digits(clock)
  }

  function Extended(item: Item, id: string, text: string): Item {
    if item.id == id then item.(body := item.body + text) else item
  }

  /** The client takes every state it is given, an empty one too. */
  function Replaced(item: Item, id: string, text: string, state: Option<string>): Item {
    if item.id == id then item.(body := text, state := if state.Some? then state else item.state) else item
  }

  /** `reduceSessionEvent` */
  function Reduce(texts: Texts, s: Shown, event: Event): Shown {
    match event
    case Snapshot(payload) => s.(snapshot := payload)
    case SessionReset(payload, items) =>
      s.(snapshot := payload, items := items, turnState := "idle", queueDepth := 0, interaction := None,
         work := INITIAL_WORK, waitingReason := None)
    case Transcript(item) =>
      (match Position(s.items, item.id)
       case None => s.(items := (if RealContent(item) then Others(s.items, WELCOME) else s.items) + [item])
       case Some(p) => s.(items := s.items[p := item]))
    case AssistantDelta(id, text, _) =>
      s.(items := Each(s.items, item => Extended(item, id, text)))
    case TranscriptUpdate(id, text, state) =>
      s.(items := Each(s.items, item => Replaced(item, id, text, state)))
    case RecoveryAvailable(turn, point) =>
      if turn == 0 then s.(items := [OriginItem(point)] + Others(s.items, ORIGIN))
      else s.(items := Each(s.items, item => Pointed(item, turn, point)))
    case Interaction(id) => s.(interaction := Some(id))
    case InteractionClosed(id) => if s.interaction == Some(id) then s.(interaction := None) else s
    case Notice(text, failed) =>
      s.(items := s.items + [NoticeItem(LocalNoticeId(|s.items|, texts.clock), if failed then texts.userError(text) else text, failed)])
    case TurnState(status, depth) =>
      s.(turnState := status,
         queueDepth := if depth.Some? then depth.value else if status == "queued" then s.queueDepth + 1 else 0)
    case Progress(status, detail) =>
      s.(snapshot := s.snapshot["status" := status], items := Each(s.items, item => Welcomed(texts, item, status, detail)))
    case Commands(commands) => s.(commands := commands)
    case WorkUpdated(field, value) => s.(work := s.work[field := value])
    case ResourceWait(reason) => s.(waitingReason := reason)
    case Shutdown => s
    case OtherEvent(_) => s
  }

  // ---------------------------------------------------------------------------------
  // When one event means the same on both sides
  // ---------------------------------------------------------------------------------

  predicate Complete(payload: Fields) {
    INITIAL_SNAPSHOT.Keys <= payload.Keys
  }

  /** Nothing to change in any of the rows. */
  predicate Unmoved(items: seq<Item>, f: Item -> Item) {
    forall k :: 0 <= k < |items| ==> f(items[k]) == items[k]
  }

  predicate UnmovedBut(items: seq<Item>, id: string, f: Item -> Item) {
    forall k :: 0 <= k < |items| && items[k].id != id ==> f(items[k]) == items[k]
  }

  /** The row says of the start of the session what the status says. */
  predicate ShowsStart(texts: Texts, item: Item, status: string, detail: string) {
    && item.body == WelcomeBody(texts, status, detail)
    && item.state == Some(if status == "ready" then "success" else if status == "failed" then "failed" else "running")
    && (status == "failed" ==> item.title == texts.failedTitle)
  }

  /** Reducing the event on the client comes to what the registry made of it. */
  predicate Agrees(texts: Texts, view: View, event: Event) {
    match event
    case Snapshot(payload) => Complete(payload)
    case SessionReset(payload, _) =>
      Complete(payload) && view.turnState == "idle" && view.queueDepth == 0 && view.interaction.None? && view.waitingReason.None?
    case Transcript(item) =>
      Position(view.items, item.id).Some? || !RealContent(item) || Position(view.items, WELCOME).None?
    case AssistantDelta(id, _, state) =>
      Given(state) ==> forall k :: 0 <= k < |view.items| && view.items[k].id == id ==> view.items[k].state == state
    case TranscriptUpdate(id, _, state) =>
      state == Some("") ==> forall k :: 0 <= k < |view.items| && view.items[k].id == id ==> view.items[k].state == state
    case RecoveryAvailable(turn, point) =>
      turn == 0 ==>
        forall k :: 0 <= k < |view.items| && view.items[k].id != ORIGIN && view.items[k].group && view.items[k].turn == Some(0) ==>
          view.items[k].point == Some(point)
    case Notice(_, _) => false
    case TurnState(status, depth) => depth.Some? || status != "queued"
    case Progress(status, detail) =>
      && (INITIAL_SNAPSHOT + view.snapshot)["status"] == status
      && forall k :: 0 <= k < |view.items| && view.items[k].id == WELCOME ==>
           ShowsStart(texts, view.items[k], status, detail)
    case _ => true
  }

  lemma EachSame(items: seq<Item>, f: Item -> Item, g: Item -> Item)
    ensures Each(items, f) == Each(items, g) <==> forall k :: 0 <= k < |items| ==> f(items[k]) == g(items[k])
  {
    if Each(items, f) == Each(items, g) {
      forall k | 0 <= k < |items| ensures f(items[k]) == g(items[k]) {
        assert Each(items, f)[k] == Each(items, g)[k];
      }
    }
  }

  lemma EachUnchanged(items: seq<Item>, f: Item -> Item)
    ensures Each(items, f) == items <==> Unmoved(items, f)
  {
    if Each(items, f) == items {
      forall k | 0 <= k < |items| ensures f(items[k]) == items[k] {
        assert Each(items, f)[k] == items[k];
      }
    }
  }

  lemma {:induction false} OthersSame(items: seq<Item>, id: string)
    ensures |Others(items, id)| <= |items|
    ensures Others(items, id) == items <==> Position(items, id).None?
    ensures |Others(items, id)| == |items| <==> Position(items, id).None?
  {
    if items != [] {
      OthersSame(items[1..], id);
      if items[0].id != id {
        assert ([items[0]] + Others(items[1..], id))[1..] == Others(items[1..], id);
        assert items == [items[0]] + items[1..];
      }
    }
  }

  lemma UnmovedFirst(items: seq<Item>, id: string, f: Item -> Item)
    requires items != []
    ensures UnmovedBut(items, id, f) <==> (items[0].id == id || f(items[0]) == items[0]) && UnmovedBut(items[1..], id, f)
    ensures Unmoved(items, f) <==> f(items[0]) == items[0] && Unmoved(items[1..], f)
  {
    assert forall k :: 0 <= k < |items| ==> items[k] == if k == 0 then items[0] else items[1..][k - 1];
    assert forall k :: 0 <= k < |items| - 1 ==> items[1..][k] == items[k + 1];
  }

  lemma {:induction false} OthersUnchanged(items: seq<Item>, id: string, f: Item -> Item)
    ensures Unmoved(Others(items, id), f) <==> UnmovedBut(items, id, f)
  {
    if items != [] {
      OthersUnchanged(items[1..], id, f);
      UnmovedFirst(items, id, f);
      var (rest, others) := (Others(items[1..], id), Others(items, id));
      hide Unmoved, UnmovedBut;
      if items[0].id != id {
        assert others == [items[0]] + rest && others[1..] == rest;
        UnmovedFirst(others, id, f);
      } else {
        assert others == rest;
      }
    }
  }

  lemma SnapshotAgrees(payload: Fields)
    ensures payload == INITIAL_SNAPSHOT + payload <==> Complete(payload)
  {
    if Complete(payload) {
      assert (INITIAL_SNAPSHOT + payload).Keys == payload.Keys;
    } else {
      var key :| key in INITIAL_SNAPSHOT.Keys && key !in payload.Keys;
      assert key in (INITIAL_SNAPSHOT + payload).Keys;
    }
  }

  lemma ResetAgrees(texts: Texts, view: View, payload: Fields, items: seq<Item>)
    ensures var event := SessionReset(payload, items);
            Reduce(texts, Presented(view), event) == Presented(Content(view, event)) <==> Agrees(texts, view, event)
  {
    SnapshotAgrees(payload);
    assert INITIAL_WORK + map[] == INITIAL_WORK;
    hide Complete;
  }

  lemma TranscriptAgrees(texts: Texts, view: View, item: Item)
    ensures Reduce(texts, Presented(view), Transcript(item)) == Presented(Content(view, Transcript(item))) <==>
            Agrees(texts, view, Transcript(item))
  {
    OthersSame(view.items, WELCOME);
    if Position(view.items, item.id).None? {
      var others := if RealContent(item) then Others(view.items, WELCOME) else view.items;
      assert others + [item] == view.items + [item] <==> others == view.items by {
        if others + [item] == view.items + [item] {
          assert (others + [item])[..|others|] == others && (view.items + [item])[..|view.items|] == view.items;
        }
      }
      hide Position, Others;
    }
  }

  lemma UpdateAgrees(texts: Texts, view: View, event: Event)
    requires event.AssistantDelta? || event.TranscriptUpdate?
    ensures Reduce(texts, Presented(view), event) == Presented(Content(view, event)) <==> Agrees(texts, view, event)
  {
    var items := view.items;
    match event
    case AssistantDelta(id, text, state) =>
      EachSame(items, item => Extended(item, id, text), item => Written(item, id, text, true, state));
    case TranscriptUpdate(id, text, state) =>
      EachSame(items, item => Replaced(item, id, text, state), item => Written(item, id, text, false, state));
  }

  lemma RecoveryAgrees(texts: Texts, view: View, turn: nat, point: string)
    ensures var event := RecoveryAvailable(turn, point);
            Reduce(texts, Presented(view), event) == Presented(Content(view, event)) <==> Agrees(texts, view, event)
  {
    if turn == 0 {
      var mark := (item: Item) => Pointed(item, 0, point);
      var (origin, others) := ([OriginItem(point)], Others(view.items, ORIGIN));
      OthersUnchanged(view.items, ORIGIN, mark);
      assert UnmovedBut(view.items, ORIGIN, mark) <==> Agrees(texts, view, RecoveryAvailable(turn, point));
      EachUnchanged(others, mark);
      assert Each(origin + others, mark) == origin + Each(others, mark);
      assert origin + Each(others, mark) == origin + others <==> Each(others, mark) == others by {
        assert (origin + Each(others, mark))[1..] == Each(others, mark) && (origin + others)[1..] == others;
      }
    }
  }

  lemma NoticeDiffers(texts: Texts, view: View, text: string, failed: bool)
    ensures Reduce(texts, Presented(view), Notice(text, failed)) != Presented(Content(view, Notice(text, failed)))
  {
    var body := if failed then texts.userError(text) else text;
    var local := NoticeItem(LocalNoticeId(|view.items|, texts.clock), body, failed);
    var shared := NoticeItem(NoticeId(view.sequence), text, failed);
    LocalIdDiffers(|view.items|, texts.clock, view.sequence);
    assert local.id != shared.id;
    assert (view.items + [local])[|view.items|] != (view.items + [shared])[|view.items|];
  }

  lemma {:induction false} DigitsOnly(n: nat)
    ensures '-' !in Messages.Digits(n)
  {
    if n >= 10 {
      DigitsOnly(n / 10);
    }
  }

  /** A local row's number has a dash in it, a published one's has not. */
  lemma LocalIdDiffers(count: nat, clock: nat, sequence: nat)
    ensures LocalNoticeId(count, clock) != NoticeId(sequence)
  {
    var prefix, local := "notice-", Messages.Digits(count) + "-" + Messages.Digits(clock);
    DigitsOnly(sequence + 1);
    assert local[|Messages.Digits(count)|] == '-';
    assert '-' in local;
    assert LocalNoticeId(count, clock) == prefix + local && NoticeId(sequence) == prefix + Messages.Digits(sequence + 1);
    assert (prefix + local)[|prefix|..] == local;
    assert (prefix + Messages.Digits(sequence + 1))[|prefix|..] == Messages.Digits(sequence + 1);
  }

  lemma WelcomedSame(texts: Texts, item: Item, status: string, detail: string)
    ensures Welcomed(texts, item, status, detail) == item <==>
            item.id != WELCOME || ShowsStart(texts, item, status, detail)
  {
    hide WelcomeBody;
    var welcomed := Welcomed(texts, item, status, detail);
    assert welcomed == item.(title := welcomed.title, body := welcomed.body, state := welcomed.state);
  }

  lemma ProgressAgrees(texts: Texts, view: View, status: string, detail: string)
    ensures var event := Progress(status, detail);
            Reduce(texts, Presented(view), event) == Presented(Content(view, event)) <==> Agrees(texts, view, event)
  {
    EachUnchanged(view.items, item => Welcomed(texts, item, status, detail));
    forall item: Item ensures Welcomed(texts, item, status, detail) == item <==>
                              item.id != WELCOME || ShowsStart(texts, item, status, detail) {
      WelcomedSame(texts, item, status, detail);
    }
    hide Welcomed, ShowsStart;
    var fields := INITIAL_SNAPSHOT + view.snapshot;
    assert fields["status" := status] == fields <==> fields["status"] == status;
  }

  /** For every view and every event: reducing the event on the client that shows the view
      gives what the client would be shown of the changed view exactly when they agree. */
  lemma ReducerAgrees(texts: Texts, view: View, event: Event)
    ensures Reduce(texts, Presented(view), event) == Presented(Content(view, event)) <==> Agrees(texts, view, event)
  {
    hide Each, Others, Position, Written, Welcomed, Pointed;
    match event
    case Snapshot(payload) => SnapshotAgrees(payload);
    case SessionReset(payload, items) => ResetAgrees(texts, view, payload, items);
    case Transcript(item) => TranscriptAgrees(texts, view, item);
    case AssistantDelta(_, _, _) => UpdateAgrees(texts, view, event);
    case TranscriptUpdate(_, _, _) => UpdateAgrees(texts, view, event);
    case RecoveryAvailable(turn, point) => RecoveryAgrees(texts, view, turn, point);
    case Notice(text, failed) => NoticeDiffers(texts, view, text, failed);
    case Progress(status, detail) => ProgressAgrees(texts, view, status, detail);
    case WorkUpdated(field, value) => assert INITIAL_WORK + view.work[field := value] == (INITIAL_WORK + view.work)[field := value];
    case _ =>
  }
}
