/**
  `SessionRuntimeRegistry`: per-session views updated in place by published events, and the
  choice of the active session.
 */
module SessionViews {
  import opened Wrappers
  import Messages

  type Id = string

  /** A transcript row. `state`, `turn` and `point` may be missing. */
  datatype Item = Item(id: string, kind: string, title: string, body: string, state: Option<string>,
                       group: bool, turn: Option<nat>, point: Option<string>)

  /** Fields of a JSON object, their values as JSON text. */
  type Fields = map<string, string>

  datatype Event =
    | Snapshot(payload: Fields)
    | SessionReset(payload: Fields, items: seq<Item>)
    | Transcript(item: Item)
    | AssistantDelta(id: string, text: string, state: Option<string>)
    | TranscriptUpdate(id: string, text: string, state: Option<string>)
    | RecoveryAvailable(turn: nat, point: string)
    | Interaction(id: string)
    | InteractionClosed(id: string)
    | Notice(text: string, failed: bool)
    | TurnState(status: string, depth: Option<nat>)
    | Progress(status: string, detail: string)
    | Commands(commands: seq<string>)
    | WorkUpdated(field: string, value: string)
    | ResourceWait(reason: Option<string>)
    | Shutdown
    | OtherEvent(kind: string)

  datatype View = View(
    sequence: nat,
    items: seq<Item>,
    snapshot: Fields,
    interaction: Option<string>,
    work: Fields,
    turnState: string,
    queueDepth: nat,
    commands: seq<string>,
    waitingReason: Option<string>)

  const EMPTY := View(0, [], map[], None, map[], "idle", 0, [], None)

  // ---------------------------------------------------------------------------------
  // What an event means for a view
  // ---------------------------------------------------------------------------------

  function Each(items: seq<Item>, update: Item -> Item): (updated: seq<Item>)
    ensures |updated| == |items|
  {
    seq(|items|, k requires 0 <= k < |items| => update(items[k]))
  }

  function Position(items: seq<Item>, id: string): (position: Option<nat>)
    ensures position.Some? ==> position.value < |items| && items[position.value].id == id
  {
    if items == [] then None
    else if items[0].id == id then Some(0)
    else match Position(items[1..], id) case None => None case Some(p) => Some(p + 1)
  }

  function Stored(items: seq<Item>, item: Item): seq<Item> {
    match Position(items, item.id)
    case None => items + [item]
    case Some(p) => items[p := item]
  }

  /** The server takes an empty state for none. */
  predicate Given(state: Option<string>) {
    state.Some? && state.value != ""
  }

  function Written(item: Item, id: string, text: string, append: bool, state: Option<string>): Item {
    if item.id != id then item
    else item.(body := if append then item.body + text else text, state := if Given(state) then state else item.state)
  }

  const ORIGIN := "recovery-origin"
  const ORIGIN_TITLE := "\U{4F1A}\U{8BDD}\U{5F00}\U{59CB}"
  const ERROR_TITLE := "\U{9519}\U{8BEF}"
  const HINT_TITLE := "\U{63D0}\U{793A}"

  function Others(items: seq<Item>, id: string): seq<Item> {
    if items == [] then [] else (if items[0].id == id then [] else [items[0]]) + Others(items[1..], id)
  }

  function Pointed(item: Item, turn: nat, point: string): Item {
    if item.group && item.turn == Some(turn) then item.(point := Some(point)) else item
  }

  function OriginItem(point: string): Item {
    Item(ORIGIN, "status", ORIGIN_TITLE, "", None, false, Some(0), Some(point))
  }

  function NoticeItem(id: string, text: string, failed: bool): Item {
    Item(id, if failed then "error" else "status", if failed then ERROR_TITLE else HINT_TITLE, text,
         Some(if failed then "failed" else "success"), false, None, None)
  }

  function NoticeId(sequence: nat): string {
    "notice-" + Messages.Digits(sequence + 1)
  }

  function Content(view: View, event: Event): View {
    match event
    case Snapshot(payload) => view.(snapshot := payload)
    case SessionReset(payload, items) => view.(snapshot := payload, items := items, work := map[])
    case Transcript(item) => view.(items := Stored(view.items, item))
    case AssistantDelta(id, text, state) => view.(items := Each(view.items, item => Written(item, id, text, true, state)))
    case TranscriptUpdate(id, text, state) => view.(items := Each(view.items, item => Written(item, id, text, false, state)))
    case RecoveryAvailable(turn, point) =>
      var items := if turn == 0 then [OriginItem(point)] + Others(view.items, ORIGIN) else view.items;
      view.(items := Each(items, item => Pointed(item, turn, point)))
    case Interaction(id) => view.(interaction := Some(id))
    case InteractionClosed(id) => if view.interaction == Some(id) then view.(interaction := None) else view
    case Notice(text, failed) => view.(items := view.items + [NoticeItem(NoticeId(view.sequence), text, failed)])
    case TurnState(status, depth) => view.(turnState := status, queueDepth := if depth.Some? then depth.value else 0)
    case Progress(_, _) => view
    case Commands(commands) => view.(commands := commands)
    case WorkUpdated(field, value) => view.(work := view.work[field := value])
    case ResourceWait(reason) => view.(waitingReason := reason)
    case Shutdown => view
    case OtherEvent(_) => view
  }

  /** A notice adds one row at the end, with the next number, its text, and its kind. */
  lemma NoticeAppends(view: View, text: string, failed: bool)
    ensures
      var next := Content(view, Notice(text, failed));
      && |next.items| == |view.items| + 1 && next.items[..|view.items|] == view.items
      && next == view.(items := next.items)
      && var row := next.items[|view.items|];
         && row.id == "notice-" + Messages.Digits(view.sequence + 1) && row.body == text
         && row.kind == (if failed then "error" else "status") && row.state == Some(if failed then "failed" else "success")
  {
  }

  /** A turn state sets status and depth, 0 when none is given, and nothing else. */
  lemma TurnStateSets(view: View, status: string, depth: Option<nat>)
    ensures Content(view, TurnState(status, depth)) == view.(turnState := status, queueDepth := match depth case Some(d) => d case None => 0)
    ensures Content(view, InteractionClosed(status)).interaction == if view.interaction == Some(status) then None else view.interaction
  {
  }

  /** A recovery point for the start of the session is the first row, and the only one with
      its id; the rows of its turn carry the point. */
  lemma RecoveryMarks(view: View, turn: nat, point: string)
    ensures
      var items := Content(view, RecoveryAvailable(turn, point)).items;
      && (turn == 0 ==> items != [] && items[0].id == ORIGIN && items[0].point == Some(point)
                        && forall k :: 0 < k < |items| ==> items[k].id != ORIGIN)
      && (forall k :: 0 <= k < |items| && items[k].group && items[k].turn == Some(turn) ==> items[k].point == Some(point))
      && (turn != 0 ==> |items| == |view.items|)
      && (turn != 0 ==> forall k :: 0 <= k < |items| && !(items[k].group && items[k].turn == Some(turn)) ==> items[k] == view.items[k])
  {
    OthersExactly(view.items, ORIGIN);
  }

  lemma {:induction false} OthersExactly(items: seq<Item>, id: string)
    ensures forall item :: item in Others(items, id) <==> item in items && item.id != id
    decreases |items|
  {
    if items != [] {
      OthersExactly(items[1..], id);
      assert forall item :: item in items <==> item == items[0] || item in items[1..];
    }
  }

  /** A published event, as it goes out. */
  datatype Emission = Emission(session: Id, sequence: nat, event: Event)

  function Applied(view: View, event: Event): View {
    Content(view, event).(sequence := view.sequence + 1)
  }

  function Replay(view: View, sent: seq<Emission>): View {
    if sent == [] then view else Applied(Replay(view, sent[..|sent| - 1]), sent[|sent| - 1].event)
  }

  predicate Consecutive(sent: seq<Emission>) {
    forall k :: 0 <= k < |sent| ==> sent[k].sequence == k + 1
  }

  lemma {:induction false} ReplayCounts(sent: seq<Emission>)
    ensures Replay(EMPTY, sent).sequence == |sent|
    decreases |sent|
  {
    if sent != [] {
      ReplayCounts(sent[..|sent| - 1]);
    }
  }

  // ---------------------------------------------------------------------------------
  // The registry
  // ---------------------------------------------------------------------------------

  method UpdateEach(items: seq<Item>, id: string, text: string, append: bool, state: Option<string>) returns (updated: seq<Item>)
    ensures updated == Each(items, item => Written(item, id, text, append, state))
  {
    updated := items;
    for k := 0 to |items|
      invariant |updated| == |items|
      invariant forall i :: 0 <= i < k ==> updated[i] == Written(items[i], id, text, append, state)
      invariant forall i :: k <= i < |items| ==> updated[i] == items[i]
    {
      var item := updated[k];
      if item.id == id {
        item := item.(body := if append then item.body + text else text);
        if Given(state) {
          item := item.(state := state);
        }
        updated := updated[k := item];
      }
    }
  }

  method DropItem(items: seq<Item>, id: string) returns (rest: seq<Item>)
    ensures rest == Others(items, id)
  {
    rest := [];
    for k := 0 to |items|
      invariant rest + Others(items[k..], id) == Others(items, id)
    {
      assert items[k..][1..] == items[k + 1..];
      if items[k].id != id {
        rest := rest + [items[k]];
      }
    }
  }

  method MarkRecovery(items: seq<Item>, turn: nat, point: string) returns (marked: seq<Item>)
    ensures marked == Each(items, item => Pointed(item, turn, point))
  {
    marked := items;
    for k := 0 to |items|
      invariant |marked| == |items|
      invariant forall i :: 0 <= i < k ==> marked[i] == Pointed(items[i], turn, point)
      invariant forall i :: k <= i < |items| ==> marked[i] == items[i]
    {
      if marked[k].group && marked[k].turn == Some(turn) {
        marked := marked[k := marked[k].(point := Some(point))];
      }
    }
  }

  method Store(items: seq<Item>, item: Item) returns (stored: seq<Item>)
    ensures stored == Stored(items, item)
  {
    var i := 0;
    while i < |items| && items[i].id != item.id
      invariant 0 <= i <= |items|
      invariant Position(items, item.id) == match Position(items[i..], item.id) case None => None case Some(p) => Some(p + i)
    {
      assert items[i..][1..] == items[i + 1..];
      i := i + 1;
    }
    if i == |items| {
      assert items[i..] == [];
      stored := items + [item];
    } else {
      assert items[i..][0] == items[i];
      stored := items[i := item];
    }
  }

  /** The branches of `publish` that change the view. */
  method Change(view: View, event: Event) returns (changed: View)
    ensures changed == Content(view, event)
  {
    changed := view;
    match event {
      case Snapshot(payload) =>
        changed := changed.(snapshot := payload);
      case SessionReset(payload, items) =>
        changed := changed.(snapshot := payload);
        changed := changed.(items := items, work := map[]);
      case Transcript(item) =>
        var items := Store(view.items, item);
        changed := changed.(items := items);
      case AssistantDelta(target, text, state) =>
        var items := UpdateEach(view.items, target, text, true, state);
        changed := changed.(items := items);
      case TranscriptUpdate(target, text, state) =>
        var items := UpdateEach(view.items, target, text, false, state);
        changed := changed.(items := items);
      case RecoveryAvailable(turn, point) =>
        var items := view.items;
        if turn == 0 {
          items := DropItem(items, ORIGIN);
          items := [OriginItem(point)] + items;
        }
        items := MarkRecovery(items, turn, point);
        changed := changed.(items := items);
      case Interaction(id) =>
        changed := changed.(interaction := Some(id));
      case Notice(text, failed) =>
        var id := "notice-" + Messages.Digits(view.sequence + 1);
        changed := changed.(items := changed.items + [NoticeItem(id, text, failed)]);
      case InteractionClosed(id) =>
        if view.interaction.Some? && view.interaction.value == id {
          changed := changed.(interaction := None);
        }
      case TurnState(status, depth) =>
        changed := changed.(turnState := status);
        changed := changed.(queueDepth := match depth case Some(d) => d case None => 0);
      case Commands(commands) =>
        changed := changed.(commands := commands);
      case WorkUpdated(field, value) =>
        changed := changed.(work := changed.work[field := value]);
      case ResourceWait(reason) =>
        changed := changed.(waitingReason := reason);
      case Progress(_, _) =>
      case Shutdown =>
      case OtherEvent(_) =>
    }
  }

  /** Every view is the replay of what was emitted, under consecutive numbers. */
  ghost predicate Replayed(views: map<Id, View>, sent: map<Id, seq<Emission>>) {
    && views.Keys == sent.Keys
    && forall id :: id in views ==> Consecutive(sent[id]) && views[id] == Replay(EMPTY, sent[id])
  }

  lemma PublishReplayed(views: map<Id, View>, sent: map<Id, seq<Emission>>, id: Id, event: Event)
    requires Replayed(views, sent) && id in views
    ensures id in sent && Content(views[id], event).sequence == views[id].sequence
    ensures var emission := Emission(id, views[id].sequence + 1, event);
            Replayed(views[id := Applied(views[id], event)], sent[id := sent[id] + [emission]])
  {
    ReplayNext(sent[id], Emission(id, views[id].sequence + 1, event));
    assert Content(views[id], event).sequence == views[id].sequence;
    hide Content, Replay, Consecutive;
  }

  lemma DropReplayed(views: map<Id, View>, sent: map<Id, seq<Emission>>, id: Id)
    requires Replayed(views, sent)
    ensures Replayed(views - {id}, sent - {id})
    ensures Replayed(views[id := EMPTY], sent[id := []])
  {
    assert Replay(EMPTY, []) == EMPTY;
    hide Content, Replay;
  }

  /** One more emission. */
  lemma ReplayNext(sent: seq<Emission>, emission: Emission)
    ensures Replay(EMPTY, sent + [emission]) == Applied(Replay(EMPTY, sent), emission.event)
    ensures Consecutive(sent) && emission.sequence == Replay(EMPTY, sent).sequence + 1 ==> Consecutive(sent + [emission])
  {
    hide Content;
    assert (sent + [emission])[..|sent + [emission]| - 1] == sent;
    ReplayCounts(sent);
  }

  function Without(order: seq<Id>, id: Id): (rest: seq<Id>)
    ensures forall other :: other in rest <==> other in order && other != id
  {
    if order == [] then []
    else
      var rest := Without(order[1..], id);
      assert forall other :: other in order <==> other == order[0] || other in order[1..];
      if order[0] == id then rest else [order[0]] + rest
  }

  /** The sessions in order are those with a view and a visibility. */
  ghost predicate Indexed(order: seq<Id>, visible: map<Id, bool>, views: map<Id, View>) {
    visible.Keys == views.Keys && forall id :: id in order <==> id in views
  }

  lemma IndexedWithout(order: seq<Id>, visible: map<Id, bool>, views: map<Id, View>, id: Id)
    requires Indexed(order, visible, views)
    ensures Indexed(Without(order, id), visible - {id}, views - {id})
  {
    hide Without;
  }

  lemma IndexedUpdate(order: seq<Id>, visible: map<Id, bool>, views: map<Id, View>, id: Id, view: View)
    requires Indexed(order, visible, views) && id in views
    ensures Indexed(order, visible, views[id := view])
  {
    assert views[id := view].Keys == views.Keys;
  }

  predicate IsShown(visible: map<Id, bool>, id: Id) {
    id in visible && visible[id]
  }

  /** The view after one more event, under the next number. */
  method Advance(view: View, event: Event) returns (next: View)
    ensures next == Applied(view, event) && next.sequence == view.sequence + 1
  {
    next := Change(view, event);
    hide Content;
    next := next.(sequence := view.sequence + 1);
  }

  /** The first visible session in order of creation. */
  function FirstShown(order: seq<Id>, visible: map<Id, bool>): (first: Option<Id>)
    ensures first.Some? ==> first.value in order && IsShown(visible, first.value)
    ensures first.None? ==> forall id :: id in order ==> !IsShown(visible, id)
  {
    if order == [] then None
    else if IsShown(visible, order[0]) then Some(order[0])
    else FirstShown(order[1..], visible)
  }

  class SessionRuntimeRegistry {
    /** Session ids in order of creation, with their visibility. */
    var order: seq<Id>
    var visible: map<Id, bool>
    var views: map<Id, View>
    var activeId: Option<Id>
    /** What was emitted for each session since it was created. */
    ghost var sent: map<Id, seq<Emission>>

    constructor ()
      ensures Valid() && order == [] && activeId == None
    {
      order, visible, views, activeId, sent := [], map[], map[], None, map[];
    }

    /** Every view is the replay of what was emitted, numbers are consecutive, and the active
        session is absent or visible and present. */
    ghost predicate Valid()
      reads this
    {
      && Tracked()
      && (activeId.Some? ==> activeId.value in visible && visible[activeId.value])
    }

    ghost predicate Tracked()
      reads this`order, this`visible, this`views, this`sent
    {
      Indexed(order, visible, views) && Replayed(views, sent)
    }

    method Publish(id: Id, event: Event) returns (emitted: Option<Emission>)
      requires Valid()
      modifies this`views, this`sent
      ensures Valid()
      ensures emitted.Some? <==> id in old(views) && !event.Shutdown?
      ensures emitted.None? ==> views == old(views) && sent == old(sent)
      ensures emitted.Some? ==>
        && views == old(views)[id := Applied(old(views)[id], event)]
        && emitted.value == Emission(id, views[id].sequence, event)
        && sent == old(sent)[id := old(sent)[id] + [emitted.value]]
    {
      hide Content, Applied, Replayed, Indexed;
      if id !in views || event.Shutdown? {
        return None;
      }
      var view := Advance(views[id], event);
      PublishReplayed(views, sent, id, event);
      var emission := Emission(id, view.sequence, event);
      Put(id, view, emission);
      emitted := Some(emission);
    }

    method Put(id: Id, view: View, ghost emission: Emission)
      requires Tracked() && id in views && id in sent
      requires Replayed(views[id := view], sent[id := sent[id] + [emission]])
      modifies this`views, this`sent
      ensures Tracked() && views == old(views)[id := view] && sent == old(sent)[id := old(sent)[id] + [emission]]
    {
      IndexedUpdate(order, visible, views, id, view);
      hide Replayed, Indexed;
      views := views[id := view];
      sent := sent[id := sent[id] + [emission]];
    }

    /** `snapshot`: what is sent as a whole view. */
    method Snapshot(id: Id) returns (view: Option<View>)
      requires Valid()
      ensures view == if id in views then Some(views[id]) else None
    {
      view := None;
      if id in views {
        view := Some(views[id]);
      }
    }

    method FirstVisible() returns (first: Option<Id>)
      requires Tracked()
      ensures first == FirstShown(order, visible)
    {
      for k := 0 to |order|
        invariant FirstShown(order, visible) == FirstShown(order[k..], visible)
      {
        assert order[k..][1..] == order[k + 1..];
        if visible[order[k]] {
          return Some(order[k]);
        }
      }
      return None;
    }

    /** `create` up to the call of the factory. */
    method BeginCreate(id: Id) returns (previous: Option<Id>, isNew: bool)
      requires Valid()
      modifies this
      ensures Valid() && isNew == (id !in old(views)) && previous == old(activeId) && activeId == Some(id)
      ensures isNew ==> views == old(views)[id := EMPTY] && order == old(order) + [id]
      ensures !isNew ==> views == old(views) && order == old(order)
      ensures visible == old(visible)[id := true]
    {
      previous, isNew := activeId, id !in views;
      if isNew {
        DropReplayed(views, sent, id);
        order := order + [id];
        views := views[id := EMPTY];
        sent := sent[id := []];
      }
      visible := visible[id := true];
      activeId := Some(id);
    }

    predicate Shown(id: Option<Id>)
      reads this`visible
    {
      id.Some? && id.value in visible && visible[id.value]
    }

    /** The factory failed, whatever happened meanwhile: the session goes, and the active
        session is the previous one if it is still visible, else the first visible one. */
    method RollBackCreate(id: Id, previous: Option<Id>)
      requires Valid()
      modifies this
      ensures Valid() && views == old(views) - {id} && activeId != Some(id)
      ensures order == Without(old(order), id) && visible == old(visible) - {id}
      ensures activeId == if old(activeId) != Some(id) then old(activeId)
                          else if Shown(previous) then previous else FirstShown(order, visible)
    {
      hide Replayed;
      Forget(id);
      if activeId == Some(id) {
        activeId := None;
        if Shown(previous) {
          activeId := previous;
        } else {
          activeId := FirstVisible();
        }
      }
    }

    method Forget(id: Id)
      requires Tracked()
      modifies this`order, this`visible, this`views, this`sent
      ensures Tracked() && views == old(views) - {id} && visible == old(visible) - {id} && order == Without(old(order), id)
    {
      DropReplayed(views, sent, id);
      IndexedWithout(order, visible, views, id);
      hide *;
      order := Without(order, id);
      visible, views, sent := visible - {id}, views - {id}, sent - {id};
    }

    method Switch(id: Id) returns (known: bool)
      requires Valid()
      modifies this`visible, this`activeId
      ensures Valid() && known == (id in views)
      ensures known ==> activeId == Some(id) && visible == old(visible)[id := true]
      ensures !known ==> activeId == old(activeId) && visible == old(visible)
    {
      known := id in views;
      if known {
        visible := visible[id := true];
        activeId := Some(id);
      }
    }

    method Hide(id: Id) returns (known: bool)
      requires Valid()
      modifies this`visible, this`activeId
      ensures Valid() && known == (id in views) && (known ==> activeId != Some(id))
      ensures visible == if known then old(visible)[id := false] else old(visible)
      ensures activeId == if known && old(activeId) == Some(id) then FirstShown(order, visible) else old(activeId)
    {
      hide Replayed;
      known := id in views;
      if known {
        visible := visible[id := false];
        if activeId == Some(id) {
          activeId := None;
          activeId := FirstVisible();
        }
      }
    }
  }
}
