/**
 The live feed: what a client has to apply to get from one home payload to the next. Payloads
 hold four keyed collections; an item whose key is empty is invisible to the feed.
 */
module LiveDiff {
  /** JSON content, compared only for equality. */
  type Json = nat

  datatype Item = Item(key: string, body: Json)

  /** `rest` is everything the feed does not report on. */
  datatype Payload = Payload(connection: Json, now: Json, calls: Json, rest: Json,
                             signals: seq<Item>, people: seq<Item>, trunks: seq<Item>, queues: seq<Item>)

  datatype Kind = Signals | People | Trunks | Queues

  /** For people, trunks and queues both go out under one event type. */
  datatype Change = Created(item: Item) | Updated(item: Item)

  datatype Event =
    | HomeSnapshot(payload: Payload)
    | ConnectionUpdated(data: Json)
    | CallUpdated(data: Json)
    | CallsUpdated(data: Json)
    | ItemChanged(kind: Kind, change: Change)
    | SignalRemoved(key: string)
    | Heartbeat

  type Keyed = map<string, Item>

  /** What a client keeps. */
  datatype View = View(connection: Json, now: Json, calls: Json, signals: Keyed, people: Keyed, trunks: Keyed,
                       queues: Keyed)

  function Of(v: View, kind: Kind): Keyed {
    match kind
    case Signals => v.signals
    case People => v.people
    case Trunks => v.trunks
    case Queues => v.queues
  }

  function With(v: View, kind: Kind, m: Keyed): View {
    match kind
    case Signals => v.(signals := m)
    case People => v.(people := m)
    case Trunks => v.(trunks := m)
    case Queues => v.(queues := m)
  }

  /** The keyed view of a collection; of several items with one key the last counts. */
  function ByKey(items: seq<Item>): Keyed {
    if items == [] then map[]
    else
      var before, item := ByKey(items[..|items| - 1]), items[|items| - 1];
      if item.key == "" then before else before[item.key := item]
  }

  function ViewOf(p: Payload): View {
    View(p.connection, p.now, p.calls, ByKey(p.signals), ByKey(p.people), ByKey(p.trunks), ByKey(p.queues))
  }

  // ---------------------------------------------------------------- the client

  function Patched(m: Keyed, changes: seq<Change>): Keyed {
    if changes == [] then m
    else
      var item := changes[|changes| - 1].item;
      Patched(m, changes[..|changes| - 1])[item.key := item]
  }

  function Applied(v: View, e: Event): View {
    match e
    case HomeSnapshot(p) => ViewOf(p)
    case ConnectionUpdated(data) => v.(connection := data)
    case CallUpdated(data) => v.(now := data)
    case CallsUpdated(data) => v.(calls := data)
    case ItemChanged(kind, change) => With(v, kind, Of(v, kind)[change.item.key := change.item])
    case SignalRemoved(key) => v.(signals := v.signals - {key})
    case Heartbeat => v
  }

  function Replayed(v: View, events: seq<Event>): View {
    if events == [] then v else Applied(Replayed(v, events[..|events| - 1]), events[|events| - 1])
  }

  lemma {:induction false} ReplayedInTurn(v: View, a: seq<Event>, b: seq<Event>)
    ensures Replayed(v, a + b) == Replayed(Replayed(v, a), b)
  {
    if b == [] {
      assert a + b == a;
    } else {
      assert (a + b)[..|a + b| - 1] == a + b[..|b| - 1];
      ReplayedInTurn(v, a, b[..|b| - 1]);
    }
  }

  // ---------------------------------------------------------------- the difference

  function ChangeOf(previous: Keyed, item: Item): seq<Change> {
    if item.key == "" then []
    else if item.key !in previous then [Created(item)]
    else if previous[item.key] != item then [Updated(item)]
    else []
  }

  function Changes(previous: Keyed, current: seq<Item>): seq<Change> {
    if current == [] then []
    else Changes(previous, current[..|current| - 1]) + ChangeOf(previous, current[|current| - 1])
  }

  function Gone(previous: seq<Item>, current: Keyed): seq<string> {
    if previous == [] then []
    else
      var before, key := Gone(previous[..|previous| - 1], current), previous[|previous| - 1].key;
      if key == "" || key in current then before else before + [key]
  }

  function Tagged(kind: Kind, changes: seq<Change>): seq<Event> {
    seq(|changes|, i requires 0 <= i < |changes| => ItemChanged(kind, changes[i]))
  }

  function Removals(keys: seq<string>): seq<Event> {
    seq(|keys|, i requires 0 <= i < |keys| => SignalRemoved(keys[i]))
  }

  method CollectionEvents(previous: seq<Item>, current: seq<Item>, kind: Kind) returns (events: seq<Event>)
    ensures events == Tagged(kind, Changes(ByKey(previous), current))
  {
    var previousByKey: Keyed := map[];
    for i := 0 to |previous|
      invariant previousByKey == ByKey(previous[..i])
    {
      assert previous[..i + 1][..i] == previous[..i];
      if previous[i].key != "" {
        previousByKey := previousByKey[previous[i].key := previous[i]];
      }
    }
    assert previous[..|previous|] == previous;
    events := [];
    for i := 0 to |current|
      invariant events == Tagged(kind, Changes(previousByKey, current[..i]))
    {
      assert current[..i + 1][..i] == current[..i];
      var item := current[i];
      if item.key != "" {
        if item.key !in previousByKey {
          events := events + [ItemChanged(kind, Created(item))];
        } else if previousByKey[item.key] != item {
          events := events + [ItemChanged(kind, Updated(item))];
        }
      }
    }
    assert current[..|current|] == current;
  }

  method RemovedKeys(previous: seq<Item>, current: seq<Item>) returns (keys: seq<string>)
    ensures keys == Gone(previous, ByKey(current))
  {
    var currentKeys := set item | item in current && item.key != "" :: item.key;
    KeysOf(current);
    keys := [];
    for i := 0 to |previous|
      invariant keys == Gone(previous[..i], ByKey(current))
    {
      assert previous[..i + 1][..i] == previous[..i];
      if previous[i].key != "" && previous[i].key !in currentKeys {
        keys := keys + [previous[i].key];
      }
    }
    assert previous[..|previous|] == previous;
  }

  lemma {:induction false} KeysOf(items: seq<Item>)
    ensures ByKey(items).Keys == set item | item in items && item.key != "" :: item.key
  {
    if items != [] {
      var before, item := items[..|items| - 1], items[|items| - 1];
      KeysOf(before);
      assert items == before + [item];
    }
  }

  /** Older clients do not know removals of these: the whole state is replaced. */
  predicate Replaces(previous: Payload, current: Payload) {
    || Gone(previous.people, ByKey(current.people)) != []
    || Gone(previous.trunks, ByKey(current.trunks)) != []
    || Gone(previous.queues, ByKey(current.queues)) != []
  }

  function SignalEvents(previous: seq<Item>, current: seq<Item>): seq<Event> {
    Tagged(Signals, Changes(ByKey(previous), current)) + Removals(Gone(previous, ByKey(current)))
  }

  function Upserts(kind: Kind, previous: seq<Item>, current: seq<Item>): seq<Event> {
    Tagged(kind, Changes(ByKey(previous), current))
  }

  function Scalars(previous: Payload, current: Payload): seq<Event> {
    (if previous.connection != current.connection then [ConnectionUpdated(current.connection)] else [])
    + (if previous.now != current.now then [CallUpdated(current.now)] else [])
  }

  function CallEvents(previous: Payload, current: Payload): seq<Event> {
    if previous.calls != current.calls then [CallsUpdated(current.calls)] else []
  }

  function LiveEvents(previous: Payload, current: Payload): seq<Event> {
    if Replaces(previous, current) then [HomeSnapshot(current)]
    else
      Scalars(previous, current)
      + SignalEvents(previous.signals, current.signals)
      + CallEvents(previous, current)
      + Upserts(People, previous.people, current.people)
      + Upserts(Trunks, previous.trunks, current.trunks)
      + Upserts(Queues, previous.queues, current.queues)
  }

  // ---------------------------------------------------------------- which events are due, item by item

  predicate Carries(items: seq<Item>, k: string) { exists item :: item in items && item.key == k }

  /** No item had this key before. */
  predicate IsNew(previous: seq<Item>, item: Item) { item.key != "" && !Carries(previous, item.key) }

  /** The last item that had this key before was another one. */
  predicate IsOther(previous: seq<Item>, item: Item) {
    && item.key != ""
    && exists i :: 0 <= i < |previous| && IsLastOf(previous, i) && previous[i].key == item.key && previous[i] != item
  }

  predicate IsLastOf(items: seq<Item>, i: nat)
    requires i < |items|
  {
    forall j :: i < j < |items| ==> items[j].key != items[i].key
  }

  predicate IsGone(previous: seq<Item>, current: seq<Item>, k: string) {
    k != "" && Carries(previous, k) && !Carries(current, k)
  }

  predicate ChangeIsDue(previous: seq<Item>, current: seq<Item>, c: Change) {
    c.item in current && if c.Created? then IsNew(previous, c.item) else IsOther(previous, c.item)
  }

  /** A person, trunk or queue is gone, which older clients cannot be told. */
  ghost predicate SomebodyIsGone(previous: Payload, current: Payload) {
    exists k :: IsGone(previous.people, current.people, k) || IsGone(previous.trunks, current.trunks, k) ||
                IsGone(previous.queues, current.queues, k)
  }

  /** What calls for this event. */
  predicate IsDue(previous: Payload, current: Payload, e: Event) {
    match e
    case HomeSnapshot(_) => false
    case ConnectionUpdated(data) => previous.connection != current.connection && data == current.connection
    case CallUpdated(data) => previous.now != current.now && data == current.now
    case CallsUpdated(data) => previous.calls != current.calls && data == current.calls
    case ItemChanged(Signals, c) => ChangeIsDue(previous.signals, current.signals, c)
    case ItemChanged(People, c) => ChangeIsDue(previous.people, current.people, c)
    case ItemChanged(Trunks, c) => ChangeIsDue(previous.trunks, current.trunks, c)
    case ItemChanged(Queues, c) => ChangeIsDue(previous.queues, current.queues, c)
    case SignalRemoved(k) => IsGone(previous.signals, current.signals, k)
    case Heartbeat => false
  }

  /** The order of events: connection, call, signals, their removals, calls, people, trunks, queues. */
  function Place(e: Event): nat {
    match e
    case ConnectionUpdated(_) => 0
    case CallUpdated(_) => 1
    case ItemChanged(Signals, _) => 2
    case SignalRemoved(_) => 3
    case CallsUpdated(_) => 4
    case ItemChanged(People, _) => 5
    case ItemChanged(Trunks, _) => 6
    case ItemChanged(Queues, _) => 7
    case HomeSnapshot(_) => 8
    case Heartbeat => 9
  }

  ghost predicate InTurn(events: seq<Event>) {
    forall i, j :: 0 <= i < j < |events| ==> Place(events[i]) <= Place(events[j])
  }

  /** The whole state when somebody is gone; otherwise every event that is due, no other, each in its turn. */
  ghost predicate AreDue(previous: Payload, current: Payload, events: seq<Event>) {
    if SomebodyIsGone(previous, current) then events == [HomeSnapshot(current)]
    else InTurn(events) && forall e :: e in events <==> IsDue(previous, current, e)
  }

  lemma {:induction false} ByKeyIsLast(items: seq<Item>, k: string)
    ensures k in ByKey(items) <==> k != "" && Carries(items, k)
    ensures k in ByKey(items) ==> exists i :: 0 <= i < |items| && items[i] == ByKey(items)[k] && IsLastOf(items, i)
    ensures forall i :: 0 <= i < |items| && items[i].key == k != "" && IsLastOf(items, i) ==>
      ByKey(items)[k] == items[i]
    ensures k in ByKey(items) ==> ByKey(items)[k].key == k
  {
    if items != [] {
      var n := |items| - 1;
      var before := items[..n];
      ByKeyIsLast(before, k);
      assert items == before + [items[n]];
      assert IsLastOf(items, n);
      assert forall i :: 0 <= i < n ==> items[i] == before[i];
      if items[n].key != k {
        assert forall i :: 0 <= i < n && items[i].key == k ==> (IsLastOf(items, i) <==> IsLastOf(before, i));
      }
    }
  }

  lemma {:induction false} ChangesAreDue(previous: seq<Item>, current: seq<Item>, c: Change)
    ensures c in Changes(ByKey(previous), current) <==> ChangeIsDue(previous, current, c)
  {
    if current != [] {
      var n := |current| - 1;
      ChangesAreDue(previous, current[..n], c);
      assert current == current[..n] + [current[n]];
      ByKeyIsLast(previous, c.item.key);
      hide ByKey, Carries, IsLastOf;
      assert c in ChangeOf(ByKey(previous), current[n]) <==> ChangeIsDue(previous, [current[n]], c);
    }
  }

  lemma {:induction false} GoneAreDue(previous: seq<Item>, current: seq<Item>, k: string)
    ensures k in Gone(previous, ByKey(current)) <==> IsGone(previous, current, k)
  {
    ByKeyIsLast(current, k);
    if previous != [] {
      GoneAreDue(previous[..|previous| - 1], current, k);
      assert previous == previous[..|previous| - 1] + [previous[|previous| - 1]];
    }
  }

  lemma TaggedAre(kind: Kind, changes: seq<Change>, e: Event)
    ensures e in Tagged(kind, changes) <==> e.ItemChanged? && e.kind == kind && e.change in changes
  {
    if e.ItemChanged? && e.kind == kind && e.change in changes {
      var i :| 0 <= i < |changes| && changes[i] == e.change;
      assert Tagged(kind, changes)[i] == e;
    }
  }

  lemma RemovalsAre(keys: seq<string>, e: Event)
    ensures e in Removals(keys) <==> e.SignalRemoved? && e.key in keys
  {
    if e.SignalRemoved? && e.key in keys {
      var i :| 0 <= i < |keys| && keys[i] == e.key;
      assert Removals(keys)[i] == e;
    }
  }

  lemma UpsertsAreDue(kind: Kind, previous: seq<Item>, current: seq<Item>, e: Event)
    ensures e in Upserts(kind, previous, current) <==>
      e.ItemChanged? && e.kind == kind && ChangeIsDue(previous, current, e.change)
  {
    TaggedAre(kind, Changes(ByKey(previous), current), e);
    if e.ItemChanged? { ChangesAreDue(previous, current, e.change); }
  }

  lemma SignalsAreDue(previous: seq<Item>, current: seq<Item>, e: Event)
    ensures e in SignalEvents(previous, current) <==>
      || (e.ItemChanged? && e.kind == Signals && ChangeIsDue(previous, current, e.change))
      || (e.SignalRemoved? && IsGone(previous, current, e.key))
  {
    UpsertsAreDue(Signals, previous, current, e);
    RemovalsAre(Gone(previous, ByKey(current)), e);
    if e.SignalRemoved? { GoneAreDue(previous, current, e.key); }
    hide Changes, Gone, ByKey, Tagged, Removals, ChangeIsDue, IsGone;
  }

  lemma EventIsDue(previous: Payload, current: Payload, e: Event)
    requires !Replaces(previous, current)
    ensures e in LiveEvents(previous, current) <==> IsDue(previous, current, e)
  {
    SignalsAreDue(previous.signals, current.signals, e);
    UpsertsAreDue(People, previous.people, current.people, e);
    UpsertsAreDue(Trunks, previous.trunks, current.trunks, e);
    UpsertsAreDue(Queues, previous.queues, current.queues, e);
    hide Replaces, Upserts, SignalEvents, ChangeIsDue, IsGone;
  }

  lemma ReplacesIsSaid(previous: Payload, current: Payload)
    ensures Replaces(previous, current) <==> SomebodyIsGone(previous, current)
  {
    SomeGone(previous.people, current.people);
    SomeGone(previous.trunks, current.trunks);
    SomeGone(previous.queues, current.queues);
    hide IsGone, Gone, ByKey;
  }

  lemma SomeGone(previous: seq<Item>, current: seq<Item>)
    ensures Gone(previous, ByKey(current)) != [] <==> exists k :: IsGone(previous, current, k)
  {
    var gone := Gone(previous, ByKey(current));
    forall k ensures k in gone <==> IsGone(previous, current, k) { GoneAreDue(previous, current, k); }
    if gone != [] { assert gone[0] in gone; }
  }

  /** Events of one kind after another stay in turn. */
  lemma TurnsJoin(a: seq<Event>, b: seq<Event>, at: nat)
    requires InTurn(a) && InTurn(b)
    requires (forall e :: e in a ==> Place(e) <= at) && forall e :: e in b ==> at < Place(e)
    ensures InTurn(a + b)
  {
    hide Place;
    assert forall i :: 0 <= i < |a| ==> a[i] in a;
    assert forall i :: 0 <= i < |b| ==> b[i] in b;
  }

  lemma OneTurnEach(events: seq<Event>, at: nat)
    requires forall e :: e in events ==> Place(e) == at
    ensures InTurn(events)
  {
    hide Place;
    assert forall i :: 0 <= i < |events| ==> events[i] in events;
  }

  lemma UpsertsTurn(kind: Kind, previous: seq<Item>, current: seq<Item>, at: nat)
    requires at == match kind case Signals => 2 case People => 5 case Trunks => 6 case Queues => 7
    ensures InTurn(Upserts(kind, previous, current)) && forall e :: e in Upserts(kind, previous, current) ==>
      Place(e) == at
  {
    forall e | e in Upserts(kind, previous, current) ensures Place(e) ==
      at { UpsertsAreDue(kind, previous, current, e); }
    OneTurnEach(Upserts(kind, previous, current), at);
  }

  lemma SignalsTurn(previous: seq<Item>, current: seq<Item>)
    ensures InTurn(SignalEvents(previous, current))
    ensures forall e :: e in SignalEvents(previous, current) ==> 2 <= Place(e) <= 3
  {
    UpsertsTurn(Signals, previous, current, 2);
    var removals := Removals(Gone(previous, ByKey(current)));
    forall e | e in removals ensures Place(e) == 3 { RemovalsAre(Gone(previous, ByKey(current)), e); }
    OneTurnEach(removals, 3);
    TurnsJoin(Upserts(Signals, previous, current), removals, 2);
  }

  lemma EventsInTurn(previous: Payload, current: Payload)
    requires !Replaces(previous, current)
    ensures InTurn(LiveEvents(previous, current))
  {
    SignalsTurn(previous.signals, current.signals);
    UpsertsTurn(People, previous.people, current.people, 5);
    UpsertsTurn(Trunks, previous.trunks, current.trunks, 6);
    UpsertsTurn(Queues, previous.queues, current.queues, 7);
    var a, b := Scalars(previous, current), SignalEvents(previous.signals, current.signals);
    var c, p := CallEvents(previous, current), Upserts(People, previous.people, current.people);
    var t, q := Upserts(Trunks, previous.trunks, current.trunks), Upserts(Queues, previous.queues, current.queues);
    assert InTurn(a) && (forall e :: e in a ==> Place(e) <= 1) && InTurn(c) && forall e :: e in c ==> Place(e) == 4;
    hide Replaces, Upserts, SignalEvents, Scalars, CallEvents, Place, InTurn;
    TurnsJoin(a, b, 1);
    TurnsJoin(a + b, c, 3);
    TurnsJoin(a + b + c, p, 4);
    TurnsJoin(a + b + c + p, t, 5);
    TurnsJoin(a + b + c + p + t, q, 6);
  }

  /** The feed sends exactly what is due. */
  lemma LiveEventsAreDue(previous: Payload, current: Payload)
    ensures AreDue(previous, current, LiveEvents(previous, current))
  {
    ReplacesIsSaid(previous, current);
    if !Replaces(previous, current) {
      EventsInTurn(previous, current);
      forall e ensures e in LiveEvents(previous, current) <==> IsDue(previous, current, e) {
        EventIsDue(previous, current, e);
      }
      hide LiveEvents, IsDue, InTurn, Replaces;
    }
  }

  method HomeLiveEvents(previous: Payload, current: Payload) returns (events: seq<Event>)
    ensures events == LiveEvents(previous, current) && AreDue(previous, current, events)
  {
    LiveEventsAreDue(previous, current);
    hide Tagged, Changes, Gone, Removals, ByKey, AreDue;
    var people := RemovedKeys(previous.people, current.people);
    var trunks := RemovedKeys(previous.trunks, current.trunks);
    var queues := RemovedKeys(previous.queues, current.queues);
    if people != [] || trunks != [] || queues != [] {
      return [HomeSnapshot(current)];
    }
    events := [];
    if previous.connection != current.connection {
      events := events + [ConnectionUpdated(current.connection)];
    }
    assert events == Scalars(previous, current)[..|events|];
    if previous.now != current.now {
      events := events + [CallUpdated(current.now)];
    }
    assert events == Scalars(previous, current);
    var more := CollectionEvents(previous.signals, current.signals, Signals);
    var removed := RemovedKeys(previous.signals, current.signals);
    events := events + (more + Removals(removed));
    if previous.calls != current.calls {
      events := events + [CallsUpdated(current.calls)];
    }
    assert events == Scalars(previous, current) + SignalEvents(previous.signals, current.signals) +
      CallEvents(previous, current);
    more := CollectionEvents(previous.people, current.people, People);
    events := events + more;
    more := CollectionEvents(previous.trunks, current.trunks, Trunks);
    events := events + more;
    more := CollectionEvents(previous.queues, current.queues, Queues);
    events := events + more;
  }
}
