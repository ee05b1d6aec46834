/** Replaying the live feed reconstructs the payload, turn after turn. */
module LiveReplay {
  import opened LiveDiff

  /** Some item of the collection carries the key and is not what the client has under it. */
  ghost predicate Differs(previous: Keyed, current: seq<Item>, k: string) {
    exists item :: item in current && item.key == k && (k !in previous || item != previous[k])
  }

  /**
   The feed compares every item with the previous payload, so it misses a change only when a key
   occurs twice and its last item, the one that counts, is the old one.
   */
  ghost predicate FaithfulAt(previous: Keyed, current: seq<Item>, k: string) {
    k in ByKey(current) && k in previous && ByKey(current)[k] == previous[k] ==> !Differs(previous, current, k)
  }

  ghost predicate Faithful(previous: Keyed, current: seq<Item>) {
    forall k :: k in ByKey(current) ==> FaithfulAt(previous, current, k)
  }

  predicate UniqueKeys(items: seq<Item>) {
    forall i, j :: 0 <= i < j < |items| && items[i].key != "" ==> items[i].key != items[j].key
  }

  // ---------------------------------------------------------------- one collection

  lemma {:induction false} PatchedInTurn(m: Keyed, a: seq<Change>, b: seq<Change>)
    ensures Patched(m, a + b) == Patched(Patched(m, a), b)
  {
    if b == [] {
      assert a + b == a;
    } else {
      assert (a + b)[..|a + b| - 1] == a + b[..|b| - 1];
      PatchedInTurn(m, a, b[..|b| - 1]);
    }
  }

  lemma LastDiffers(previous: Keyed, current: seq<Item>, k: string)
    requires current != []
    ensures var last := current[|current| - 1];
      Differs(previous, current, k) <==>
        Differs(previous, current[..|current| - 1], k) || (last.key == k && (k !in previous || last != previous[k]))
  {
    assert current == current[..|current| - 1] + [current[|current| - 1]];
  }

  lemma PatchedStep(previous: Keyed, current: seq<Item>)
    requires current != []
    ensures var before, last := Patched(previous, Changes(previous, current[..|current| - 1])), current[|current| - 1];
      Patched(previous, Changes(previous, current)) ==
        if last.key == "" || (last.key in previous && previous[last.key] == last)
        then before
        else before[last.key := last]
  {
    var changes, one := Changes(previous, current[..|current| - 1]), ChangeOf(previous, current[|current| - 1]);
    PatchedInTurn(previous, changes, one);
    if one != [] { assert one[..|one| - 1] == []; }
  }

  /** A key that was reported has left its old item behind, for the last item unless that is the old one again. */
  predicate ChangedAt(previous: Keyed, m: Keyed, current: Keyed, k: string) {
    && k in m && k in current && (k in previous ==> m[k] != previous[k])
    && ((k in previous && current[k] == previous[k]) || m[k] == current[k])
  }

  /** A key that was not reported is as it was, and as it is now if it still occurs. */
  predicate KeptAt(previous: Keyed, m: Keyed, current: Keyed, k: string) {
    && (k in m <==> k in previous) && (k in m ==> m[k] == previous[k])
    && (k in current ==> k in previous && current[k] == previous[k])
  }

  /** What the client has under a key once the changes are applied. */
  lemma {:induction false} PatchedAt(previous: Keyed, current: seq<Item>, k: string)
    requires k != ""
    ensures var m := Patched(previous, Changes(previous, current));
      if Differs(previous, current, k)
      then ChangedAt(previous, m, ByKey(current), k)
      else KeptAt(previous, m, ByKey(current), k)
  {
    if current != [] {
      PatchedAt(previous, current[..|current| - 1], k);
      LastDiffers(previous, current, k);
      PatchedStep(previous, current);
      hide Differs, Patched, Changes;
    }
  }

  lemma {:induction false} NoEmptyKey(items: seq<Item>)
    ensures "" !in ByKey(items)
  {
    if items != [] { NoEmptyKey(items[..|items| - 1]); }
  }

  lemma {:induction false} PatchedKeepsEmpty(previous: Keyed, current: seq<Item>)
    requires "" !in previous
    ensures "" !in Patched(previous, Changes(previous, current))
  {
    if current != [] {
      PatchedKeepsEmpty(previous, current[..|current| - 1]);
      PatchedStep(previous, current);
      hide Patched, Changes;
    }
  }

  lemma {:induction false} GoneKeys(previous: seq<Item>, current: Keyed)
    ensures forall k :: k in Gone(previous, current) <==> k in ByKey(previous) && k !in current
  {
    if previous != [] { GoneKeys(previous[..|previous| - 1], current); }
  }

  /** Changes and removals together give the new collection exactly when the diff is faithful. */
  lemma CollectionReplays(previous: seq<Item>, current: seq<Item>)
    ensures var m := Patched(ByKey(previous), Changes(ByKey(previous), current));
      var gone := set k | k in Gone(previous, ByKey(current));
      m - gone == ByKey(current) <==> Faithful(ByKey(previous), current)
  {
    var p, c := ByKey(previous), ByKey(current);
    var m := Patched(p, Changes(p, current));
    var gone := set k | k in Gone(previous, c);
    GoneKeys(previous, c);
    NoEmptyKey(previous);
    NoEmptyKey(current);
    PatchedKeepsEmpty(p, current);
    hide ByKey, Patched, Changes, Gone, Differs;
    forall k ensures (k in m - gone <==> k in c) && (k in c ==> (m[k] == c[k] <==> FaithfulAt(p, current, k))) {
      if k != "" { PatchedAt(p, current, k); }
    }
    if m - gone == c {
      assert forall k :: k in c ==> (m - gone)[k] == c[k];
    }
    if Faithful(p, current) {
      assert forall k :: k in c ==> FaithfulAt(p, current, k);
      assert (m - gone).Keys == c.Keys;
    }
  }

  lemma UniqueKeysAreFaithful(previous: Keyed, current: seq<Item>)
    requires UniqueKeys(current)
    ensures Faithful(previous, current)
  {
    forall k | k in ByKey(current) ensures FaithfulAt(previous, current, k) {
      OnlyOneFor(current, k);
    }
  }

  lemma {:induction false} OnlyOneFor(items: seq<Item>, k: string)
    requires UniqueKeys(items)
    ensures k in ByKey(items) ==> forall item :: item in items && item.key == k ==> item == ByKey(items)[k]
  {
    if items != [] {
      var before, last := items[..|items| - 1], items[|items| - 1];
      assert items == before + [last];
      OnlyOneFor(before, k);
      NoEmptyKey(items);
      assert last.key != "" ==> forall i :: 0 <= i < |before| ==> before[i].key != last.key;
      KeysOf(before);
    }
  }

  // ---------------------------------------------------------------- the whole payload

  lemma {:induction false} TaggedReplay(v: View, kind: Kind, changes: seq<Change>)
    ensures Replayed(v, Tagged(kind, changes)) == With(v, kind, Patched(Of(v, kind), changes))
  {
    if changes != [] {
      var before := changes[..|changes| - 1];
      TaggedReplay(v, kind, before);
      assert Tagged(kind, changes)[..|changes| - 1] == Tagged(kind, before);
    }
  }

  lemma {:induction false} RemovalsReplay(v: View, keys: seq<string>)
    ensures Replayed(v, Removals(keys)) == v.(signals := v.signals - set k | k in keys)
  {
    if keys != [] {
      var before := keys[..|keys| - 1];
      RemovalsReplay(v, before);
      assert Removals(keys)[..|keys| - 1] == Removals(before);
      assert keys == before + [keys[|keys| - 1]];
      assert (set k | k in keys) == (set k | k in before) + {keys[|keys| - 1]};
    } else {
      assert v.signals - (set k | k in keys) == v.signals;
    }
  }

  /** What one collection becomes. */
  function After(previous: seq<Item>, current: seq<Item>): Keyed {
    Patched(ByKey(previous), Changes(ByKey(previous), current)) - set k | k in Gone(previous, ByKey(current))
  }

  /** The client after the events, field by field. */
  lemma LiveReplay(previous: Payload, current: Payload)
    requires !Replaces(previous, current)
    ensures Replayed(ViewOf(previous), LiveEvents(previous, current)) ==
      View(current.connection, current.now, current.calls, After(previous.signals, current.signals),
           After(previous.people, current.people), After(previous.trunks, current.trunks), After(previous.queues,
                                                                                                 current.queues))
  {
    var v0 := ViewOf(previous);
    var scalars, calls := Scalars(previous, current), CallEvents(previous, current);
    var signals := SignalEvents(previous.signals, current.signals);
    var v1 := v0.(connection := current.connection, now := current.now);
    ScalarsReplay(previous, current);
    var v2 := v1.(signals := After(previous.signals, current.signals));
    SignalsReplay(v1, previous.signals, current.signals);
    var v3 := v2.(calls := current.calls);
    CallsReplay(v2, previous, current);
    UpsertsReplay(v3, People, previous.people, current.people);
    var v4 := v3.(people := After(previous.people, current.people));
    UpsertsReplay(v4, Trunks, previous.trunks, current.trunks);
    var v5 := v4.(trunks := After(previous.trunks, current.trunks));
    UpsertsReplay(v5, Queues, previous.queues, current.queues);
    var people, trunks, queues := Upserts(People, previous.people, current.people),
      Upserts(Trunks, previous.trunks, current.trunks), Upserts(Queues, previous.queues, current.queues);
    hide After, Scalars, SignalEvents, CallEvents, Upserts, Replayed, ByKey;
    ReplayedInTurn(v0, scalars, signals);
    ReplayedInTurn(v0, scalars + signals, calls);
    ReplayedInTurn(v0, scalars + signals + calls, people);
    ReplayedInTurn(v0, scalars + signals + calls + people, trunks);
    ReplayedInTurn(v0, scalars + signals + calls + people + trunks, queues);
  }

  lemma ScalarsReplay(previous: Payload, current: Payload)
    ensures Replayed(ViewOf(previous), Scalars(previous, current)) ==
      ViewOf(previous).(connection := current.connection, now := current.now)
  {
    var first := if previous.connection != current.connection then [ConnectionUpdated(current.connection)] else [];
    var second := if previous.now != current.now then [CallUpdated(current.now)] else [];
    hide ByKey;
    ReplayedInTurn(ViewOf(previous), first, second);
    assert first != [] ==> first[..0] == [];
    assert second != [] ==> second[..0] == [];
  }

  lemma CallsReplay(v: View, previous: Payload, current: Payload)
    requires v.calls == previous.calls
    ensures Replayed(v, CallEvents(previous, current)) == v.(calls := current.calls)
  {
    if previous.calls != current.calls { assert CallEvents(previous, current)[..0] == []; }
  }

  lemma SignalsReplay(v: View, previous: seq<Item>, current: seq<Item>)
    requires v.signals == ByKey(previous)
    ensures Replayed(v, SignalEvents(previous, current)) == v.(signals := After(previous, current))
  {
    var changes, gone := Changes(ByKey(previous), current), Gone(previous, ByKey(current));
    ReplayedInTurn(v, Tagged(Signals, changes), Removals(gone));
    TaggedReplay(v, Signals, changes);
    RemovalsReplay(With(v, Signals, Patched(v.signals, changes)), gone);
    hide Tagged, Removals, Patched, Changes, Gone, ByKey, Replayed;
  }

  lemma UpsertsReplay(v: View, kind: Kind, previous: seq<Item>, current: seq<Item>)
    requires Of(v, kind) == ByKey(previous) && Gone(previous, ByKey(current)) == []
    ensures Replayed(v, Upserts(kind, previous, current)) == With(v, kind, After(previous, current))
  {
    TaggedReplay(v, kind, Changes(ByKey(previous), current));
    var m := Patched(ByKey(previous), Changes(ByKey(previous), current));
    hide Tagged, Patched, Changes, ByKey, Replayed;
    assert m - (set k | k in Gone(previous, ByKey(current))) == m;
  }

  ghost predicate FaithfulPayload(previous: Payload, current: Payload) {
    && Faithful(ByKey(previous.signals), current.signals) && Faithful(ByKey(previous.people), current.people)
    && Faithful(ByKey(previous.trunks), current.trunks) && Faithful(ByKey(previous.queues), current.queues)
  }

  /**
   The feed takes a client from one payload to the next exactly when it replaces the state or every
   collection is faithful.
   */
  lemma ReplayIsExact(previous: Payload, current: Payload)
    ensures Replayed(ViewOf(previous), LiveEvents(previous, current)) == ViewOf(current) <==>
      Replaces(previous, current) || FaithfulPayload(previous, current)
  {
    if Replaces(previous, current) {
      assert LiveEvents(previous, current)[..0] == [];
    } else {
      LiveReplay(previous, current);
      CollectionReplays(previous.signals, current.signals);
      CollectionReplays(previous.people, current.people);
      CollectionReplays(previous.trunks, current.trunks);
      CollectionReplays(previous.queues, current.queues);
      hide Faithful, ByKey, Replaces, LiveEvents, Replayed, Patched, Changes, Gone;
    }
  }

  /** With a key twice in one collection the client can be left with the item that does not count. */
  lemma RepeatedKeyMisleads()
    ensures var one, two := Item("201", 1), Item("201", 2);
      var previous, current := Payload(0, 0, 0, 0, [], [one], [], []), Payload(0, 0, 0, 0, [], [two, one], [], []);
      Replayed(ViewOf(previous), LiveEvents(previous, current)) != ViewOf(current)
  {
    var one, two := Item("201", 1), Item("201", 2);
    var previous, current := Payload(0, 0, 0, 0, [], [one], [], []), Payload(0, 0, 0, 0, [], [two, one], [], []);
    assert [one][..0] == [] && [two, one][..1] == [two] && [two][..0] == [];
    assert ByKey([one]) == map["201" := one];
    assert ByKey([two]) == map["201" := two];
    assert ByKey([two, one]) == map["201" := one];
    assert Gone([one], ByKey([two, one])) == [];
    assert two in [two, one];
    assert Differs(ByKey([one]), [two, one], "201");
    assert !FaithfulAt(ByKey([one]), [two, one], "201");
    ReplayIsExact(previous, current);
    assert Gone([], ByKey([])) == [];
  }

  predicate UniquePayload(p: Payload) {
    UniqueKeys(p.signals) && UniqueKeys(p.people) && UniqueKeys(p.trunks) && UniqueKeys(p.queues)
  }

  lemma UniquePayloadsReplay(previous: Payload, current: Payload)
    requires UniquePayload(current)
    ensures Replayed(ViewOf(previous), LiveEvents(previous, current)) == ViewOf(current)
  {
    ReplayIsExact(previous, current);
    hide Faithful, UniqueKeys, Replaces, LiveEvents, Replayed, ByKey;
    UniqueKeysAreFaithful(ByKey(previous.signals), current.signals);
    UniqueKeysAreFaithful(ByKey(previous.people), current.people);
    UniqueKeysAreFaithful(ByKey(previous.trunks), current.trunks);
    UniqueKeysAreFaithful(ByKey(previous.queues), current.queues);
  }

  // ---------------------------------------------------------------- the feed

  const HEARTBEAT := 10

  /** One turn of the feed's loop: the payload it sees and the time. */
  datatype Turn = Turn(payload: Payload, now: int)

  /** Up to and including turn `n` no key occurred twice in a collection. */
  predicate AllUnique(turns: seq<Turn>, n: int) {
    forall j :: 0 <= j <= n && j < |turns| ==> UniquePayload(turns[j].payload)
  }

  /** The client is up to date when the first `sent` events have arrived. */
  ghost predicate Tracks(start: View, events: seq<Event>, sent: nat, p: Payload) {
    sent <= |events| && Replayed(start, events[..sent]) == ViewOf(p)
  }

  lemma SnapshotReplays(start: View, events: seq<Event>, p: Payload)
    ensures Replayed(start, events + [HomeSnapshot(p)]) == ViewOf(p)
  {
    assert (events + [HomeSnapshot(p)])[..|events|] == events;
  }

  lemma HeartbeatReplays(start: View, events: seq<Event>)
    ensures Replayed(start, events + [Heartbeat]) == Replayed(start, events)
  {
    assert (events + [Heartbeat])[..|events|] == events;
  }

  /** What is due is sent; if nothing is, the whole state when it differs, or a heartbeat after ten seconds. */
  ghost predicate IsTurn(previous: Payload, current: Payload, quiet: int, sent: seq<Event>) {
    || (sent != [] && AreDue(previous, current, sent))
    || (AreDue(previous, current, []) &&
        sent == if current != previous then [HomeSnapshot(current)] else if quiet >= 10 then [Heartbeat] else [])
  }

  /**
   What one turn sends: the changes, the whole state when no event tells it, or a heartbeat after ten quiet
   seconds.
   */
  method OneTurn(previous: Payload, current: Payload, now: int, lastMessageAt: int)
      returns (sent: seq<Event>, messageAt: int)
    ensures IsTurn(previous, current, now - lastMessageAt, sent)
    ensures UniquePayload(current) ==> Replayed(ViewOf(previous), sent) == ViewOf(current)
    ensures now - messageAt < 10 && messageAt == if sent == [] then lastMessageAt else now
    ensures current != previous ==> sent != []
  {
    hide UniquePayload, LiveEvents, Replayed, ViewOf, AreDue;
    messageAt := lastMessageAt;
    sent := HomeLiveEvents(previous, current);
    if UniquePayload(current) { UniquePayloadsReplay(previous, current); }
    if sent != [] {
      messageAt := now;
    } else if current != previous {
      SnapshotReplays(ViewOf(previous), [], current);
      assert [] + [HomeSnapshot(current)] == [HomeSnapshot(current)];
      sent, messageAt := [HomeSnapshot(current)], now;
    } else if HEARTBEAT <= now - lastMessageAt {
      HeartbeatReplays(ViewOf(previous), []);
      assert [] + [Heartbeat] == [Heartbeat];
      sent, messageAt := [Heartbeat], now;
    }
  }

  /**
   The feed: the whole state, then turn after turn. `marks[i]` events are out after turn `i`, and
   whatever a client started from, it then has the keyed view of that turn's payload, as long as
   keys were unique so far. No turn ends with ten seconds of silence behind it.
   */
  method Live(first: Payload, turns: seq<Turn>, began: int, start: View)
      returns (events: seq<Event>, marks: seq<nat>, lastMessageAt: int)
    ensures |marks| == |turns| && events != [] && events[0] == HomeSnapshot(first)
    ensures forall i :: 0 <= i < |turns| && AllUnique(turns, i) ==> Tracks(start, events, marks[i], turns[i].payload)
    ensures turns != [] ==> marks[|turns| - 1] == |events| && turns[|turns| - 1].now - lastMessageAt < 10
  {
    events, marks, lastMessageAt := [HomeSnapshot(first)], [], began;
    SnapshotReplays(start, [], first);
    assert [] + events == events;
    hide UniquePayload, Replayed, ViewOf, Tracks, Tracked;
    var previous := first;
    for i := 0 to |turns|
      invariant |marks| == i && events != [] && events[0] == HomeSnapshot(first)
      invariant AllUnique(turns, i - 1) ==> Replayed(start, events) == ViewOf(previous)
      invariant Tracked(start, events, marks, turns, i)
      invariant i > 0 ==> marks[i - 1] == |events| && turns[i - 1].now - lastMessageAt < HEARTBEAT
    {
      var sent;
      sent, lastMessageAt := OneTurn(previous, turns[i].payload, turns[i].now, lastMessageAt);
      ReplayedInTurn(start, events, sent);
      var more := events + sent;
      var ends := marks + [|more|];
      assert ends[..i] == marks;
      EarlierStillTrack(start, events, more, ends, turns, i);
      events, marks, previous := more, ends, turns[i].payload;
    }
    TrackedAll(start, events, marks, turns);
  }

  /** The client has tracked the first `n` turns. */
  ghost predicate Tracked(start: View, events: seq<Event>, marks: seq<nat>, turns: seq<Turn>, n: int) {
    && n <= |marks| && n <= |turns|
    && forall j :: 0 <= j < n && AllUnique(turns, j) ==> Tracks(start, events, marks[j], turns[j].payload)
  }

  lemma TrackedAll(start: View, events: seq<Event>, marks: seq<nat>, turns: seq<Turn>)
    requires Tracked(start, events, marks, turns, |turns|)
    ensures |turns| <= |marks|
    ensures forall i :: 0 <= i < |turns| && AllUnique(turns, i) ==> Tracks(start, events, marks[i], turns[i].payload)
  {
  }

  lemma EarlierStillTrack(start: View, before: seq<Event>, events: seq<Event>, marks: seq<nat>, turns: seq<Turn>,
                          i: nat)
    requires i < |turns| && |marks| == i + 1 && before <= events && marks[i] == |events|
    requires Tracked(start, before, marks[..i], turns, i)
    requires AllUnique(turns, i) ==> Replayed(start, events) == ViewOf(turns[i].payload)
    ensures Tracked(start, events, marks, turns, i + 1)
  {
    forall j | 0 <= j <= i && AllUnique(turns, j) ensures Tracks(start, events, marks[j], turns[j].payload) {
      if j < i {
        assert Tracks(start, before, marks[j], turns[j].payload);
        assert before[..marks[j]] == events[..marks[j]];
      } else {
        assert events[..|events|] == events;
      }
    }
  }
}
