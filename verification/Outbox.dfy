/**
 The Agent's durable outbox: coalescing queue, bounded by count and by
 serialized size, flushed in order.

 An item carries the length of its own JSON text, which determines the length of
 the serialized outbox. Every queued item gets a ticket, its position in the
 history of everything ever queued; the program itself has no such field.
 */
module Outbox {
  import opened RelayTransport

  const MAX_ITEMS := 500
  const MAX_BYTES := 2 * 1024 * 1024
  const MAX_FLUSH_ITEMS := 10

  /** The identifier an app was issued, or the digest of its token. */
  datatype RelayId = NoId | Issued(name: string) | DigestOf(token: string)

  datatype Item =
    | Device(token: string, relayId: RelayId, size: nat)
    | Event(signalId: string, id: string, size: nat)

  datatype Entry = Entry(item: Item, ticket: nat)

  /** What became of items that left the queue; a superseded one points to the item that replaced it. */
  datatype Ledger = Ledger(
    acknowledged: set<nat>, rejected: set<nat>, superseded: map<nat, nat>, trimmed: set<nat>, revoked: set<nat>)
  {
    ghost function Settled(): set<nat> { acknowledged + rejected + superseded.Keys + trimmed + revoked }
    ghost predicate Exclusive() { acknowledged !! rejected !! superseded.Keys !! trimmed !! revoked }
  }

  /** A newly queued item replaces the queued item that announces the same thing. */
  predicate SameKey(a: Item, b: Item) {
    match (a, b)
    case (Device(t, _, _), Device(u, _, _)) => t == u
    case (Event(s, _, _), Event(t, _, _)) => s == t && s != ""
    case _ => false
  }

  /** The length of the serialized list: brackets, items, and commas between them. */
  function Bytes(box: seq<Entry>): nat {
    2 + Sizes(box) + if box == [] then 0 else |box| - 1
  }

  function Sizes(box: seq<Entry>): nat {
    if box == [] then 0 else box[0].item.size + Sizes(box[1..])
  }

  predicate Fits(box: seq<Entry>) {
    |box| <= MAX_ITEMS && Bytes(box) <= MAX_BYTES
  }

  /** The entries of a kind, in queue order. */
  function Events(box: seq<Entry>): seq<Entry> {
    if box == [] then [] else (if box[0].item.Event? then [box[0]] else []) + Events(box[1..])
  }

  function Devices(box: seq<Entry>): seq<Entry> {
    if box == [] then [] else (if box[0].item.Device? then [box[0]] else []) + Devices(box[1..])
  }

  /** The position trimming gives up next: the oldest event, or the oldest item when there is no event. */
  function Victim(box: seq<Entry>): (i: nat)
    requires box != []
    ensures i < |box|
    ensures box[i].item.Event? ==> forall j :: 0 <= j < i ==> box[j].item.Device?
    ensures box[i].item.Device? ==> i == 0 && forall j :: 0 <= j < |box| ==> box[j].item.Device?
  {
    if box[0].item.Event? then 0
    else if |box| == 1 then 0
    else
      var i := Victim(box[1..]);
      if box[1..][i].item.Event? then i + 1
      else
        assert forall j :: 1 <= j < |box| ==> box[j] == box[1..][j - 1];
        0
  }

  function Without(box: seq<Entry>, i: nat): seq<Entry>
    requires i < |box|
  {
    box[..i] + box[i + 1..]
  }

  /** Trimming `n` entries, one victim at a time. */
  function Drop(box: seq<Entry>, n: nat): (r: seq<Entry>)
    requires n <= |box|
    ensures |r| == |box| - n
  {
    if n == 0 then box
    else
      var r := Drop(box, n - 1);
      Without(r, Victim(r))
  }

  lemma DropNone(box: seq<Entry>)
    ensures Drop(box, 0) == box
  {
  }

  lemma DropOneMore(box: seq<Entry>, n: nat)
    requires n < |box|
    ensures var r := Drop(box, n); var i := Victim(r);
      Drop(box, n + 1) == Without(r, i) == r[..i] + r[i + 1..]
  {
  }

  lemma {:induction false} SplitSizes(a: seq<Entry>, b: seq<Entry>)
    ensures Sizes(a + b) == Sizes(a) + Sizes(b)
  {
    if a == [] {
      assert a + b == b;
    } else {
      assert (a + b)[1..] == a[1..] + b;
      SplitSizes(a[1..], b);
    }
  }

  lemma {:induction false} OneKind(box: seq<Entry>)
    requires forall j :: 0 <= j < |box| ==> box[j].item.Device?
    ensures Events(box) == [] && Devices(box) == box
  {
    if box != [] {
      OneKind(box[1..]);
      assert box == [box[0]] + box[1..];
    }
  }

  lemma {:induction false} HasEvent(box: seq<Entry>, i: nat)
    requires i < |box| && box[i].item.Event?
    ensures Events(box) != []
  {
    if i > 0 { HasEvent(box[1..], i - 1); }
  }

  lemma {:induction false} VictimIsOldest(box: seq<Entry>)
    requires box != []
    ensures var r := Without(box, Victim(box));
      if Events(box) != [] then Events(r) == Events(box)[1..] && Devices(r) == Devices(box)
      else Events(r) == [] && Devices(r) == Devices(box)[1..]
  {
    var i := Victim(box);
    var rest := box[1..];
    if i > 0 {
      VictimIsOldest(rest);
      HasEvent(rest, i - 1);
      assert Without(box, i) == [box[0]] + Without(rest, i - 1);
      assert Without(box, i)[1..] == Without(rest, i - 1);
      hide Without, Victim;
    } else {
      assert Without(box, 0) == rest;
      if box[0].item.Device? {
        OneKind(box);
        OneKind(rest);
      }
      hide Without, Victim;
    }
  }

  /** Trimming `n` entries gives up the `n` oldest events, and devices only once no event is left. */
  lemma {:induction false} DropTakesOldestEventsFirst(box: seq<Entry>, n: nat)
    requires n <= |box|
    ensures var e := |Events(box)|; var r := Drop(box, n);
      |Events(box)| + |Devices(box)| == |box| &&
      if n <= e then Events(r) == Events(box)[n..] && Devices(r) == Devices(box)
      else Events(r) == [] && Devices(r) == Devices(box)[n - e..]
  {
    CountKinds(box);
    if n > 0 {
      DropTakesOldestEventsFirst(box, n - 1);
      VictimIsOldest(Drop(box, n - 1));
    }
  }

  lemma {:induction false} CountKinds(box: seq<Entry>)
    ensures |Events(box)| + |Devices(box)| == |box|
  {
    if box != [] { CountKinds(box[1..]); }
  }

  /** Removing an entry never makes the serialized outbox longer. */
  lemma RemovalShrinks(box: seq<Entry>, i: nat)
    requires i < |box|
    ensures Bytes(Without(box, i)) <= Bytes(box) && (Fits(box) ==> Fits(Without(box, i)))
  {
    SplitSizes(box[..i], [box[i]] + box[i + 1..]);
    SplitSizes([box[i]], box[i + 1..]);
    SplitSizes(box[..i], box[i + 1..]);
    assert box == box[..i] + ([box[i]] + box[i + 1..]);
  }

  /** The list comprehensions of the program: the entries that are not `gone`. */
  function Retained(box: seq<Entry>, gone: Item -> bool): seq<Entry> {
    if box == [] then [] else (if gone(box[0].item) then [] else [box[0]]) + Retained(box[1..], gone)
  }

  lemma {:induction false} RetainedEntries(box: seq<Entry>, gone: Item -> bool)
    ensures var r := Retained(box, gone);
      && (forall e :: e in r <==> e in box && !gone(e.item))
      && (Ordered(box) ==> Ordered(r))
  {
    if box != [] {
      RetainedEntries(box[1..], gone);
      var r := Retained(box[1..], gone);
      assert box == [box[0]] + box[1..];
      assert forall e :: e in box <==> e == box[0] || e in box[1..];
      if Ordered(box) {
        TailIsLater(box);
        PrependOrdered(box[0], r);
      }
      assert [] + r == r;
      hide Ordered;
    }
  }

  lemma {:induction false} RetainedShrinks(box: seq<Entry>, gone: Item -> bool)
    ensures |Retained(box, gone)| <= |box| && Sizes(Retained(box, gone)) <= Sizes(box)
    ensures Fits(box) ==> Fits(Retained(box, gone))
  {
    if box != [] {
      RetainedShrinks(box[1..], gone);
      SplitSizes([box[0]], Retained(box[1..], gone));
      SplitSizes([], Retained(box[1..], gone));
    }
  }

  /** Queue order: later tickets come later, so each item is queued at most once. */
  ghost predicate Ordered(box: seq<Entry>) {
    forall i, j :: 0 <= i < j < |box| ==> box[i].ticket < box[j].ticket
  }

  /** At most one device per token and one event per named signal. */
  ghost predicate Coalesced(box: seq<Entry>) {
    forall i, j :: 0 <= i < j < |box| ==> !SameKey(box[i].item, box[j].item)
  }

  ghost function Tickets(box: seq<Entry>): set<nat> {
    set e | e in box :: e.ticket
  }

  /**
   Conservation: each item ever queued is either queued or has exactly one fate;
   a superseded item was replaced by a later item with the same key.
   */
  ghost predicate Conserved(box: seq<Entry>, log: seq<Item>, l: Ledger) {
    && l.Exclusive() && Tickets(box) !! l.Settled()
    && (forall e :: e in box ==> e.ticket < |log| && log[e.ticket] == e.item)
    && (forall t :: t in l.Settled() ==> t < |log|)
    && (forall t: nat :: t < |log| ==> t in l.Settled() || t in Tickets(box))
    && (forall t :: t in l.superseded ==> t < l.superseded[t] < |log| && SameKey(log[l.superseded[t]], log[t]))
  }

  ghost predicate Within(box': seq<Entry>, box: seq<Entry>) {
    forall e :: e in box' ==> e in box
  }

  /** Entries that leave the outbox together take one fate. */
  lemma Leave(box: seq<Entry>, box': seq<Entry>, log: seq<Item>, l: Ledger, l': Ledger)
    requires Conserved(box, log, l) && Within(box', box)
    requires l'.superseded == l.superseded && l'.Exclusive()
    requires l'.Settled() == l.Settled() + (Tickets(box) - Tickets(box'))
    ensures Conserved(box', log, l')
  {
    assert forall e :: e in box' ==> e.ticket in Tickets(box');
  }

  /** Queueing an item: what it replaces is superseded by it, and it gets the next ticket. */
  lemma Arrive(box: seq<Entry>, kept: seq<Entry>, log: seq<Item>, l: Ledger, item: Item)
    requires Ordered(box) && Conserved(box, log, l)
    requires forall e :: e in kept <==> e in box && !SameKey(item, e.item)
    ensures Conserved(kept + [Entry(item, |log|)], log + [item], Supersede(l, Tickets(box) - Tickets(kept), |log|))
  {
    var l' := Supersede(l, Tickets(box) - Tickets(kept), |log|);
    var box' := kept + [Entry(item, |log|)];
    assert Entry(item, |log|) in box' && |log| in Tickets(box');
    assert forall e :: e in kept ==> e in box';
    assert l'.Settled() == l.Settled() + (Tickets(box) - Tickets(kept));
    assert Tickets(box') == Tickets(kept) + {|log|};
  }

  ghost function Supersede(l: Ledger, tickets: set<nat>, newer: nat): Ledger {
    l.(superseded := l.superseded + map t | t in tickets :: newer)
  }

  lemma WithoutKeepsShape(box: seq<Entry>, i: nat)
    requires i < |box| && Ordered(box) && Coalesced(box)
    ensures Ordered(Without(box, i)) && Coalesced(Without(box, i)) && Within(Without(box, i), box)
    ensures Tickets(box) - Tickets(Without(box, i)) == {box[i].ticket}
  {
    var box' := Without(box, i);
    assert forall j :: 0 <= j < |box'| ==> box'[j] == box[if j < i then j else j + 1];
    assert box[i] in box;
    forall e | e in box && e != box[i] ensures e in box' {
      var j :| 0 <= j < |box| && box[j] == e;
      assert box'[if j < i then j else j - 1] == e;
    }
  }

  lemma AppendKeepsShape(box: seq<Entry>, kept: seq<Entry>, log: seq<Item>, item: Item)
    requires Ordered(box) && Coalesced(box)
    requires forall e :: e in box ==> e.ticket < |log|
    requires Ordered(kept) && forall e :: e in kept <==> e in box && !SameKey(item, e.item)
    ensures Ordered(kept + [Entry(item, |log|)]) && Coalesced(kept + [Entry(item, |log|)])
  {
    forall i, j | 0 <= i < j < |kept| ensures !SameKey(kept[i].item, kept[j].item) {
      assert kept[i] in box && kept[j] in box && kept[i].ticket < kept[j].ticket;
      var m :| 0 <= m < |box| && box[m] == kept[i];
      var n :| 0 <= n < |box| && box[n] == kept[j];
    }
    forall i | 0 <= i < |kept| ensures kept[i].ticket < |log| && !SameKey(kept[i].item, item) {
      assert kept[i] in kept;
    }
  }

  /** One trimming step, with its record. */
  lemma TrimStep(box: seq<Entry>, log: seq<Item>, l: Ledger, i: nat)
    requires i < |box| && Ordered(box) && Coalesced(box) && Conserved(box, log, l)
    ensures var l' := l.(trimmed := l.trimmed + {box[i].ticket});
      && Ordered(Without(box, i)) && Coalesced(Without(box, i)) && Conserved(Without(box, i), log, l')
      && |l'.trimmed| == |l.trimmed| + 1
  {
    WithoutKeepsShape(box, i);
    var l' := l.(trimmed := l.trimmed + {box[i].ticket});
    assert box[i] in box && box[i].ticket in Tickets(box);
    Leave(box, Without(box, i), log, l, l');
  }

  /** A queued item with its record, before trimming. */
  lemma QueueStep(box: seq<Entry>, log: seq<Item>, l: Ledger, item: Item)
    requires Ordered(box) && Coalesced(box) && Conserved(box, log, l)
    ensures var kept := Retained(box, other => SameKey(item, other));
      var box' := kept + [Entry(item, |log|)];
      Ordered(box') && Coalesced(box') &&
      Conserved(box', log + [item], Supersede(l, Tickets(box) - Tickets(kept), |log|))
  {
    var kept := Retained(box, other => SameKey(item, other));
    RetainedEntries(box, other => SameKey(item, other));
    Arrive(box, kept, log, l, item);
    AppendKeepsShape(box, kept, log, item);
  }

  function Last20<T>(s: seq<T>): seq<T> {
    if |s| <= 20 then s else s[|s| - 20..]
  }

  lemma AtMost20<T>(s: seq<T>)
    ensures |Last20(s)| <= 20
  {
  }

  // ---------------------------------------------------------------- queueing, entry by entry

  /** The new item announces the same as a queued one: one device's token, or one named signal. */
  predicate Replaces(item: Item, other: Item) {
    || (item.Device? && other.Device? && item.token == other.token)
    || (item.Event? && other.Event? && item.signalId == other.signalId && item.signalId != "")
  }

  /** An entry is given up only after all older events, and a device only when no event is left. */
  predicate GivesUpFor(box: seq<Entry>, e: Entry) {
    forall f :: f in box ==> if e.item.Event? then f.item.Event? ==> e.ticket < f.ticket
                             else f.item.Device? && e.ticket < f.ticket
  }

  /** What becomes of every entry when `item` is queued under `ticket`. */
  ghost predicate QueuedTo(was: seq<Entry>, item: Item, ticket: nat, box: seq<Entry>) {
    && (forall e :: e in box ==> (e in was && !Replaces(item, e.item)) || e == Entry(item, ticket))
    && (forall e :: (e in was && !Replaces(item, e.item)) || e == Entry(item, ticket) ==> e in box || GivesUpFor(box,
                                                                                                                 e))
  }

  lemma {:induction false} KindIsThere(box: seq<Entry>, e: Entry)
    ensures e in Events(box) <==> e in box && e.item.Event?
    ensures e in Devices(box) <==> e in box && e.item.Device?
  {
    if box != [] {
      KindIsThere(box[1..], e);
      assert box == [box[0]] + box[1..];
    }
  }

  lemma PrependOrdered(e: Entry, l: seq<Entry>)
    requires Ordered(l) && forall x :: x in l ==> e.ticket < x.ticket
    ensures Ordered([e] + l)
  {
    assert forall k :: 0 <= k < |l| ==> l[k] in l;
  }

  lemma TailIsLater(box: seq<Entry>)
    requires Ordered(box) && box != []
    ensures Ordered(box[1..]) && forall e :: e in box[1..] ==> box[0].ticket < e.ticket
  {
    forall e | e in box[1..] ensures box[0].ticket < e.ticket {
      var m :| 0 <= m < |box[1..]| && box[1..][m] == e;
      assert box[m + 1] == e;
    }
  }

  lemma {:induction false} KindsAreOrdered(box: seq<Entry>)
    requires Ordered(box)
    ensures Ordered(Events(box)) && Ordered(Devices(box))
  {
    if box == [] {
      assert Events(box) == [] == Devices(box);
    } else {
      var rest := box[1..];
      TailIsLater(box);
      KindsAreOrdered(rest);
      forall e ensures (e in Events(rest) ==> e in rest) && (e in Devices(rest) ==> e in rest) {
        KindIsThere(rest, e);
      }
      hide Ordered;
      PrependOrdered(box[0], if box[0].item.Event? then Events(rest) else Devices(rest));
      assert [] + Events(rest) == Events(rest) && [] + Devices(rest) == Devices(rest);
    }
  }

  lemma CutIsEarlier(l: seq<Entry>, n: nat, e: Entry)
    requires Ordered(l) && n <= |l| && e in l && e !in l[n..]
    ensures forall f :: f in l[n..] ==> e.ticket < f.ticket
  {
    var k :| 0 <= k < |l| && l[k] == e;
    assert forall i :: n <= i < |l| ==> l[n..][i - n] == l[i];
    forall f | f in l[n..] ensures e.ticket < f.ticket {
      var m :| 0 <= m < |l[n..]| && l[n..][m] == f;
      assert l[n + m] == f;
    }
  }

  /** Trimming keeps only entries there were, and gives up the oldest events first. */
  lemma DroppedInTurn(all: seq<Entry>, n: nat, e: Entry)
    requires n <= |all| && Ordered(all)
    ensures var box := Drop(all, n);
      (e in box ==> e in all) && (e in all ==> e in box || GivesUpFor(box, e))
  {
    var box := Drop(all, n);
    DropTakesOldestEventsFirst(all, n);
    KindIsThere(all, e);
    KindIsThere(box, e);
    KindsAreOrdered(all);
    forall f
      ensures (f in Events(box) <==> f in box && f.item.Event?) && (f in Devices(box) <==> f in box && f.item.Device?)
    {
      KindIsThere(box, f);
    }
    hide Drop, Events, Devices, Ordered;
    var events, devices := Events(all), Devices(all);
    if e in all && e !in box {
      if n <= |events| {
        CutIsEarlier(events, n, e);
      } else if e.item.Device? {
        CutIsEarlier(devices, n - |events|, e);
      }
    }
  }

  lemma KeyIsSaid(item: Item)
    ensures forall other :: SameKey(item, other) <==> Replaces(item, other)
  {
  }

  /** Queueing, read off entry by entry. */
  lemma QueueIsSaid(was: seq<Entry>, kept: seq<Entry>, item: Item, ticket: nat, n: nat)
    requires forall e :: e in kept <==> e in was && !SameKey(item, e.item)
    requires n <= |kept| + 1 && Ordered(kept + [Entry(item, ticket)])
    ensures QueuedTo(was, item, ticket, Drop(kept + [Entry(item, ticket)], n))
  {
    var all := kept + [Entry(item, ticket)];
    KeyIsSaid(item);
    forall e ensures var box := Drop(all, n);
      (e in box ==> e in all) && (e in all ==> e in box || GivesUpFor(box, e))
    {
      DroppedInTurn(all, n, e);
    }
    hide SameKey, Replaces, Drop, GivesUpFor, Ordered;
    assert forall e :: e in all <==> e in kept || e == Entry(item, ticket);
  }

  /** The new item supersedes exactly what it replaces, and what was superseded stays so. */
  ghost predicate SupersededBy(was: seq<Entry>, item: Item, ticket: nat, before: map<nat, nat>, after: map<nat, nat>) {
    && (forall e :: e in was && Replaces(item, e.item) ==> e.ticket in after && after[e.ticket] == ticket)
    && (forall t :: t in before ==> t in after)
    && (forall t :: t in after ==>
          (t in before && after[t] == before[t]) || (exists e :: e in was && Replaces(item, e.item) && e.ticket == t))
  }

  lemma SupersededIsSaid(was: seq<Entry>, kept: seq<Entry>, item: Item, ticket: nat, l: Ledger)
    requires Ordered(was) && forall e :: e in kept <==> e in was && !SameKey(item, e.item)
    ensures SupersededBy(was, item, ticket, l.superseded, Supersede(l, Tickets(was) - Tickets(kept), ticket).superseded)
  {
    KeyIsSaid(item);
    TicketsAreDistinct(was);
    hide SameKey, Replaces, Ordered;
    forall e | e in was && Replaces(item, e.item) ensures e.ticket in Tickets(was) - Tickets(kept) {
      assert forall x :: x in kept && x.ticket == e.ticket ==> x == e;
    }
  }

  lemma TicketsAreDistinct(box: seq<Entry>)
    requires Ordered(box)
    ensures forall x, y :: x in box && y in box && x.ticket == y.ticket ==> x == y
  {
    forall x, y | x in box && y in box && x.ticket == y.ticket ensures x == y {
      var i :| 0 <= i < |box| && box[i] == x;
      var j :| 0 <= j < |box| && box[j] == y;
    }
  }

  lemma NewIsLast(box: seq<Entry>, kept: seq<Entry>, log: seq<Item>, l: Ledger, item: Item)
    requires Ordered(box) && Coalesced(box) && Conserved(box, log, l)
    requires Ordered(kept) && forall e :: e in kept <==> e in box && !SameKey(item, e.item)
    ensures Ordered(kept + [Entry(item, |log|)])
  {
    AppendKeepsShape(box, kept, log, item);
  }

  /** The length of the serialized list: two brackets around the items, and a comma between any two. */
  lemma BytesAreJson(a: seq<Entry>, b: seq<Entry>, e: Entry)
    ensures Bytes([]) == 2 && Bytes([e]) == e.item.size + 2
    ensures a != [] && b != [] ==> Bytes(a + b) == Bytes(a) + Bytes(b) - 2 + 1
  {
    SplitSizes(a, b);
    assert [e][1..] == [];
  }

  /** The records a flush keeps: the ledger, the rejections shown to the user, and the registration count. */
  datatype Tally = Tally(ledger: Ledger, rejections: seq<(bool, int)>, revision: nat)

  /** The records after the head of the outbox got an answer that settles it. */
  ghost function Book(t: Tally, e: Entry, a: Answer): Tally {
    match a
    case Decoded =>
      t.(ledger := t.ledger.(acknowledged := t.ledger.acknowledged + {e.ticket}),
         revision := t.revision + if e.item.Device? then 1 else 0)
    case Refused(status) =>
      t.(ledger := t.ledger.(rejected := t.ledger.rejected + {e.ticket}),
         rejections := Last20(t.rejections + [(e.item.Device?, status)]))
    case _ => t
  }

  ghost function Booked(t: Tally, box: seq<Entry>, answers: seq<Answer>, k: nat): Tally
    requires k <= |box| && k <= |answers|
  {
    if k == 0 then t else Book(Booked(t, box, answers, k - 1), box[k - 1], answers[k - 1])
  }

  lemma BookedNothing(t: Tally, box: seq<Entry>, answers: seq<Answer>)
    ensures Booked(t, box, answers, 0) == t
  {
  }

  lemma BookedNext(t: Tally, box: seq<Entry>, answers: seq<Answer>, k: nat)
    requires k < |box| && k < |answers|
    ensures Booked(t, box, answers, k + 1) == Book(Booked(t, box, answers, k), box[k], answers[k])
  {
  }

  /** Exactly the decoded items are acknowledged, exactly the others are rejected, and nothing else is recorded. */
  lemma {:induction false} BookedExactly(t: Tally, box: seq<Entry>, answers: seq<Answer>, k: nat)
    requires k <= |box| && k <= |answers| && forall j :: 0 <= j < k ==> Settles(answers[j])
    ensures var l := Booked(t, box, answers, k).ledger;
      && l.acknowledged == t.ledger.acknowledged + (set j | 0 <= j < k && answers[j].Decoded? :: box[j].ticket)
      && l.rejected == t.ledger.rejected + (set j | 0 <= j < k && answers[j].Refused? :: box[j].ticket)
      && l.superseded == t.ledger.superseded && l.trimmed == t.ledger.trimmed && l.revoked == t.ledger.revoked
    ensures |t.rejections| <= 20 ==> |Booked(t, box, answers, k).rejections| <= 20
  {
    if k > 0 {
      BookedExactly(t, box, answers, k - 1);
    }
  }

  /** Taking the head out of the outbox, with the record of why. */
  lemma HeadLeaves(box: seq<Entry>, log: seq<Item>, l: Ledger)
    requires box != [] && Ordered(box) && Coalesced(box) && Fits(box) && Conserved(box, log, l)
    ensures var t := box[0].ticket; var rest := box[1..];
      && Ordered(rest) && Coalesced(rest) && Fits(rest)
      && Conserved(rest, log, l.(acknowledged := l.acknowledged + {t}))
      && Conserved(rest, log, l.(rejected := l.rejected + {t}))
  {
    WithoutKeepsShape(box, 0);
    RemovalShrinks(box, 0);
    assert Without(box, 0) == box[1..];
    assert box[0] in box && box[0].ticket in Tickets(box);
    Leave(box, box[1..], log, l, l.(acknowledged := l.acknowledged + {box[0].ticket}));
    Leave(box, box[1..], log, l, l.(rejected := l.rejected + {box[0].ticket}));
  }

  /** An item leaves when it was accepted, or refused for good. */
  predicate Leaves(a: Answer) {
    a.Decoded? || (a.Refused? && a.status != 408 && a.status != 425 && a.status != 429 && a.status < 500)
  }

  /** The refusals among the first `k` answers, each with whether it was a device's. */
  ghost function Refusals(box: seq<Entry>, answers: seq<Answer>, k: nat): seq<(bool, int)>
    requires k <= |box| && k <= |answers|
  {
    if k == 0 then []
    else Refusals(box, answers, k - 1) +
         if answers[k - 1].Refused? then [(box[k - 1].item.Device?, answers[k - 1].status)] else []
  }

  /** The places of the registrations that were accepted. */
  ghost function Registered(box: seq<Entry>, answers: seq<Answer>, k: nat): set<nat>
    requires k <= |box| && k <= |answers|
  {
    set j: nat | j < k && answers[j].Decoded? && box[j].item.Device?
  }

  /** What a flush keeps of its refusals, the last 20, and how many registrations it counts. */
  ghost predicate ShownTo(was: Tally, box: seq<Entry>, answers: seq<Answer>, k: nat, t: Tally)
    requires k <= |box| && k <= |answers|
  {
    var all := was.rejections + Refusals(box, answers, k);
    && t.rejections == (if |all| <= 20 then all else all[|all| - 20..])
    && t.revision == was.revision + |Registered(box, answers, k)|
  }

  /** Accepted items are acknowledged, refused ones rejected, and nothing else is recorded. */
  ghost predicate RecordsOf(box: seq<Entry>, answers: seq<Answer>, k: nat, was: Tally, t: Tally)
    requires k <= |box| && k <= |answers|
  {
    && t.ledger.acknowledged ==
         was.ledger.acknowledged + (set j | 0 <= j < k && answers[j].Decoded? :: box[j].ticket)
    && t.ledger.rejected == was.ledger.rejected + (set j | 0 <= j < k && answers[j].Refused? :: box[j].ticket)
    && t.ledger.superseded == was.ledger.superseded && t.ledger.trimmed == was.ledger.trimmed
    && t.ledger.revoked == was.ledger.revoked && ShownTo(was, box, answers, k, t)
  }

  lemma BookedIsShown(t: Tally, box: seq<Entry>, answers: seq<Answer>, k: nat)
    requires k <= |box| && k <= |answers| && |t.rejections| <= 20
    ensures ShownTo(t, box, answers, k, Booked(t, box, answers, k))
  {
    hide Booked, Refusals, Last20;
    BookedRejections(t, box, answers, k);
    BookedRevision(t, box, answers, k);
    Last20IsSaid(t.rejections + Refusals(box, answers, k));
  }

  lemma {:induction false} BookedRejections(t: Tally, box: seq<Entry>, answers: seq<Answer>, k: nat)
    requires k <= |box| && k <= |answers| && |t.rejections| <= 20
    ensures Booked(t, box, answers, k).rejections == Last20(t.rejections + Refusals(box, answers, k))
  {
    if k == 0 {
      assert t.rejections + [] == t.rejections;
    } else {
      BookedRejections(t, box, answers, k - 1);
      RefusalsCounted(t.rejections, box, answers, k);
      hide Refusals, Last20;
    }
  }

  lemma {:induction false} BookedRevision(t: Tally, box: seq<Entry>, answers: seq<Answer>, k: nat)
    requires k <= |box| && k <= |answers|
    ensures Booked(t, box, answers, k).revision ==
      t.revision + |Registered(box, answers, k)|
  {
    if k == 0 {
      assert Registered(box, answers, 0) == {};
    } else {
      BookedRevision(t, box, answers, k - 1);
      DevicesCounted(box, answers, k);
    }
  }

  lemma DevicesCounted(box: seq<Entry>, answers: seq<Answer>, k: nat)
    requires 0 < k <= |box| && k <= |answers|
    ensures |Registered(box, answers, k)| ==
      |Registered(box, answers, k - 1)| +
      if answers[k - 1].Decoded? && box[k - 1].item.Device? then 1 else 0
  {
    assert Registered(box, answers, k) == Registered(box, answers, k - 1) + if answers[k - 1].Decoded? &&
      box[k - 1].item.Device? then {k - 1} else {};
  }

  /** Keeping the last 20 one by one keeps the last 20 of all. */
  lemma RefusalsCounted(was: seq<(bool, int)>, box: seq<Entry>, answers: seq<Answer>, k: nat)
    requires 0 < k <= |box| && k <= |answers|
    ensures var x := (box[k - 1].item.Device?, if answers[k - 1].Refused? then answers[k - 1].status else 0);
      Last20(was + Refusals(box, answers, k)) ==
        if answers[k - 1].Refused? then Last20(Last20(was + Refusals(box, answers, k - 1)) + [x])
        else Last20(was + Refusals(box, answers, k - 1))
  {
    var all := was + Refusals(box, answers, k - 1);
    if answers[k - 1].Refused? {
      var x := (box[k - 1].item.Device?, answers[k - 1].status);
      assert was + Refusals(box, answers, k) == all + [x];
    } else {
      assert Refusals(box, answers, k) == Refusals(box, answers, k - 1) + [];
    }
  }

  lemma Last20IsSaid(s: seq<(bool, int)>)
    ensures Last20(s) == if |s| <= 20 then s else s[|s| - 20..]
  {
  }

  /**
   A flush of `box` that removed `k` items: those were settled, in order and in
   time, and it stopped for a reason. It succeeds when everything was accepted.
   */
  ghost predicate FlushedTo(box: seq<Entry>, k: nat, answers: seq<Answer>, inTime: seq<bool>,
                            after: seq<Entry>, success: bool, raised: bool)
    requires |answers| >= 10 && |inTime| > 10
  {
    && k <= |box| && k <= 10 && after == box[k..]
    && (forall j :: 0 <= j < k ==> Leaves(answers[j]) && inTime[j])
    && var kept := after != [] && k < 10 && inTime[k];
       (kept ==> !Leaves(answers[k])) &&
       (raised <==> kept && answers[k].Malformed?) &&
       (!raised ==> (success <==> !kept && forall j :: 0 <= j < k ==> answers[j].Decoded?))
  }

  lemma SettledLeave(box: seq<Entry>, k: nat, answers: seq<Answer>, inTime: seq<bool>, after: seq<Entry>,
                     success: bool, raised: bool)
    requires |answers| >= 10 && |inTime| > 10 && FlushedTo(box, k, answers, inTime, after, success, raised)
    ensures k <= |box| && k <= 10 && forall j :: 0 <= j < k ==> Settles(answers[j])
  {
  }

  lemma RevokeLeaves(box: seq<Entry>, gone: Item -> bool, log: seq<Item>, l: Ledger)
    requires Ordered(box) && Coalesced(box) && Fits(box) && Conserved(box, log, l)
    ensures var rest := Retained(box, gone);
      && Ordered(rest) && Coalesced(rest) && Fits(rest)
      && Conserved(rest, log, l.(revoked := l.revoked + (Tickets(box) - Tickets(rest))))
  {
    var rest := Retained(box, gone);
    RetainedEntries(box, gone);
    RetainedShrinks(box, gone);
    Leave(box, rest, log, l, l.(revoked := l.revoked + (Tickets(box) - Tickets(rest))));
    forall i, j | 0 <= i < j < |rest| ensures !SameKey(rest[i].item, rest[j].item) {
      assert rest[i] in box && rest[j] in box && rest[i].ticket < rest[j].ticket;
      var m :| 0 <= m < |box| && box[m] == rest[i];
      var n :| 0 <= n < |box| && box[n] == rest[j];
    }
  }

  class AgentOutbox {
    var outbox: seq<Entry>
    var dropped: nat
    var rejectedLog: seq<(bool, int)>   // (was it a device?, status), newest last
    var deviceRevision: nat
    var next: nat                       // the next ticket
    ghost var log: seq<Item>            // everything ever queued; a ticket is a position in it
    ghost var ledger: Ledger

    ghost predicate Sound()
      reads this
    {
      && Ordered(outbox) && Coalesced(outbox) && Conserved(outbox, log, ledger)
      && dropped == |ledger.trimmed|
    }

    ghost predicate Valid()
      reads this
    {
      Sound() && Fits(outbox) && next == |log| && |rejectedLog| <= 20
    }

    constructor ()
      ensures Valid() && outbox == [] && log == [] && dropped == 0
    {
      outbox, next, dropped, rejectedLog, deviceRevision := [], 0, 0, [], 0;
      log, ledger := [], Ledger({}, {}, map[], {}, {});
    }

    ghost function Records(): Tally
      reads this
    {
      Tally(ledger, rejectedLog, deviceRevision)
    }

    /** What is kept in front of a newly queued item. */
    ghost function Kept(item: Item): seq<Entry>
      reads this
    {
      Retained(outbox, other => SameKey(item, other))
    }

    /** Gives up victims until the outbox fits: the fewest possible number of them. */
    method Trim()
      requires Sound()
      modifies this`outbox, this`dropped, this`ledger
      ensures Sound() && Fits(outbox)
      ensures old(dropped) <= dropped <= old(dropped) + |old(outbox)|
      ensures outbox == Drop(old(outbox), dropped - old(dropped))
      ensures forall m: nat :: m < dropped - old(dropped) ==> !Fits(Drop(old(outbox), m))
      ensures ledger == old(ledger).(trimmed := ledger.trimmed)
    {
      hide Ordered, Coalesced, Conserved, Drop, Without;
      ghost var all := outbox;
      DropNone(all);
      var count := 0;
      while |outbox| > MAX_ITEMS || Bytes(outbox) > MAX_BYTES
        invariant Ordered(outbox) && Coalesced(outbox) && Conserved(outbox, log, ledger)
        invariant dropped == old(dropped) && dropped + count == |ledger.trimmed|
        invariant count <= |all| && outbox == Drop(all, count)
        invariant forall m: nat :: m < count ==> !Fits(Drop(all, m))
        invariant ledger == old(ledger).(trimmed := ledger.trimmed)
        decreases |outbox|
      {
        var i := Victim(outbox);
        DropOneMore(all, count);
        TrimStep(outbox, log, ledger, i);
        ledger := ledger.(trimmed := ledger.trimmed + {outbox[i].ticket});
        outbox := outbox[..i] + outbox[i + 1..];
        count := count + 1;
      }
      dropped := dropped + count;
    }

    /** Supersedes what the item replaces, appends it, and trims. */
    method Enqueue(item: Item)
      requires Valid()
      modifies this
      ensures Valid()
      ensures log == old(log) + [item]
      ensures var all := old(Kept(item)) + [Entry(item, |old(log)|)];
        && old(dropped) <= dropped <= old(dropped) + |all|
        && outbox == Drop(all, dropped - old(dropped))
        && forall m: nat :: m < dropped - old(dropped) ==> !Fits(Drop(all, m))
      ensures ledger.superseded ==
        Supersede(old(ledger), Tickets(old(outbox)) - Tickets(old(Kept(item))), |old(log)|).superseded
      ensures ledger.acknowledged == old(ledger.acknowledged) && ledger.rejected == old(ledger.rejected)
      ensures ledger.revoked == old(ledger.revoked)
      ensures rejectedLog == old(rejectedLog) && deviceRevision == old(deviceRevision)
    {
      hide Ordered, Coalesced, Conserved, Drop, Retained, Fits;
      QueueStep(outbox, log, ledger, item);
      var kept := Retained(outbox, other => SameKey(item, other));
      ledger := Supersede(ledger, Tickets(outbox) - Tickets(kept), next);
      outbox := kept + [Entry(item, next)];
      log := log + [item];
      next := next + 1;
      Trim();
    }

    /**
     Queues an item: what it replaces is superseded by it, it comes last, and the fewest entries that
     make the outbox fit, 500 items and 2 MiB, are given up, oldest events first.
     */
    method Queue(item: Item)
      requires Valid()
      modifies this
      ensures Valid()
      ensures log == old(log) + [item]
      ensures QueuedTo(old(outbox), item, |old(log)|, outbox)
      ensures |outbox| <= 500 && Bytes(outbox) <= 2_097_152
      ensures var all := old(Kept(item)) + [Entry(item, |old(log)|)];
        && old(dropped) <= dropped <= old(dropped) + |all|
        && outbox == Drop(all, dropped - old(dropped))
        && forall m: nat :: m < dropped - old(dropped) ==> |Drop(all, m)| > 500 || Bytes(Drop(all, m)) > 2_097_152
      ensures SupersededBy(old(outbox), item, |old(log)|, old(ledger).superseded, ledger.superseded)
      ensures ledger.acknowledged == old(ledger.acknowledged) && ledger.rejected == old(ledger.rejected)
      ensures ledger.revoked == old(ledger.revoked)
      ensures rejectedLog == old(rejectedLog) && deviceRevision == old(deviceRevision)
    {
      hide Coalesced, Conserved, Drop, Retained, Supersede, SupersededBy, QueuedTo;
      ghost var was, kept, records := outbox, Kept(item), ledger;
      RetainedEntries(outbox, other => SameKey(item, other));
      NewIsLast(outbox, kept, log, ledger, item);
      Enqueue(item);
      QueueIsSaid(was, kept, item, |old(log)|, dropped - old(dropped));
      SupersededIsSaid(was, kept, item, |old(log)|, records);
    }

    /** Sends items from the head; the records are booked one by one. */
    method Send(answers: seq<Answer>, inTime: seq<bool>) returns (success: bool, raised: bool)
      requires Valid() && |answers| >= MAX_FLUSH_ITEMS && |inTime| > MAX_FLUSH_ITEMS
      modifies this
      ensures Valid()
      ensures |outbox| <= |old(outbox)| <= |outbox| + MAX_FLUSH_ITEMS
      ensures FlushedTo(old(outbox), |old(outbox)| - |outbox|, answers, inTime, outbox, success, raised)
      ensures Records() == Booked(old(Records()), old(outbox), answers, |old(outbox)| - |outbox|)
      ensures log == old(log) && dropped == old(dropped)
    {
      hide Ordered, Coalesced, Conserved, Fits, Booked, Last20, Tickets;
      ghost var box := outbox;
      var attempted := 0;
      BookedNothing(Records(), box, answers);
      success, raised := true, false;
      while outbox != [] && attempted < MAX_FLUSH_ITEMS && inTime[attempted]
        invariant Valid() && log == old(log) && dropped == old(dropped)
        invariant attempted <= MAX_FLUSH_ITEMS && attempted <= |box| && outbox == box[attempted..]
        invariant forall j :: 0 <= j < attempted ==> Settles(answers[j]) && inTime[j]
        invariant success <==> forall j :: 0 <= j < attempted ==> answers[j].Decoded?
        invariant Records() == Booked(old(Records()), box, answers, attempted)
      {
        var item := outbox[0];
        HeadLeaves(outbox, log, ledger);
        BookedNext(old(Records()), box, answers, attempted);
        match answers[attempted] {
          case Malformed =>
            raised := true;
            return;
          case Lost =>
            success := false;
            return;
          case Refused(status) =>
            success := false;
            if Retryable(status) {
              return;
            }
            AtMost20(rejectedLog + [(item.item.Device?, status)]);
            rejectedLog := Last20(rejectedLog + [(item.item.Device?, status)]);
            ledger := ledger.(rejected := ledger.rejected + {item.ticket});
          case Decoded =>
            if item.item.Device? {
              deviceRevision := deviceRevision + 1;
            }
            ledger := ledger.(acknowledged := ledger.acknowledged + {item.ticket});
        }
        outbox := outbox[1..];
        attempted := attempted + 1;
      }
    }

    /**
     Sends items from the head, in order, until one has to be kept, the batch is
     full, or time is up. Item `j` of the batch gets answer `j`; `inTime[j]` says
     whether its turn came in time. `raised` means that an answer was no JSON,
     which ends the flush by an exception.
     */
    method Flush(answers: seq<Answer>, inTime: seq<bool>) returns (success: bool, raised: bool)
      requires Valid() && |answers| >= 10 && |inTime| > 10
      modifies this
      ensures Valid()
      ensures |outbox| <= |old(outbox)| <= |outbox| + 10
      ensures FlushedTo(old(outbox), |old(outbox)| - |outbox|, answers, inTime, outbox, success, raised)
      ensures RecordsOf(old(outbox), answers, |old(outbox)| - |outbox|, old(Records()), Records())
      ensures log == old(log) && dropped == old(dropped)
    {
      hide Valid, FlushedTo, Booked, ShownTo;
      ghost var box, records := outbox, Records();
      FewRejections();
      success, raised := Send(answers, inTime);
      var k := |box| - |outbox|;
      SettledLeave(box, k, answers, inTime, outbox, success, raised);
      BookedExactly(records, box, answers, k);
      BookedIsShown(records, box, answers, k);
    }

    lemma FewRejections()
      requires Valid()
      ensures |rejectedLog| <= 20
    {
    }

    /** Forgets the queued registrations of an app, found by token or by relay identifier. */
    method RemoveDevice(token: string, relayId: RelayId)
      requires Valid()
      modifies this`outbox, this`ledger
      ensures Valid()
      ensures outbox == Retained(old(outbox), item => Revokes(token, relayId, item))
      ensures forall e :: e in outbox ==> (
        && e in old(outbox)
        && (e.item.Device? && token != "" ==> e.item.token != token)
        && (e.item.Device? && relayId != NoId ==> e.item.relayId != relayId && relayId != DigestOf(e.item.token)))
      ensures forall e :: e in old(outbox) && e !in outbox ==> (
        && e.item.Device?
        && ((token != "" && e.item.token == token) ||
            (relayId != NoId && (e.item.relayId == relayId || relayId == DigestOf(e.item.token)))))
      ensures ledger == old(ledger).(revoked := old(ledger).revoked + (Tickets(old(outbox)) - Tickets(outbox)))
    {
      hide Ordered, Coalesced, Conserved, Fits;
      var retained := Retained(outbox, item => Revokes(token, relayId, item));
      RevokeLeaves(outbox, item => Revokes(token, relayId, item), log, ledger);
      RetainedEntries(outbox, item => Revokes(token, relayId, item));
      ledger := ledger.(revoked := ledger.revoked + (Tickets(outbox) - Tickets(retained)));
      if |retained| != |outbox| {
        outbox := retained;
      } else {
        RetainedAll(outbox, item => Revokes(token, relayId, item));
      }
    }
  }

  predicate Revokes(token: string, relayId: RelayId, item: Item) {
    item.Device? &&
    ((token != "" && item.token == token) ||
     (relayId != NoId && (item.relayId == relayId || relayId == DigestOf(item.token))))
  }

  lemma {:induction false} RetainedAll(box: seq<Entry>, gone: Item -> bool)
    requires |Retained(box, gone)| == |box|
    ensures Retained(box, gone) == box
  {
    if box != [] {
      RetainedShrinks(box[1..], gone);
      RetainedAll(box[1..], gone);
    }
  }

  /** After a removal no registration of that app is queued, and nothing else has left. */
  lemma RemovalIsExact(box: seq<Entry>, token: string, relayId: RelayId, e: Entry)
    ensures e in Retained(box, item => Revokes(token, relayId, item)) <==> e in box && !Revokes(token, relayId, e.item)
  {
    RetainedEntries(box, item => Revokes(token, relayId, item));
  }
}
