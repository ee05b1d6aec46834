/**
 The phone part of the activity tracker: it turns outages that were confirmed
 and then ended for good into recovery events, and withdraws an event once the
 state it describes has reversed.
 */
module Activity {
  import opened Options
  import opened Hysteresis
  import opened Availability

  /** A recovery event: the phones it names, and the confirmed outages that remained. */
  datatype Recovery = Recovery(phones: set<string>, remaining: set<string>, at: int)

  function Unavailable(snap: Snapshot): set<string> {
    set e | e in snap.endpoints && e.role.Extension? && e.Unavailable() :: e.extension
  }

  function Monitored(snap: Snapshot): set<string> {
    set e | e in snap.endpoints && e.role.Extension? && !e.health.Unknown? :: e.extension
  }

  function ReadingOf(snap: Snapshot, ext: string): Reading {
    if ext in Unavailable(snap) then Gone else if ext in Monitored(snap) then Reachable else Missing
  }

  lemma OrderedBefore(past: seq<Snapshot>, snap: Snapshot)
    ensures InOrder(past + [snap]) ==> InOrder(past)
  {
    assert forall k :: 0 <= k < |past| ==> (past + [snap])[k] == past[k];
  }

  /** One phone's view of the reachable snapshots. */
  ghost function TicksSeen(past: seq<Snapshot>, ext: string): (t: Ticks)
    ensures |t| == |past|
    ensures forall k :: 0 <= k < |t| ==> t[k] == Tick(ReadingOf(past[k], ext), false, past[k].at)
  {
    if past == [] then [] else
      TicksSeen(past[..|past| - 1], ext) + [Tick(ReadingOf(past[|past| - 1], ext), false, past[|past| - 1].at)]
  }

  /** What an event says still holds: a final recovery as long as every phone is up, others as long as theirs are. */
  predicate StillCurrent(e: Recovery, snap: Snapshot) {
    if e.remaining == {} then Unavailable(snap) == {} else e.phones !! Unavailable(snap)
  }

  function Filter(events: seq<Recovery>, keep: Recovery -> bool): (r: seq<Recovery>)
    ensures forall e :: e in r <==> e in events && keep(e)
  {
    if events == [] then []
    else Filter(events[..|events| - 1], keep) +
         if keep(events[|events| - 1]) then [events[|events| - 1]] else []
  }

  lemma {:induction false} FilterCounts(events: seq<Recovery>, keep: Recovery -> bool, e: Recovery)
    ensures multiset(Filter(events, keep))[e] == if keep(e) then multiset(events)[e] else 0
  {
    if events != [] {
      var n := |events| - 1;
      assert events == events[..n] + [events[n]];
      FilterCounts(events[..n], keep, e);
    }
  }

  lemma {:induction false} FilterKeepsOrder(events: seq<Recovery>, keep: Recovery -> bool)
    requires OldestFirst(events)
    ensures OldestFirst(Filter(events, keep))
  {
    if events != [] {
      var n := |events| - 1;
      FilterKeepsOrder(events[..n], keep);
      var r := Filter(events[..n], keep);
      forall i | 0 <= i < |r| ensures r[i].at <= events[n].at {
        assert r[i] in events[..n];
      }
    }
  }

  predicate OldestFirst(events: seq<Recovery>) {
    forall i, j :: 0 <= i < j < |events| ==> events[i].at <= events[j].at
  }

  function Reversed(events: seq<Recovery>): (r: seq<Recovery>)
    ensures |r| == |events| && forall k :: 0 <= k < |r| ==> r[k] == events[|events| - 1 - k]
  {
    if events == [] then [] else [events[|events| - 1]] + Reversed(events[..|events| - 1])
  }

  /** What the tracker remembers of one phone. */
  datatype Memory = Memory(outstanding: bool, outageAt: Option<int>, recoveryAt: Option<int>)

  /** The memory a history calls for. */
  ghost function Recalled(r: Rules, t: Ticks): Memory {
    if t == [] then Memory(false, None, None)
    else
      var since := Some(t[Since(t)].at);
      var last := t[|t| - 1].reading;
      Memory(Standing(r, t), if last.Gone? then since else None,
             if last.Reachable? && Standing(r, t) then since else None)
  }

  /** One sample's effect on the memory, and whether it confirms a recovery. */
  ghost function Remember(r: Rules, m: Memory, x: Reading, at: int): (Memory, bool) {
    var outageAt := if x.Gone? then Some(m.outageAt.GetOr(at)) else None;
    var confirmed := x.Gone? && at - outageAt.value >= r.outage;
    var running := (m.outstanding || confirmed) && x.Reachable?;
    var recoveryAt := if running then Some(m.recoveryAt.GetOr(at)) else None;
    var done := running && at - recoveryAt.value >= r.recovery;
    (Memory((m.outstanding || confirmed) && !done, outageAt, if done then None else recoveryAt), done)
  }

  lemma RecallStep(r: Rules, t: Ticks)
    requires t != [] && Chronological(t) && !r.twoSamples && !t[|t| - 1].reset
    ensures var n := |t| - 1; var (m, done) := Remember(r, Recalled(r, t[..n]), t[n].reading, t[n].at);
      m == Recalled(r, t) && (done <==> RecoveredAt(r, t, n))
  {
    var n := |t| - 1;
    JudgeLast(r, t);
    if n == 0 {
      assert !Standing(r, t[..0]);
    }
    hide Standing, OutageAt, RecoveryAt;
  }

  lemma SeenStep(past: seq<Snapshot>, snap: Snapshot, ext: string)
    ensures TicksSeen(past + [snap], ext) == TicksSeen(past, ext) + [Tick(ReadingOf(snap, ext), false, snap.at)]
    ensures InOrder(past + [snap]) ==> InOrder(past) && Chronological(TicksSeen(past + [snap], ext))
  {
    assert (past + [snap])[..|past|] == past;
    assert forall k :: 0 <= k < |past| ==> (past + [snap])[k] == past[k];
  }

  /** The step from one observation to the next, for one phone. */
  lemma MemoryFollows(r: Rules, past: seq<Snapshot>, snap: Snapshot, ext: string)
    requires InOrder(past + [snap]) && !r.twoSamples
    ensures var (m, done) := Remember(r, Recalled(r, TicksSeen(past, ext)), ReadingOf(snap, ext), snap.at);
      && m == Recalled(r, TicksSeen(past + [snap], ext))
      && (done <==> RecoveredAt(r, TicksSeen(past + [snap], ext), |past|))
  {
    SeenStep(past, snap, ext);
    var t := TicksSeen(past + [snap], ext);
    assert t[..|past|] == TicksSeen(past, ext);
    RecallStep(r, t);
  }

  lemma RecalledOutstanding(r: Rules, t: Ticks)
    requires t != []
    ensures Recalled(r, t).outstanding <==> Standing(r, t)
  {
  }

  lemma FreshIsCurrent(done: set<string>, remaining: set<string>, snap: Snapshot)
    requires done !! Unavailable(snap)
    ensures StillCurrent(Recovery(done, remaining, snap.at), snap) <==> !(remaining == {} && Unavailable(snap) != {})
  {
  }

  // ---------------------------------------------------------------- outages, snapshot by snapshot

  /** The snapshot lists the phone as one that is down. */
  predicate IsOut(s: Snapshot, ext: string) {
    exists e :: e in s.endpoints && e.extension == ext && e.role == Extension && e.health != Unknown && e.phoneDown
  }

  /** It lists the phone with a known health, and nowhere as down. */
  predicate IsBack(s: Snapshot, ext: string) {
    && !IsOut(s, ext)
    && exists e :: e in s.endpoints && e.extension == ext && e.role == Extension && e.health != Unknown
  }

  ghost predicate OutFrom(r: Rules, past: seq<Snapshot>, ext: string, i: nat, j: nat) {
    i <= j < |past| && past[j].at - past[i].at >= r.outage && forall k :: i <= k <= j ==> IsOut(past[k], ext)
  }

  ghost predicate BackFrom(r: Rules, past: seq<Snapshot>, ext: string, i: nat, j: nat) {
    i <= j < |past| && past[j].at - past[i].at >= r.recovery && forall k :: i <= k <= j ==> IsBack(past[k], ext)
  }

  ghost predicate OutAt(r: Rules, past: seq<Snapshot>, ext: string, j: nat) {
    exists i: nat :: OutFrom(r, past, ext, i, j)
  }

  ghost predicate BackAt(r: Rules, past: seq<Snapshot>, ext: string, j: nat) {
    exists i: nat :: BackFrom(r, past, ext, i, j)
  }

  ghost predicate OutSince(r: Rules, past: seq<Snapshot>, ext: string, c: nat) {
    c < |past| && OutAt(r, past, ext, c) && forall j :: c < j < |past| ==> !BackAt(r, past, ext, j)
  }

  /** The phone was down for the outage confirmation, and has not been back for the other since. */
  ghost predicate StillOut(r: Rules, past: seq<Snapshot>, ext: string) {
    exists c: nat :: OutSince(r, past, ext, c)
  }

  /** With the newest snapshot it has been. */
  ghost predicate ComesBack(r: Rules, past: seq<Snapshot>, ext: string) {
    past != [] && StillOut(r, past[..|past| - 1], ext) && BackAt(r, past, ext, |past| - 1)
  }

  lemma ReadingIsSaid(s: Snapshot, ext: string)
    ensures (IsOut(s, ext) <==> ext in Unavailable(s)) && (IsOut(s, ext) <==> ReadingOf(s, ext).Gone?)
    ensures IsBack(s, ext) <==> ReadingOf(s, ext).Reachable?
  {
  }

  lemma MomentsAreSaid(r: Rules, past: seq<Snapshot>, ext: string, j: nat)
    requires !r.twoSamples
    ensures OutageAt(r, TicksSeen(past, ext), j) <==> OutAt(r, past, ext, j)
    ensures RecoveryAt(r, TicksSeen(past, ext), j) <==> BackAt(r, past, ext, j)
  {
    var t := TicksSeen(past, ext);
    forall k | 0 <= k < |past|
      ensures (t[k].reading.Gone? <==> IsOut(past[k], ext)) && (t[k].reading.Reachable? <==> IsBack(past[k], ext))
    {
      ReadingIsSaid(past[k], ext);
    }
    hide TicksSeen, IsOut, IsBack;
    forall i: nat
      ensures (Span(t, Gone, r.outage, i, j) <==> OutFrom(r, past, ext, i, j))
           && (Span(t, Reachable, r.recovery, i, j) <==> BackFrom(r, past, ext, i, j))
    {
    }
    hide Span, OutFrom, BackFrom;
    if i: nat :| OutFrom(r, past, ext, i, j) { assert Span(t, Gone, r.outage, i, j); }
    if i: nat :| BackFrom(r, past, ext, i, j) { assert Span(t, Reachable, r.recovery, i, j); }
  }

  lemma StandingIsSaid(r: Rules, past: seq<Snapshot>, ext: string)
    requires !r.twoSamples
    ensures Standing(r, TicksSeen(past, ext)) <==> StillOut(r, past, ext)
  {
    var t := TicksSeen(past, ext);
    forall j: nat
      ensures (OutageAt(r, t, j) <==> OutAt(r, past, ext, j)) && (RecoveryAt(r, t, j) <==> BackAt(r, past, ext, j))
    {
      MomentsAreSaid(r, past, ext, j);
    }
    assert |t| == |past| && forall k :: 0 <= k < |t| ==> !t[k].reset;
    hide TicksSeen, OutageAt, RecoveryAt, OutAt, BackAt;
    forall c: nat ensures Stands(r, t, c) <==> OutSince(r, past, ext, c) {
      assert forall j :: c < j < |past| ==> (Ended(r, t, j) <==> BackAt(r, past, ext, j));
    }
  }

  /** A recovery is confirmed exactly when the phone, by its fields in the snapshots, comes back. */
  lemma RecoveryIsSaid(r: Rules, past: seq<Snapshot>, ext: string)
    requires !r.twoSamples && past != []
    ensures RecoveredAt(r, TicksSeen(past, ext), |past| - 1) <==> ComesBack(r, past, ext)
  {
    var n := |past| - 1;
    MomentsAreSaid(r, past, ext, n);
    StandingIsSaid(r, past[..n], ext);
    assert TicksSeen(past, ext)[..n] == TicksSeen(past[..n], ext);
    hide Standing, RecoveryAt, BackAt, StillOut;
  }

  /** What an event says is still so: that no phone is down, if none remained, or else none of its own. */
  ghost predicate IsCurrent(e: Recovery, s: Snapshot) {
    if e.remaining == {} then forall ext :: !IsOut(s, ext) else forall ext :: ext in e.phones ==> !IsOut(s, ext)
  }

  lemma CurrentIsSaid(s: Snapshot)
    ensures forall e :: StillCurrent(e, s) <==> IsCurrent(e, s)
  {
    forall ext ensures IsOut(s, ext) <==> ext in Unavailable(s) { ReadingIsSaid(s, ext); }
    hide IsOut, Unavailable;
    forall e ensures StillCurrent(e, s) <==> IsCurrent(e, s) {
      if e.remaining == {} && IsCurrent(e, s) { assert Unavailable(s) == {}; }
    }
  }

  // ---------------------------------------------------------------- timing the outages

  datatype Timers = Timers(
    outageAt: map<string, int>, reported: set<string>, recoveryAt: map<string, int>, outstanding: set<string>)

  predicate LongOut(timers: map<string, int>, down: set<string>, ext: string, now: int, limit: int) {
    ext in down && now - Get(timers, ext).GetOr(now) >= limit
  }

  /** What the loop over `down` has made of the timers of one phone when it has been over `done`. */
  ghost predicate Timed(was: Timers, held: Timers, down: set<string>, done: set<string>, ext: string, now: int,
                        limit: int)
  {
    var confirmed := LongOut(was.outageAt, done, ext, now, limit);
    && Get(held.outageAt, ext) ==
         (if ext in done then Some(Get(was.outageAt, ext).GetOr(now))
          else if ext in down then Get(was.outageAt, ext) else None)
    && (ext in held.outstanding <==> ext in was.outstanding || confirmed)
    && (ext in held.reported <==> ext in was.reported && !confirmed)
    && Get(held.recoveryAt, ext) == if confirmed then None else Get(was.recoveryAt, ext)
  }

  ghost predicate AllTimed(was: Timers, held: Timers, down: set<string>, done: set<string>, now: int, limit: int) {
    forall ext :: Timed(was, held, down, done, ext, now, limit)
  }

  /** The body of the loop, for one phone. */
  ghost function OneTimed(t: Timers, ext: string, now: int, limit: int): Timers {
    var since := Get(t.outageAt, ext).GetOr(now);
    var timed := t.(outageAt := t.outageAt[ext := since]);
    if now - since < limit then timed
    else timed.(reported := t.reported - {ext}, recoveryAt := t.recoveryAt - {ext},
                outstanding := t.outstanding + {ext})
  }

  lemma NothingTimed(was: Timers, held: Timers, down: set<string>, now: int, limit: int)
    requires held == was.(outageAt := map ext | ext in was.outageAt && ext in down :: was.outageAt[ext])
    ensures AllTimed(was, held, down, {}, now, limit) && AllTimed(was, held, down, down - down, now, limit)
  {
    assert down - down == {};
  }

  lemma OneMoreTimed(was: Timers, held: Timers, down: set<string>, done: set<string>, x: string, now: int, limit: int)
    requires AllTimed(was, held, down, done, now, limit) && x in down && x !in done
    ensures AllTimed(was, OneTimed(held, x, now, limit), down, done + {x}, now, limit)
  {
    assert Timed(was, held, down, done, x, now, limit);
    forall ext ensures Timed(was, OneTimed(held, x, now, limit), down, done + {x}, ext, now, limit) {
      assert Timed(was, held, down, done, ext, now, limit);
    }
  }

  lemma TimedAll(was: Timers, held: Timers, down: set<string>, now: int, limit: int)
    requires AllTimed(was, held, down, down, now, limit)
    ensures forall ext ::
      Get(held.outageAt, ext) == if ext in down then Some(Get(was.outageAt, ext).GetOr(now)) else None
    ensures forall ext ::
      ext in held.outstanding <==> ext in was.outstanding || LongOut(was.outageAt, down, ext, now, limit)
    ensures forall ext ::
      ext in held.reported <==> ext in was.reported && !LongOut(was.outageAt, down, ext, now, limit)
    ensures forall ext ::
      Get(held.recoveryAt, ext) ==
        (if LongOut(was.outageAt, down, ext, now, limit) then None else Get(was.recoveryAt, ext))
  {
    forall ext
      ensures Get(held.outageAt, ext) == if ext in down then Some(Get(was.outageAt, ext).GetOr(now)) else None
      ensures ext in held.outstanding <==> ext in was.outstanding || LongOut(was.outageAt, down, ext, now, limit)
      ensures ext in held.reported <==> ext in was.reported && !LongOut(was.outageAt, down, ext, now, limit)
      ensures Get(held.recoveryAt, ext) ==
        if LongOut(was.outageAt, down, ext, now, limit) then None else Get(was.recoveryAt, ext)
    {
      assert Timed(was, held, down, down, ext, now, limit);
    }
  }

  /** Events stand in their order, and none is later than the newest snapshot. */
  ghost predicate Dated(events: seq<Recovery>, past: seq<Snapshot>) {
    OldestFirst(events) && forall e :: e in events ==> past != [] && e.at <= past[|past| - 1].at
  }

  /** Some events go, in whatever order they stood. */
  ghost predicate Thinned(was: seq<Recovery>, events: seq<Recovery>, keep: Recovery -> bool) {
    && (forall e :: e in events <==> e in was && keep(e))
    && (forall e :: multiset(events)[e] == if keep(e) then multiset(was)[e] else 0)
    && (OldestFirst(was) ==> OldestFirst(events))
  }

  lemma FilterThins(events: seq<Recovery>, keep: Recovery -> bool)
    ensures Thinned(events, Filter(events, keep), keep)
  {
    forall e ensures multiset(Filter(events, keep))[e] == if keep(e) then multiset(events)[e] else 0 {
      FilterCounts(events, keep, e);
    }
    if OldestFirst(events) { FilterKeepsOrder(events, keep); }
    hide OldestFirst;
  }

  lemma DatedStep(events: seq<Recovery>, more: seq<Recovery>, past: seq<Snapshot>, snap: Snapshot)
    requires Dated(events, past) && InOrder(past + [snap])
    requires |more| <= 1 && forall e :: e in more ==> e.at == snap.at
    ensures Dated(events + more, past + [snap])
  {
    assert past != [] ==> (past + [snap])[|past| - 1] == past[|past| - 1];
    assert (past + [snap])[|past|] == snap;
    assert forall i :: 0 <= i < |events| ==> events[i] in events;
    assert forall i :: 0 <= i < |more| ==> more[i] in more;
  }

  class ActivityTracker {
    const keepFor: int
    const rules: Rules
    var started: bool                    // some reachable snapshot has been observed
    var events: seq<Recovery>            // oldest first
    var reported: map<string, int>
    var outstanding: set<string>
    var outageAt: map<string, int>
    var recoveryAt: map<string, int>
    ghost var past: seq<Snapshot>        // the reachable snapshots
    ghost var recorded: seq<Recovery>    // every event ever added

    ghost function Remembered(ext: string): Memory
      reads this
    {
      Memory(ext in outstanding, Get(outageAt, ext), Get(recoveryAt, ext))
    }

    ghost predicate Valid()
      reads this
    {
      && !rules.twoSamples && (started <==> past != [])
      && reported.Keys !! outstanding
      && (InOrder(past) ==> forall ext :: Remembered(ext) == Recalled(rules, TicksSeen(past, ext)))
      && (InOrder(past) ==> Dated(events, past))
    }

    constructor (keepFor: int, outage: int, recovery: int)
      ensures Valid() && past == [] && events == [] && recorded == []
      ensures this.keepFor == keepFor && rules == Rules(outage, recovery, false)
    {
      this.keepFor, rules := keepFor, Rules(outage, recovery, false);
      started, events, reported, outstanding, outageAt, recoveryAt := false, [], map[], {}, map[], map[];
      past, recorded := [], [];
    }

    /** Times the outages at hand; a confirmed one opens a new episode. */
    method TimeOutages(down: set<string>, now: int)
      modifies this`outageAt, this`reported, this`recoveryAt, this`outstanding
      ensures forall ext :: Get(outageAt, ext) == if ext in down then Some(Get(old(outageAt), ext).GetOr(now)) else None
      ensures forall ext :: ext in outstanding <==> ext in old(outstanding) || Confirms(old(outageAt), down, ext, now)
      ensures forall ext :: ext in reported <==> ext in old(reported) && !Confirms(old(outageAt), down, ext, now)
      ensures forall ext ::
        Get(recoveryAt, ext) == if Confirms(old(outageAt), down, ext, now) then None else Get(old(recoveryAt), ext)
    {
      hide Timed;
      ghost var was := Held();
      outageAt := map ext | ext in outageAt && ext in down :: outageAt[ext];
      NothingTimed(was, Held(), down, now, rules.outage);
      var todo := down;
      while todo != {}
        invariant todo <= down
        invariant AllTimed(was, Held(), down, down - todo, now, rules.outage)
        decreases todo
      {
        var ext :| ext in todo;
        ghost var held, handled := Held(), down - todo;
        OneMoreTimed(was, held, down, handled, ext, now, rules.outage);
        todo := todo - {ext};
        assert down - todo == handled + {ext};
        if ext !in outageAt {
          outageAt := outageAt[ext := now];
        }
        if now - outageAt[ext] >= rules.outage {
          reported := reported - {ext};
          recoveryAt := recoveryAt - {ext};
          outstanding := outstanding + {ext};
        }
        assert Held() == OneTimed(held, ext, now, rules.outage);
      }
      assert down - todo == down;
      TimedAll(was, Held(), down, now, rules.outage);
    }

    ghost function Held(): Timers
      reads this
    {
      Timers(outageAt, reported.Keys, recoveryAt, outstanding)
    }

    predicate Confirms(timers: map<string, int>, down: set<string>, ext: string, now: int) {
      LongOut(timers, down, ext, now, rules.outage)
    }

    predicate Completes(timers: map<string, int>, running: set<string>, ext: string, now: int) {
      ext in running && now - Get(timers, ext).GetOr(now) >= rules.recovery
    }

    /** Times the recoveries at hand, and records one event for those that are confirmed now. */
    method RecordRecoveries(up: set<string>, now: int) returns (done: set<string>)
      requires reported.Keys !! outstanding
      modifies this`recoveryAt, this`reported, this`outstanding, this`events, this`recorded
      ensures forall ext :: ext in done <==> Completes(old(recoveryAt), old(outstanding) * up, ext, now)
      ensures outstanding == old(outstanding) - done && reported.Keys == old(reported).Keys + done
      ensures forall ext ::
        Get(recoveryAt, ext) == if ext in old(outstanding) * up - done then Some(Get(old(recoveryAt), ext).GetOr(now))
                                else None
      ensures var more := if done == {} then [] else [Recovery(done, outstanding, now)];
        events == old(events) + more && recorded == old(recorded) + more
    {
      var running := outstanding * up;
      recoveryAt := map ext | ext in running :: Get(recoveryAt, ext).GetOr(now);
      done := set ext | ext in running && ext !in reported && now - recoveryAt[ext] >= rules.recovery;
      if done != {} {
        outstanding := outstanding - done;
        recoveryAt := recoveryAt - done;
        reported := reported + map ext | ext in done :: now;
        var event := Recovery(done, outstanding, now);
        events := events + [event];
        recorded := recorded + [event];
      }
    }

    /** The phones whose recovery the newest sample confirms, by their history. */
    ghost predicate Recovers(ext: string)
      requires past != []
      reads this
    {
      RecoveredAt(rules, TicksSeen(past, ext), |past| - 1)
    }

    /** Updates every phone's memory, and records the recoveries the sample confirms. */
    method UpdatePhones(snap: Snapshot) returns (done: set<string>)
      requires Valid()
      modifies this`outageAt, this`reported, this`recoveryAt, this`outstanding, this`events, this`recorded
      ensures reported.Keys !! outstanding && done !! Unavailable(snap)
      ensures InOrder(past + [snap]) ==> forall ext ::
        (Remembered(ext), ext in done) == Remember(rules, old(Remembered(ext)), ReadingOf(snap, ext), snap.at)
      ensures var more := if done == {} then [] else [Recovery(done, outstanding, snap.at)];
        events == old(events) + more && recorded == old(recorded) + more
    {
      hide Recalled, InOrder, TicksSeen;
      NothingBefore(snap);
      var down := Unavailable(snap);
      var up := Monitored(snap) - down;
      assert forall ext ::
        ReadingOf(snap, ext) == if ext in down then Gone else if ext in up then Reachable else Missing;
      hide Unavailable, Monitored, ReadingOf;
      TimeOutages(down, snap.at);
      done := {};
      if started {
        done := RecordRecoveries(up, snap.at);
      }
    }

    lemma NothingBefore(snap: Snapshot)
      requires Valid()
      ensures !started && InOrder(past + [snap]) ==> forall ext :: Remembered(ext) == Memory(false, None, None)
    {
      if !started && InOrder(past + [snap]) {
        forall ext ensures Remembered(ext) == Memory(false, None, None) {
          SeenStep(past, snap, ext);
        }
      }
    }

    /** The same update, judged by each phone's history. */
    method TrackPhones(snap: Snapshot) returns (done: set<string>)
      requires Valid()
      modifies this`outageAt, this`reported, this`recoveryAt, this`outstanding, this`events, this`recorded
      ensures reported.Keys !! outstanding && done !! Unavailable(snap)
      ensures var more := if done == {} then [] else [Recovery(done, outstanding, snap.at)];
        events == old(events) + more && recorded == old(recorded) + more
      ensures events[..|old(events)|] == old(events)
      ensures InOrder(past + [snap]) ==> forall ext ::
        var t := TicksSeen(past + [snap], ext);
        && Remembered(ext) == Recalled(rules, t)
        && (ext in done <==> RecoveredAt(rules, t, |past|)) && (ext in outstanding <==> Standing(rules, t))
    {
      hide Remember, Recalled, Standing, RecoveredAt;
      if InOrder(past + [snap]) {
        forall ext ensures Remembered(ext) == Recalled(rules, TicksSeen(past, ext)) {
          SeenStep(past, snap, ext);
        }
      }
      done := UpdatePhones(snap);
      if InOrder(past + [snap]) {
        forall ext
          ensures var t := TicksSeen(past + [snap], ext);
            && Remembered(ext) == Recalled(rules, t)
            && (ext in done <==> RecoveredAt(rules, t, |past|)) && (ext in outstanding <==> Standing(rules, t))
        {
          MemoryFollows(rules, past, snap, ext);
          RecalledOutstanding(rules, TicksSeen(past + [snap], ext));
        }
      }
    }

    /** The same update; the events stay in their order. */
    method TrackInOrder(snap: Snapshot) returns (done: set<string>)
      requires Valid()
      modifies this`outageAt, this`reported, this`recoveryAt, this`outstanding, this`events, this`recorded
      ensures reported.Keys !! outstanding && done !! Unavailable(snap)
      ensures var more := if done == {} then [] else [Recovery(done, outstanding, snap.at)];
        events == old(events) + more && recorded == old(recorded) + more
      ensures InOrder(past + [snap]) ==> Dated(events, past + [snap])
      ensures InOrder(past + [snap]) ==> forall ext ::
        var t := TicksSeen(past + [snap], ext);
        && Remembered(ext) == Recalled(rules, t)
        && (ext in done <==> RecoveredAt(rules, t, |past|)) && (ext in outstanding <==> Standing(rules, t))
    {
      hide Recalled, Standing, RecoveredAt, Unavailable, TicksSeen, InOrder, Dated;
      OrderedBefore(past, snap);
      ghost var was := events;
      done := TrackPhones(snap);
      if InOrder(past + [snap]) {
        DatedStep(was, events[|was|..], past, snap);
      }
    }

    /**
     A reachable observation: memory, new event, and withdrawal of events that are no longer true. The
     new event itself is withdrawn exactly if it claims all phones while some outage is not yet confirmed.
     */
    method ObserveReachable(snap: Snapshot) returns (done: set<string>)
      requires Valid()
      modifies this
      ensures Valid() && past == old(past) + [snap]
      ensures var more := if done == {} then [] else [Recovery(done, outstanding, snap.at)];
        recorded == old(recorded) + more &&
        forall e :: multiset(events)[e] == if StillCurrent(e, snap) then multiset(old(events) + more)[e] else 0
      ensures done != {} ==>
        (Recovery(done, outstanding, snap.at) !in events <==> outstanding == {} && Unavailable(snap) != {})
      ensures InOrder(past) ==> forall ext ::
        (ext in done <==> Recovers(ext)) && (ext in outstanding <==> Standing(rules, TicksSeen(past, ext)))
    {
      hide Recalled, Standing, StillCurrent, RecoveredAt, Unavailable, TicksSeen, InOrder, OldestFirst;
      done := TrackInOrder(snap);
      FreshIsCurrent(done, outstanding, snap);
      Withdraw(snap);
      started := true;
      past := past + [snap];
    }

    /** One observation, judged by each phone's history. */
    method Take(snap: Snapshot) returns (shown: seq<Recovery>, done: set<string>)
      requires Valid()
      modifies this
      ensures Valid() && shown == Reversed(events)
      ensures past == if snap.reachable then old(past) + [snap] else old(past)
      ensures !snap.reachable ==> done == {}
      ensures snap.reachable && InOrder(past) ==> forall ext ::
        (ext in done <==> Recovers(ext)) && (ext in outstanding <==> Standing(rules, TicksSeen(past, ext)))
      ensures var more := if done == {} then [] else [Recovery(done, outstanding, snap.at)];
        recorded == old(recorded) + more &&
        forall e :: multiset(events)[e] ==
          if (snap.reachable ==> StillCurrent(e, snap)) && e.at >= snap.at - keepFor
          then multiset(old(events) + more)[e] else 0
    {
      hide Recalled, Standing, StillCurrent, RecoveredAt, Recovers, TicksSeen, InOrder;
      done := {};
      if snap.reachable {
        done := ObserveReachable(snap);
      }
      Prune(snap.at);
      shown := Reversed(events);
    }

    /**
     One observation. With a clock that never goes back it records an event exactly when a phone, by
     its fields in the reachable snapshots, comes back for good, naming those phones and the ones that
     are still out. What is shown, newest first, is everything recorded that is recent and that no
     reachable snapshot since has reversed.
     */
    method Observe(snap: Snapshot) returns (shown: seq<Recovery>, done: set<string>)
      requires Valid()
      modifies this
      ensures Valid()
      ensures past == if snap.reachable then old(past) + [snap] else old(past)
      ensures !snap.reachable ==> done == {}
      ensures snap.reachable && InOrder(past) ==> forall ext ::
        (ext in done <==> ComesBack(rules, past, ext)) && (ext in outstanding <==> StillOut(rules, past, ext))
      ensures var more := if done == {} then [] else [Recovery(done, outstanding, snap.at)];
        recorded == old(recorded) + more &&
        forall e :: multiset(events)[e] ==
          if (snap.reachable ==> IsCurrent(e, snap)) && e.at >= snap.at - keepFor
          then multiset(old(events) + more)[e] else 0
      ensures |shown| == |events| && forall k :: 0 <= k < |shown| ==> shown[k] == events[|events| - 1 - k]
      ensures InOrder(past) ==> forall i, j :: 0 <= i < j < |shown| ==> shown[i].at >= shown[j].at
    {
      hide Recalled, Standing, StillCurrent, RecoveredAt, TicksSeen, InOrder, IsCurrent, ComesBack, StillOut;
      shown, done := Take(snap);
      CurrentIsSaid(snap);
      if snap.reachable {
        forall ext
          ensures Recovers(ext) <==> ComesBack(rules, past, ext)
          ensures Standing(rules, TicksSeen(past, ext)) <==> StillOut(rules, past, ext)
        {
          RecoveryIsSaid(rules, past, ext);
          StandingIsSaid(rules, past, ext);
        }
      }
    }

    /** Withdraws the events that are no longer true. */
    method Withdraw(snap: Snapshot)
      modifies this`events
      ensures forall e :: e in events <==> e in old(events) && StillCurrent(e, snap)
      ensures forall e :: multiset(events)[e] == if StillCurrent(e, snap) then multiset(old(events))[e] else 0
      ensures OldestFirst(old(events)) ==> OldestFirst(events)
    {
      hide StillCurrent;
      FilterThins(events, (e: Recovery) => StillCurrent(e, snap));
      events := Filter(events, (e: Recovery) => StillCurrent(e, snap));
    }

    method Forget(now: int)
      modifies this`events
      ensures forall e :: e in events <==> e in old(events) && e.at >= now - keepFor
      ensures forall e :: multiset(events)[e] == if e.at >= now - keepFor then multiset(old(events))[e] else 0
      ensures OldestFirst(old(events)) ==> OldestFirst(events)
    {
      FilterThins(events, (e: Recovery) => e.at >= now - keepFor);
      events := Filter(events, (e: Recovery) => e.at >= now - keepFor);
    }

    /** Forgets what is older than the retention period. */
    method Prune(now: int)
      requires Valid()
      modifies this`events, this`reported
      ensures Valid()
      ensures forall e :: multiset(events)[e] == if e.at >= now - keepFor then multiset(old(events))[e] else 0
      ensures forall ext :: past != [] ==> (Recovers(ext) <==> old(Recovers(ext)))
    {
      hide Recalled, RecoveredAt, TicksSeen, InOrder, OldestFirst;
      Forget(now);
      reported := map ext | ext in reported && reported[ext] >= now - keepFor :: reported[ext];
    }
  }

  // ---------------------------------------------------------------- an event withdrawn at once

  const RULES := Rules(5, 15, false)

  function Phone(ext: string, down: bool): Endpoint {
    Endpoint(ext, Extension, Unstated, 0, down, false, false, "")
  }

  function Pair(first: bool, second: bool, at: int): Snapshot {
    Snapshot(true, [Phone("1", first), Phone("2", second)], at)
  }

  lemma PairReads(first: bool, second: bool, at: int)
    ensures Unavailable(Pair(first, second, at)) == (if first then {"1"} else {}) + if second then {"2"} else {}
    ensures Monitored(Pair(first, second, at)) == {"1", "2"}
  {
    var s := Pair(first, second, at).endpoints;
    assert s[0] in s && s[1] in s && forall e :: e in s ==> e == s[0] || e == s[1];
    assert s[0].Unavailable() == first && s[1].Unavailable() == second;
  }

  /** One phone goes down for good and comes back; the other goes down as its recovery is confirmed. */
  ghost predicate Relieved(past: seq<Snapshot>) {
    past <= [Pair(true, false, 0), Pair(true, false, 5), Pair(false, false, 6), Pair(false, true, 21)]
  }

  function RelievedTick(ext: string, k: nat): Tick
    requires k < 4
  {
    var reading := if ext == "1" then [Gone, Gone, Reachable, Reachable][k]
                   else if ext == "2" then [Reachable, Reachable, Reachable, Gone][k] else Missing;
    Tick(reading, false, [0, 5, 6, 21][k])
  }

  lemma RelievedTicks(past: seq<Snapshot>, ext: string)
    requires Relieved(past)
    ensures InOrder(past) && Chronological(TicksSeen(past, ext))
    ensures var t := TicksSeen(past, ext); |t| == |past| && forall k :: 0 <= k < |t| ==> t[k] == RelievedTick(ext, k)
  {
    PairReads(true, false, 0);
    PairReads(true, false, 5);
    PairReads(false, false, 6);
    PairReads(false, true, 21);
    hide Unavailable, Monitored;
  }

  /** Until the last sample nothing has recovered. */
  lemma NotYetRecovered(past: seq<Snapshot>, ext: string)
    requires Relieved(past) && 0 < |past| < 4
    ensures !RecoveredAt(RULES, TicksSeen(past, ext), |past| - 1)
  {
    RelievedTicks(past, ext);
    hide Standing, TicksSeen;
  }

  /** With it the first phone has, and no confirmed outage remains. */
  lemma OneRecovered(past: seq<Snapshot>)
    requires Relieved(past) && |past| == 4
    ensures ComesBack(RULES, past, "1") && forall ext :: !StillOut(RULES, past, ext)
  {
    var t := TicksSeen(past, "1");
    RelievedTicks(past, "1");
    hide TicksSeen;
    assert Span(t[..3], Gone, 5, 0, 1) && Stands(RULES, t[..3], 1);
    assert Span(t, Reachable, 15, 2, 3);
    forall ext ensures !StillOut(RULES, past, ext) {
      NoneStands(past, ext);
      StandingIsSaid(RULES, past, ext);
    }
    RecoveryIsSaid(RULES, past, "1");
    hide Standing, StillOut, ComesBack;
  }

  lemma NoneStands(past: seq<Snapshot>, ext: string)
    requires Relieved(past) && |past| == 4
    ensures !Standing(RULES, TicksSeen(past, ext))
  {
    RelievedTicks(past, ext);
    hide TicksSeen;
    var t := TicksSeen(past, ext);
    if ext == "1" { assert Span(t, Reachable, 15, 2, 3) && Ended(RULES, t, 3); }
    forall c: nat ensures !Stands(RULES, t, c) {
      assert OutageAt(RULES, t, c) ==> c < 4 && t[c].reading.Gone?;
      assert c == 3 ==> !(exists i: nat :: i < 3 && Span(t, Gone, 5, i, 3));
    }
  }

  method ObserveQuietly(t: ActivityTracker, snap: Snapshot)
    requires t.Valid() && t.rules == RULES && t.keepFor == 100 && t.events == [] == t.recorded
    requires Relieved(t.past + [snap]) && |t.past| < 3 && snap.reachable
    modifies t
    ensures t.Valid() && t.past == old(t.past) + [snap] && t.events == [] == t.recorded
  {
    hide Recalled, ComesBack, StillOut, TicksSeen, InOrder, Relieved, IsCurrent, IsOut;
    var shown, done := t.Observe(snap);
    NothingYet(t, done);
    if t.events != [] { HasElement(t.events); }
  }

  lemma NothingYet(t: ActivityTracker, done: set<string>)
    requires t.rules == RULES && Relieved(t.past) && 0 < |t.past| < 4 && !t.rules.twoSamples
    requires InOrder(t.past) ==> forall ext :: ext in done <==> ComesBack(t.rules, t.past, ext)
    ensures done == {} && InOrder(t.past)
  {
    RelievedTicks(t.past, "1");
    hide RecoveredAt, TicksSeen, InOrder, ComesBack;
    forall ext ensures ext !in done {
      NotYetRecovered(t.past, ext);
      RecoveryIsSaid(t.rules, t.past, ext);
    }
  }

  lemma HasElement<T>(s: seq<T>)
    requires s != []
    ensures exists e :: e in s
  {
    assert s[0] in s;
  }

  /** All phones are back, says an event of the very observation that withdraws it. */
  method WithdrawnAtOnce() returns (shown: seq<Recovery>, t: ActivityTracker)
    ensures |t.recorded| == 1 && t.recorded[0].remaining == {} && t.events == [] == shown
  {
    hide Recalled, ComesBack, StillOut, TicksSeen, InOrder;
    t := new ActivityTracker(100, 5, 15);
    ObserveQuietly(t, Pair(true, false, 0));
    ObserveQuietly(t, Pair(true, false, 5));
    ObserveQuietly(t, Pair(false, false, 6));
    RelievedTicks(t.past + [Pair(false, true, 21)], "1");
    OneRecovered(t.past + [Pair(false, true, 21)]);
    PairReads(false, true, 21);
    var done;
    hide Unavailable, Relieved;
    shown, done := t.Observe(Pair(false, true, 21));
    assert "1" in done && t.outstanding == {};
    ReadingIsSaid(Pair(false, true, 21), "2");
    if t.events != [] { HasElement(t.events); }
  }
}
