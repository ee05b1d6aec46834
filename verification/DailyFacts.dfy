/**
 What an observation is in terms of its snapshot, field by field: what a look at the queues records, when
 the history is read and what a batch shows, and when the state is saved.
 */
module DailyFacts {
  import opened Options
  import opened CallLedger
  import opened QueueDay
  import opened CallDay
  import opened DailySummary
  import opened DailySteps

  /** The look records the snapshot's queues, and what it says about its sources. */
  ghost predicate Sees(o: Seen, s: Snapshot, now: Stamp) {
    && o.stamp == now && (o.ready <==> s.reachable && s.queuesReady)
    && (forall n :: n in o.names <==> exists q :: q in s.queues && q.name == n)
    && 0 <= o.wait && (forall q :: q in s.queues ==> q.longestWait <= o.wait)
    && (o.wait == 0 || exists q :: q in s.queues && q.longestWait == o.wait)
    && (o.empty <==> s.reachable && s.queuesReady && s.queues != [] && forall q :: q in s.queues ==> q.waiting == 0)
    && (o.check.ready <==> s.reachable && s.cdrReady) && o.check.age == s.age
    && (o.check.calling <==> s.channels) && (o.check.voice <==> s.voicemailReady)
  }

  lemma {:induction false} LongestIsMaximum(queues: seq<Queue>)
    ensures 0 <= LongestOf(queues) && forall q :: q in queues ==> q.longestWait <= LongestOf(queues)
    ensures LongestOf(queues) == 0 || exists q :: q in queues && q.longestWait == LongestOf(queues)
  {
    if queues != [] {
      var n := |queues| - 1;
      LongestIsMaximum(queues[..n]);
      assert queues == queues[..n] + [queues[n]];
    }
  }

  lemma LookSees(s: Snapshot, now: Stamp, stored: bool, read: Option<Batched>)
    ensures Sees(Look(s, now, stored, read), s, now)
  {
    LongestIsMaximum(s.queues);
    if s.queues != [] { assert s.queues[0] in s.queues && s.queues[0].name in NamesOf(s.queues); }
    hide LongestOf;
  }

  // ---------------------------------------------------------------- reading the history

  /** The history is ready and recent, and at least a second newer than what was read last. */
  predicate ReadDue(last: Option<Stamp>, s: Snapshot, now: Stamp, gap: int) {
    var age := if s.age.Some? then s.age.value else 0;
    s.reachable && s.cdrReady && (s.age.Some? ==> age <= gap) && (last.Some? ==> now - age - last.value >= 1_000_000)
  }

  /** A record of a counted disposition from the last three days. */
  predicate InWindow(k: Key, now: Stamp) {
    var day, today := k.startedAt / 86_400_000_000, now / 86_400_000_000;
    today - 2 <= day <= today && k.outcome in {Missed, Answered}
  }

  /** What the batch is said to show is what its records and the table show. */
  ghost predicate BatchShows(b: Batched, s: Snapshot, lastKey: Option<Key>, table: map<Key, nat>, now: Stamp) {
    var shown := set c | c in s.calls && c.Dated? && InWindow(c.key, now) :: c.key;
    var known := set k | k in table && now / 86_400_000_000 - 2 <= k.startedAt / 86_400_000_000;
    && (b.undated <==> Undated in s.calls)
    && (b.anchored <==> if lastKey.Some? then lastKey.value in shown else |s.calls| < 1000)
    && (b.crowded <==> |known + shown| + s.voicemailRows + |s.voicemails| > 100_000)
    && (b.vague <==> (s.voicemailReady && Voicemail(false) in s.voicemails) || 100 <= |s.voicemails|)
  }

  lemma {:induction false} CountedIsShown(calls: seq<Call>, now: Stamp, k: Key)
    ensures k in Counted(calls, DayOf(now)) <==> exists c :: c in calls && c.Dated? && c.key == k && InWindow(k, now)
  {
    if calls != [] {
      var n := |calls| - 1;
      CountedIsShown(calls[..n], now, k);
      assert calls == calls[..n] + [calls[n]];
      assert forall c :: c in calls <==> c in calls[..n] || c == calls[n];
    }
  }

  function ShownIn(calls: seq<Call>, now: Stamp): set<Key> {
    set c | c in calls && c.Dated? && InWindow(c.key, now) :: c.key
  }

  lemma ShownIsCounted(calls: seq<Call>, now: Stamp)
    ensures forall k :: k in ShownIn(calls, now) <==> k in Counted(calls, DayOf(now))
  {
    forall k ensures k in ShownIn(calls, now) <==> k in Counted(calls, DayOf(now)) {
      CountedIsShown(calls, now, k);
    }
  }

  lemma TogetherAre(recent: map<Key, nat>, counts: multiset<Key>, shown: set<Key>)
    requires forall k :: k in shown <==> k in counts
    ensures |recent| + |set k | k in counts && k !in recent| == |recent.Keys + shown|
  {
    var more := set k | k in counts && k !in recent;
    assert more == shown - recent.Keys;
    assert recent.Keys + shown == recent.Keys + more && recent.Keys !! more;
  }

  lemma CrowdedIsShown(s: Snapshot, table: map<Key, nat>, now: Stamp)
    ensures var known := set k | k in table && now / 86_400_000_000 - 2 <= k.startedAt / 86_400_000_000;
      Crowded(table, s, DayOf(now)) <==> |known + ShownIn(s.calls, now)| + s.voicemailRows + |s.voicemails| > 100_000
  {
    var recent, counts := Recent(table, DayOf(now)), Counted(s.calls, DayOf(now));
    assert recent.Keys == set k | k in table && now / 86_400_000_000 - 2 <= k.startedAt / 86_400_000_000;
    ShownIsCounted(s.calls, now);
    hide Counted, ShownIn, Recent;
    TogetherAre(recent, counts, ShownIn(s.calls, now));
  }

  lemma BatchIsShown(s: Snapshot, lastKey: Option<Key>, table: map<Key, nat>, now: Stamp)
    ensures BatchShows(BatchedOf(s, lastKey, table, DayOf(now)), s, lastKey, table, now)
  {
    ShownIsCounted(s.calls, now);
    CrowdedIsShown(s, table, now);
    assert ShownIn(s.calls, now) == set c | c in s.calls && c.Dated? && InWindow(c.key, now) :: c.key;
    hide Crowded, Counted, InWindow, DayOf, ShownIn;
  }

  /** The anchor for the next read: of the records shown in the window, one that started in the latest second. */
  ghost predicate LatestShown(calls: seq<Call>, anchor: Option<Key>, now: Stamp) {
    var shown := ShownIn(calls, now);
    && (anchor.None? <==> shown == {})
    && (anchor.Some? ==>
          anchor.value in shown &&
          forall k :: k in shown ==> k.startedAt / 1_000_000 <= anchor.value.startedAt / 1_000_000)
  }

  lemma AnchorIsLatest(calls: seq<Call>, now: Stamp)
    ensures forall anchor :: Anchors(anchor, Counted(calls, DayOf(now))) ==> LatestShown(calls, anchor, now)
  {
    ShownIsCounted(calls, now);
    hide Counted, ShownIn, DayOf;
    var counts, shown := Counted(calls, DayOf(now)), ShownIn(calls, now);
    assert counts == multiset{} <==> shown == {} by {
      if counts != multiset{} {
        var k :| k in counts;
        assert k in shown;
      }
    }
  }

  lemma CrowdedIsRead(s: Snapshot, lastKey: Option<Key>, table: map<Key, nat>, now: Stamp)
    ensures BatchedOf(s, lastKey, table, DayOf(now)).crowded == Crowded(table, s, DayOf(now))
  {
  }

  // ---------------------------------------------------------------- saving

  /**
   A batch was read, a flag of the day differs from what it was, the last save is a minute old, or the
   day has seen a wait over a minute that was not saved as such. A day begins with its flags up in its
   first minute, and down after that.
   */
  predicate SaveDue(read: bool, before: Days, d: Day, now: Stamp, savedAt: Stamp, breachDay: Option<int>) {
    var today := now / 86_400_000_000;
    var inTime := now % 86_400_000_000 / 1_000_000 <= 60;
    || read
    || d.callsComplete != (if today in before then before[today].callsComplete else inTime)
    || d.queuesComplete != (if today in before then before[today].queuesComplete else inTime)
    || d.voicemailComplete != (if today in before then before[today].voicemailComplete else inTime)
    || now - savedAt >= 60_000_000
    || (d.maxWait > 60 && breachDay != Some(today))
  }

  lemma SavesWhenDue(read: bool, before: Days, d: Day, now: Stamp, savedAt: Stamp, breachDay: Option<int>)
    requires DayOf(now) in WithDay(before, DayOf(now), now)
    ensures SaveDue(read, before, d, now, savedAt, breachDay) <==>
      read || Due(d, FlagsOf(WithDay(before, DayOf(now), now)[DayOf(now)]), now, savedAt, breachDay)
  {
  }

  lemma OpensToday(before: Days, now: Stamp)
    ensures DayOf(now) in WithDay(before, DayOf(now), now)
  {
  }

  lemma TodayIs(now: Stamp)
    ensures DayOf(now) == now / 86_400_000_000
  {
  }

  lemma ReadsWhenDue(last: Option<Stamp>, s: Snapshot, now: Stamp, gap: int)
    ensures ReadDue(last, s, now, gap) <==> IsNew(last, s, now) && HistoryReady(s, gap)
    ensures ReadAt(s, now) == now - if s.age.Some? then s.age.value else 0
  {
  }
}
