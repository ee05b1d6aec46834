/** The claims the home page makes about a completed day, and what the observations behind them were. */
module DailyMoments {
  import opened Options
  import opened CallLedger
  import opened QueueDay
  import opened CallDay
  import opened DailySummary
  import opened DailyRestart
  import opened DailySteps
  import opened DailyFacts
  import opened DailyTracker

  const SETTLED := 300 * SECOND

  datatype Moment =
    | QueuesFinishedWithinTarget(day: int, queues: nat, longestWait: int)
    | DayWithoutMissedCalls(day: int, calls: nat)
    | CleanStreak(days: nat, through: int)

  function Midnight(now: Stamp): Stamp { DayOf(now) * DAY }

  predicate QueuesMet(p: Published, now: Stamp) {
    var d := DayOf(now) - 1;
    && p.available && SETTLED <= now - Midnight(now) && d in p.days
    && p.days[d].queuesComplete && p.days[d].queueNames != {} && p.days[d].queuesEmpty &&
      p.days[d].maxWait <= WAIT_TARGET
  }

  predicate HistorySettled(p: Published, now: Stamp) {
    p.available && p.lastHistory.Some? && Midnight(now) + SETTLED <= p.lastHistory.value
  }

  predicate Clean(days: Days, d: int) {
    d in days && days[d].callsComplete && 0 < days[d].calls && days[d].missed == 0
  }

  /** The `count` days up to `through` are clean, and the one before them is not. */
  predicate IsStreak(days: Days, through: int, count: nat) {
    (forall d :: through - count < d <= through ==> Clean(days, d)) && !Clean(days, through - count)
  }

  /** Counts back over clean days. */
  method Streak(days: Days, through: int) returns (count: nat)
    ensures IsStreak(days, through, count)
  {
    count := 0;
    while Clean(days, through - count)
      invariant forall d :: through - count < d <= through ==> Clean(days, d)
      decreases |set d | d in days && d <= through - count|
    {
      ghost var left := set d | d in days && d <= through - count;
      ghost var fewer := set d | d in days && d <= through - count - 1;
      assert left == fewer + {through - count};
      count := count + 1;
    }
  }

  function QueueClaim(p: Published, now: Stamp): seq<Moment> {
    var d := DayOf(now) - 1;
    if QueuesMet(p, now) then [QueuesFinishedWithinTarget(d, |p.days[d].queueNames|, p.days[d].maxWait)] else []
  }

  function MissedClaim(p: Published, now: Stamp): seq<Moment> {
    var d := DayOf(now) - 1;
    if HistorySettled(p, now) && Clean(p.days, d) then [DayWithoutMissedCalls(d, p.days[d].calls)] else []
  }

  function StreakClaim(p: Published, now: Stamp, count: nat): seq<Moment> {
    if HistorySettled(p, now) && 2 <= count then [CleanStreak(count, DayOf(now) - 1)] else []
  }

  method OperationalMoments(p: Published, now: Stamp) returns (moments: seq<Moment>, streak: nat)
    ensures p.available ==> IsStreak(p.days, DayOf(now) - 1, streak)
    ensures moments == QueueClaim(p, now) + MissedClaim(p, now) + StreakClaim(p, now, streak)
  {
    moments, streak := [], 0;
    if !p.available {
      return;
    }
    var yesterday := DayOf(now) - 1;
    if SETTLED <= now - Midnight(now) && yesterday in p.days {
      var d := p.days[yesterday];
      if d.queuesComplete && d.queueNames != {} && d.queuesEmpty && d.maxWait <= WAIT_TARGET {
        moments := moments + [QueuesFinishedWithinTarget(yesterday, |d.queueNames|, d.maxWait)];
      }
    }
    var settled := p.lastHistory.Some? && Midnight(now) + SETTLED <= p.lastHistory.value;
    if settled && yesterday in p.days {
      var d := p.days[yesterday];
      if d.callsComplete && 0 < d.calls && d.missed == 0 {
        moments := moments + [DayWithoutMissedCalls(yesterday, d.calls)];
      }
    }
    streak := Streak(p.days, yesterday);
    if settled && 2 <= streak {
      moments := moments + [CleanStreak(streak, yesterday)];
    }
  }

  // ---------------------------------------------------------------- what the claims rest on

  /**
   The queue moment is emitted exactly when the observations bear it out: five minutes into the
   next day, with the day's last look and everything before it as the moment says.
   */
  lemma QueueMomentIsExact(p: Published, seen: seq<Seen>, gap: int, now: Stamp)
    requires QueueValid(p.days, Some(now), seen, gap, now) && p.available
    ensures QueuesMet(p, now) <==> SETTLED <= now - Midnight(now) && FinishedWithinTarget(seen, DayOf(now) - 1, gap)
  {
    var d := DayOf(now) - 1;
    hide Continuous, DayOf, Ordered;
    WaitsWithin(seen, d);
    if d in p.days {
      assert Agrees(p.days[d], seen, d, gap);
      if Continuous(seen, d, gap) { ClosesAsSeen(seen, d, gap); }
    } else {
      assert forall i :: !IsOn(seen, i, d);
      NotContinuous(seen, d, gap);
    }
  }

  lemma ClosesAsSeen(seen: seq<Seen>, d: int, gap: int)
    requires Ordered(seen) && Continuous(seen, d, gap)
    ensures ClosedEmpty(seen, d) && Names(seen, d) != {} <==>
      forall i :: IsOn(seen, i, d) && !IsOn(seen, i + 1, d) ==> seen[i].empty && seen[i].names != {}
  {
    var i :| IsOn(seen, i, d);
    var last := LastLookOf(seen, d, i);
    hide DayOf, ClosedEmpty, Names, Ordered, Continuous;
    LastLookHolds(seen, d, last);
    NamesAreConstant(seen, d, gap, last);
    forall j | IsOn(seen, j, d) && !IsOn(seen, j + 1, d)
      ensures (ClosedEmpty(seen, d) <==> seen[j].empty) && seen[j].names == Names(seen, d)
    {
      LastLookHolds(seen, d, j);
      NamesAreConstant(seen, d, gap, j);
    }
  }

  /**
   What continuity gives, look by look: readiness, the first minute, the gaps up to and over midnight, and
   constant queues.
   */
  lemma ContinuousLooks(seen: seq<Seen>, d: int, gap: int, i: int)
    requires Ordered(seen) && Continuous(seen, d, gap) && IsOn(seen, i, d)
    ensures seen[i].ready && seen[i].names == Names(seen, d)
    ensures !IsOn(seen, i - 1, d) ==> seen[i].stamp % 86_400_000_000 / 1_000_000 <= 60
    ensures 0 < i ==> 0 <= seen[i].stamp - seen[i - 1].stamp <= gap
    ensures i + 1 < |seen| ==> 0 <= seen[i + 1].stamp - seen[i].stamp <= gap && seen[i + 1].ready
  {
    NamesAreConstant(seen, d, gap, i);
    assert Good(seen[i], !IsOn(seen, i - 1, d));
    assert 0 < i ==> Linked(seen, i, d, gap) by { assert 0 < i ==> Touches(seen, i, d); }
    assert i + 1 < |seen| ==> Linked(seen, i + 1, d, gap) by { assert i + 1 < |seen| ==> Touches(seen, i + 1, d); }
    hide DayOf, Names, Continuous;
  }

  ghost predicate NoneMissed(batches: seq<Batch>, d: int) {
    forall i: nat, k: Key :: i < |batches| ==> Shown(batches, i, Bucket(d, Missed), k) == 0
  }

  ghost predicate SomeCall(batches: seq<Batch>, d: int) {
    exists i: nat, k: Key :: i < |batches| && Shown(batches, i, Bucket(d, k.outcome), k) > 0
  }

  /** The day's calls were watched throughout, there were some, and none of them was missed. */
  ghost predicate CleanDay(looks: seq<Seen>, batches: seq<Batch>, d: int, gap: int) {
    Covered(OfCalls, looks, d, gap) && SomeCall(batches, d) && NoneMissed(batches, d)
  }

  lemma NoMissedIsExact(days: Days, table: map<Key, nat>, batches: seq<Batch>, today: int, d: int)
    requires LedgerValid(days, table, batches, today) && today - RETENTION <= d
    ensures MissedOn(days, d) == 0 <==> NoneMissed(batches, d)
    ensures 0 < CallsOn(days, d) <==> SomeCall(batches, d)
  {
    var missed, answered := Bucket(d, Missed), Bucket(d, Answered);
    assert DayCounts(days, batches, d);
    LedgerEmptyIff(batches, missed);
    LedgerEmptyIff(batches, answered);
    if 0 < CallsOn(days, d) {
      var b := if Ledger(batches, missed) != multiset{} then missed else answered;
      var i: nat, k: Key :| i < |batches| && Shown(batches, i, b, k) > 0;
      IsOfBucket(batches, i, b, k);
    }
    if SomeCall(batches, d) {
      var i: nat, k: Key :| i < |batches| && Shown(batches, i, Bucket(d, k.outcome), k) > 0;
      IsOfBucket(batches, i, Bucket(d, k.outcome), k);
      assert Bucket(d, k.outcome) == missed || Bucket(d, k.outcome) == answered;
    }
  }

  lemma IsOfBucket(batches: seq<Batch>, i: nat, b: Bucket, k: Key)
    requires i < |batches| && Shown(batches, i, b, k) > 0
    ensures BucketOf(k) == b && b.outcome != Other
  {
  }

  lemma LedgerEmptyIff(batches: seq<Batch>, b: Bucket)
    ensures Ledger(batches, b) == multiset{} <==>
      forall i: nat, k: Key :: i < |batches| ==> Shown(batches, i, b, k) == 0
  {
    if Ledger(batches, b) != multiset{} {
      var k :| k in Ledger(batches, b);
      var i := LedgerIsShown(batches, b, k);
      assert Shown(batches, i, b, k) > 0;
    } else {
      forall i: nat, k: Key | i < |batches| ensures Shown(batches, i, b, k) == 0 {
        LedgerHoldsShown(batches, i, b, k);
      }
    }
  }

  /** A retained day is recorded as clean exactly when the history says it was. */
  lemma CleanIsExact(t: DailySummaryTracker, today: int, d: int)
    requires t.Valid() && DayOf(t.clock) == today && today - RETENTION <= d
    ensures Clean(t.days, d) <==> CleanDay(t.looks, t.batches, d, t.historyGap)
  {
    NoMissedIsExact(t.days, t.table, t.batches, today, d);
    if Covered(OfCalls, t.looks, d, t.historyGap) {
      var i :| IsOn(t.looks, i, d);
      assert d in t.days;
    }
    hide Covered, NoneMissed, SomeCall, Chronicled, LedgerValid, QueueValid;
  }

  /** Every retained day of the streak was clean, and the one before it was not. */
  ghost predicate StreakHolds(looks: seq<Seen>, batches: seq<Batch>, through: int, count: nat, oldest: int, gap: int) {
    && (forall d :: through - count < d <= through && oldest <= d ==> CleanDay(looks, batches, d, gap))
    && (oldest <= through - count ==> !CleanDay(looks, batches, through - count, gap))
  }

  lemma StreakIsExact(t: DailySummaryTracker, today: int, count: nat)
    requires t.Valid() && DayOf(t.clock) == today && IsStreak(t.days, today - 1, count)
    ensures StreakHolds(t.looks, t.batches, today - 1, count, today - RETENTION, t.historyGap)
    ensures 2 <= count <==>
      CleanDay(t.looks, t.batches, today - 1, t.historyGap) && CleanDay(t.looks, t.batches, today - 2, t.historyGap)
  {
    hide CleanDay, DayOf, QueueValid, LedgerValid, FlagsValid, Chronicled, Clean, TodaySaved;
    forall d | today - RETENTION <= d ensures Clean(t.days, d) <==> CleanDay(t.looks, t.batches, d, t.historyGap) {
      CleanIsExact(t, today, d);
    }
  }

  /** The newest read, of those that led to the present state, is from five minutes past midnight or later. */
  predicate ReadSettled(looks: seq<Seen>, now: Stamp) {
    LastRead(looks).Some? && now / 86_400_000_000 * 86_400_000_000 + 300_000_000 <= LastRead(looks).value
  }

  /** What a queue claim made from the kept looks is worth over all the looks there ever were. */
  ghost predicate WorthOf(h: Chronicle, looks: seq<Seen>, d: int, gap: int) {
    && (FinishedWithinTarget(Plainly(h.all), d, gap) <==> AllHarmless(h.all, h.kept, looks, d, gap))
    && (!h.forgot ==> (FinishedWithinTarget(Plainly(h.all), d, gap) <==> EdgesAgree(h.all, h.kept, looks, d)))
    && (NothingLost(h) ==> FinishedWithinTarget(Plainly(h.all), d, gap))
  }

  lemma ClaimIsWorth(h: Chronicle, looks: seq<Seen>, saved: seq<Seen>, gap: int, clock: Stamp, savedAt: Stamp,
                     breachDay: Option<int>, d: int)
    requires Chronicled(h, looks, saved, gap, clock, savedAt, breachDay) && FinishedWithinTarget(looks, d, gap)
    requires h.kept != [] && h.kept[|h.kept| - 1] == |h.all| - 1
    ensures WorthOf(h, looks, d, gap)
  {
    hide Running, FinishedWithinTarget, EdgesAgree, OnlyNegligible, Harmless;
    TrueIffHarmless(h.all, h.kept, looks, d, gap);
    if !h.forgot { TrueIffEdgesAgree(h.all, h.kept, looks, d, gap); }
  }

  lemma SinceMidnight(now: Stamp)
    ensures now - Midnight(now) == now % 86_400_000_000
    ensures Midnight(now) == now / 86_400_000_000 * 86_400_000_000 && SETTLED == 300_000_000
  {
  }

  lemma KnowsLastRead(t: DailySummaryTracker)
    requires t.Valid()
    ensures t.lastHistory == LastRead(t.looks)
  {
    hide Covered, Chronicled, QueueValid, LedgerValid, LastRead;
  }

  /** The day and the figures of a moment are those of the history. */
  predicate AsCounted(m: Moment, looks: seq<Seen>, batches: seq<Batch>, d: int) {
    match m
    case QueuesFinishedWithinTarget(day, queues, longest) =>
      day == d && queues == |Names(looks, d)| && longest == LongestWait(looks, d)
    case DayWithoutMissedCalls(day, calls) => day == d && calls == |Ledger(batches, Bucket(d, Answered))|
    case CleanStreak(days, through) => through == d
  }

  lemma FiguresAreCounted(t: DailySummaryTracker, p: Published, now: Stamp)
    requires t.Valid() && t.clock == now && p.days == t.days
    ensures forall m :: m in QueueClaim(p, now) + MissedClaim(p, now) ==>
      AsCounted(m, t.looks, t.batches, DayOf(now) - 1)
  {
    var d := DayOf(now) - 1;
    if d in t.days {
      assert Agrees(t.days[d], t.looks, d, t.queueGap) && DayCounts(t.days, t.batches, d);
    }
    hide QueueValid, LedgerValid, FlagsValid, TodaySaved, Continuous, Names, LongestWait, Ledger, Covered, Chronicled,
      ClosedEmpty, DayOf, QueueClaim, MissedClaim;
    ClaimsAre(p, now);
  }

  lemma ClaimsAre(p: Published, now: Stamp)
    ensures forall m :: m in QueueClaim(p, now) + MissedClaim(p, now) ==>
      && DayOf(now) - 1 in p.days
      && var d := p.days[DayOf(now) - 1];
         m in {QueuesFinishedWithinTarget(DayOf(now) - 1, |d.queueNames|, d.maxWait),
               DayWithoutMissedCalls(DayOf(now) - 1, d.calls)}
  {
    hide DayOf;
  }

  /** Which kinds of moments there are among those made. */
  lemma Shows(p: Published, now: Stamp, count: nat)
    ensures var moments := QueueClaim(p, now) + MissedClaim(p, now) + StreakClaim(p, now, count);
      && ((exists m :: m in moments && m.QueuesFinishedWithinTarget?) <==> QueuesMet(p, now))
      && ((exists m :: m in moments && m.DayWithoutMissedCalls?) <==>
           HistorySettled(p, now) && Clean(p.days, DayOf(now) - 1))
      && ((exists m :: m in moments && m.CleanStreak?) <==> HistorySettled(p, now) && 2 <= count)
      && (forall m :: m in moments && m.CleanStreak? ==> m == CleanStreak(count, DayOf(now) - 1))
      && (forall m :: m in moments && !m.CleanStreak? ==> m in QueueClaim(p, now) + MissedClaim(p, now))
  {
    var q, c, k := QueueClaim(p, now), MissedClaim(p, now), StreakClaim(p, now, count);
    var moments := q + c + k;
    assert QueuesMet(p, now) ==> q[0] in moments;
    assert HistorySettled(p, now) && Clean(p.days, DayOf(now) - 1) ==> c[0] in moments;
    assert HistorySettled(p, now) && 2 <= count ==> k[0] in moments;
    hide QueuesMet, HistorySettled, Clean, DayOf;
  }

  predicate NothingLost(h: Chronicle) { forall i :: 0 <= i < |h.all| ==> i in h.kept }

  /** What coverage of a day's calls by the kept looks is worth over all the looks there ever were. */
  ghost predicate CoverageWorth(kind: Kind, h: Chronicle, d: int, gap: int) {
    var covered := Covered(kind, Plainly(h.all), d, gap);
    && (covered <==> NoneDoubts(kind, h.all, h.kept, d, gap))
    && (!h.forgot ==> (covered <==> forall i :: 0 <= i < |h.all| && i !in h.kept ==> Fine(kind, Plainly(h.all), i, d,
                                                                                          gap)))
    && (NothingLost(h) ==> covered)
  }

  lemma CoverageIsWorth(kind: Kind, h: Chronicle, looks: seq<Seen>, saved: seq<Seen>, queueGap: int, gap: int,
                        clock: Stamp,
                        savedAt: Stamp, breachDay: Option<int>, d: int)
    requires Chronicled(h, looks, saved, queueGap, clock, savedAt, breachDay) && Covered(kind, looks, d, gap)
    requires h.kept != []
    ensures CoverageWorth(kind, h, d, gap)
  {
    hide Running, Fine, OnlyNegligible, Ordered;
    CoveredIffNoneDoubts(kind, h.all, h.kept, looks, d, gap);
    if !h.forgot { OnlyLostDoubt(kind, h.all, h.kept, looks, d, queueGap, gap); }
    if NothingLost(h) && h.kept[0] > 0 { NotAmong(h.kept, 0, 0); }
    hide Covered, Lineage;
  }

  /** What the moments of a publication say, by the looks, the coverage and the ledger. */
  lemma MomentsAreBornOut(t: DailySummaryTracker, p: Published, now: Stamp, streak: nat, moments: seq<Moment>)
    requires t.Valid() && t.clock == now && t.lastQueue == Some(now)
    requires p == Published(t.storageReady, t.lastHistory, t.days)
    requires t.past.kept != [] && t.past.kept[|t.past.kept| - 1] == |t.past.all| - 1
    requires p.available ==> IsStreak(p.days, DayOf(now) - 1, streak)
    requires moments == QueueClaim(p, now) + MissedClaim(p, now) + StreakClaim(p, now, streak)
    ensures (exists m :: m in moments && m.QueuesFinishedWithinTarget?) <==>
      t.storageReady && 300_000_000 <= now % 86_400_000_000 && FinishedWithinTarget(t.looks, DayOf(now) - 1, t.queueGap)
    ensures (exists m :: m in moments && m.QueuesFinishedWithinTarget?) ==>
      WorthOf(t.past, t.looks, DayOf(now) - 1, t.queueGap)
    ensures (exists m :: m in moments && m.DayWithoutMissedCalls?) <==>
      t.storageReady && ReadSettled(t.looks, now) && CleanDay(t.looks, t.batches, DayOf(now) - 1, t.historyGap)
    ensures forall kind, d :: Covered(kind, t.looks, d, t.historyGap) ==> CoverageWorth(kind, t.past, d, t.historyGap)
    ensures (exists m :: m in moments && m.CleanStreak?) <==>
      t.storageReady && ReadSettled(t.looks, now) && CleanDay(t.looks, t.batches, DayOf(now) - 1, t.historyGap) &&
      CleanDay(t.looks, t.batches, DayOf(now) - 2, t.historyGap)
    ensures forall m :: m in moments ==> AsCounted(m, t.looks, t.batches, DayOf(now) - 1)
    ensures forall m :: m in moments && m.CleanStreak? ==>
      StreakHolds(t.looks, t.batches, m.through, m.days, DayOf(now) - 370, t.historyGap)
  {
    hide QueueValid, LedgerValid, FlagsValid, Chronicled, FinishedWithinTarget, CleanDay, IsStreak, DayOf, TodaySaved,
      WorthOf, StreakHolds, Clean, LastRead, Names, LongestWait, Ledger, Covered, CoverageWorth;
    SinceMidnight(now);
    hide Midnight;
    KnowsLastRead(t);
    if p.available {
      QueueMomentIsExact(p, t.looks, t.queueGap, now);
      StreakIsExact(t, DayOf(now), streak);
      CleanIsExact(t, DayOf(now), DayOf(now) - 1);
      if QueuesMet(p, now) {
        ClaimIsWorth(t.past, t.looks, t.storedLooks, t.queueGap, now, t.savedAt, t.breachDay, DayOf(now) - 1);
      }
    }
    forall kind, d | Covered(kind, t.looks, d, t.historyGap) ensures CoverageWorth(kind, t.past, d, t.historyGap) {
      CoverageIsWorth(kind, t.past, t.looks, t.storedLooks, t.queueGap, t.historyGap, now, t.savedAt, t.breachDay, d);
    }
    Shows(p, now, streak);
    FiguresAreCounted(t, p, now);
  }

  /**
   One observation and the moments made of it, whatever the run so far. The queue moment appears exactly
   when the looks that led to the present state bear it out, and what that says about all the looks there
   ever were is known; so are the clean-day moments by reads and ledger, and what their coverage is worth.
   */
  method ObserveAndClaim(t: DailySummaryTracker, s: Snapshot, now: Stamp, historyFault: Fault, saveFault: Fault)
    returns (moments: seq<Moment>)
    requires t.Valid() && t.clock <= now
    modifies t
    ensures t.Valid() && t.clock == now && Looked(old(t.looks), t.looks, s, now)
    ensures Sees(t.looks[|old(t.looks)|], s, now)
    ensures t.past.all == old(t.past).all + t.looks[|old(t.looks)|..]
    ensures t.past.kept == old(t.past).kept + [|old(t.past).all|]
    ensures historyFault.Works? && saveFault.Works? ==> t.looks[|old(t.looks)|].stored
    ensures historyFault.Works? && saveFault.Works? ==>
      IsNew(old(t.lastHistory), s, now) && HistoryReady(s, t.historyGap) ==> t.storageReady
    ensures (exists m :: m in moments && m.QueuesFinishedWithinTarget?) <==>
      t.storageReady && 300_000_000 <= now % 86_400_000_000 && FinishedWithinTarget(t.looks, DayOf(now) - 1, t.queueGap)
    ensures (exists m :: m in moments && m.QueuesFinishedWithinTarget?) ==>
      WorthOf(t.past, t.looks, DayOf(now) - 1, t.queueGap)
    ensures (exists m :: m in moments && m.DayWithoutMissedCalls?) <==>
      t.storageReady && ReadSettled(t.looks, now) && CleanDay(t.looks, t.batches, DayOf(now) - 1, t.historyGap)
    ensures forall kind, d :: Covered(kind, t.looks, d, t.historyGap) ==> CoverageWorth(kind, t.past, d, t.historyGap)
    ensures (exists m :: m in moments && m.CleanStreak?) <==>
      t.storageReady && ReadSettled(t.looks, now) && CleanDay(t.looks, t.batches, DayOf(now) - 1, t.historyGap) &&
      CleanDay(t.looks, t.batches, DayOf(now) - 2, t.historyGap)
    ensures forall m :: m in moments ==> AsCounted(m, t.looks, t.batches, DayOf(now) - 1)
    ensures forall m :: m in moments && m.CleanStreak? ==>
      StreakHolds(t.looks, t.batches, m.through, m.days, DayOf(now) - 370, t.historyGap)
  {
    hide QueueValid, LedgerValid, FlagsValid, Chronicled, FinishedWithinTarget, CleanDay, IsStreak, DayOf, NeverRises,
      SameFlags, FlagsFound, WithDay, Due, Crowded, IsNew, HistoryReady, Look, FactsOf, TodaySaved, WorthOf,
      StreakHolds, Clean, LastRead, Names, LongestWait, Ledger, Covered, CoverageWorth, Midnight, Sees, BatchShows,
      ReadDue, SaveDue, AsCounted;
    var published := t.Observe(s, now, historyFault, saveFault);
    var streak;
    moments, streak := OperationalMoments(published, now);
    MomentsAreBornOut(t, published, now, streak, moments);
  }
}
