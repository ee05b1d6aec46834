/** What one observation of the PBX does to the daily records, to the call counts and to the chronicle of looks. */
module DailySteps {
  import opened Options
  import opened CallLedger
  import opened QueueDay
  import opened CallDay
  import opened DailySummary
  import opened DailyRestart

  /** No counted call started in a later second. */
  ghost predicate IsNewest(newest: Key, counts: multiset<Key>) {
    newest in counts && forall k: Key :: k in counts ==> k.startedAt / SECOND <= newest.startedAt / SECOND
  }

  /** Flags never rise; a day that appears can be complete only as the present day, in its first minute. */
  ghost predicate NeverRises(days: Days, after: Days, now: Stamp) {
    forall d :: d in after ==> NoHigher(after[d], if d in days then days[d] else Opened(d, now))
  }

  ghost predicate RaisedBut(known: map<Key, nat>, updated: map<Key, nat>, counts: multiset<Key>, pending: set<Key>) {
    forall k: Key :: StoredFor(updated, k) ==
                     if k !in pending && StoredFor(known, k) < counts[k] then counts[k] else StoredFor(known, k)
  }

  ghost predicate GainsBut(gained: map<Bucket, multiset<Key>>, counts: multiset<Key>, known: map<Key, nat>,
                           pending: set<Key>)
  {
    forall b, k: Key :: Gain(gained, b)[k] ==
                        if k !in pending && BucketOf(k) == b && StoredFor(known, k) < counts[k]
                        then counts[k] - StoredFor(known, k) else 0
  }

  ghost predicate SpokenBut(spoken: Spoken, counts: multiset<Key>, known: map<Key, nat>, calls: seq<Call>,
                            pending: set<Key>)
  {
    forall d, k: Key :: SpokenOn(spoken, d)[k] ==
                        if k !in pending && BucketOf(k) == Bucket(d, Answered) && !MenuOnly(calls, k) &&
                           StoredFor(known, k) < counts[k]
                        then counts[k] - StoredFor(known, k) else 0
  }

  lemma SpokenNext(spoken: Spoken, counts: multiset<Key>, known: map<Key, nat>, calls: seq<Call>, pending: set<Key>,
                   k: Key)
    requires SpokenBut(spoken, counts, known, calls, pending) && k in pending
    ensures SpokenOn(spoken, DayOf(k.startedAt))[k] == 0
    ensures StoredFor(known, k) < counts[k] ==>
      SpokenBut(RaiseSpoken(spoken, k, counts[k] - StoredFor(known, k), MenuOnly(calls, k)), counts, known, calls,
                pending - {k})
    ensures StoredFor(known, k) >= counts[k] ==> SpokenBut(spoken, counts, known, calls, pending - {k})
  {
    hide DayOf, MenuOnly, RaiseSpoken, SpokenOn, StoredFor;
    var menu, delta := MenuOnly(calls, k), counts[k] - StoredFor(known, k);
    if 0 < delta {
      forall d, j: Key ensures SpokenOn(RaiseSpoken(spoken, k, delta, menu), d)[j] ==
        if BucketOf(k) == Bucket(d, Answered) && j == k && !menu then delta else SpokenOn(spoken, d)[j]
      {
        SpokenAt(spoken, k, delta, menu, d, j);
      }
    }
  }

  lemma SpokenAt(spoken: Spoken, k: Key, delta: nat, menu: bool, d: int, j: Key)
    ensures SpokenOn(RaiseSpoken(spoken, k, delta, menu), d)[j] ==
      if BucketOf(k) == Bucket(d, Answered) && j == k && !menu then delta else SpokenOn(spoken, d)[j]
  {
    hide DayOf;
  }

  lemma RaisedNext(known: map<Key, nat>, updated: map<Key, nat>, counts: multiset<Key>, pending: set<Key>, k: Key)
    requires RaisedBut(known, updated, counts, pending) && k in pending
    ensures StoredFor(known, k) < counts[k] ==> RaisedBut(known, updated[k := counts[k]], counts, pending - {k})
    ensures StoredFor(known, k) >= counts[k] ==> RaisedBut(known, updated, counts, pending - {k})
  {
  }

  lemma NothingBooked(days: Days, known: map<Key, nat>, counts: multiset<Key>, pending: set<Key>, calls: seq<Call>,
                      today: int)
    requires forall k :: k in counts ==> k in pending
    ensures RaisedBut(known, known, counts, pending) && GainsBut(map[], counts, known, pending)
    ensures SpokenBut(map[], counts, known, calls, pending)
    ensures AddedUp(days, days, map[], map[]) && OnlyCounts(days, days, today)
  {
    hide DayOf;
  }

  lemma EverythingBooked(known: map<Key, nat>, updated: map<Key, nat>, counts: multiset<Key>,
                         gained: map<Bucket, multiset<Key>>, spoken: Spoken, calls: seq<Call>)
    requires RaisedBut(known, updated, counts, {}) && GainsBut(gained, counts, known, {})
    requires SpokenBut(spoken, counts, known, calls, {})
    ensures Raised(known, updated, counts) && GainsMatch(gained, counts, known)
    ensures SpokenMatch(spoken, counts, known, calls)
  {
    hide DayOf;
  }

  lemma GainsNext(gained: map<Bucket, multiset<Key>>, counts: multiset<Key>, known: map<Key, nat>, pending: set<Key>,
                  k: Key)
    requires GainsBut(gained, counts, known, pending) && k in pending
    ensures Gain(gained, BucketOf(k))[k] == 0
    ensures StoredFor(known, k) < counts[k] ==>
      GainsBut(Raise(gained, k, counts[k] - StoredFor(known, k)), counts, known, pending - {k})
    ensures StoredFor(known, k) >= counts[k] ==> GainsBut(gained, counts, known, pending - {k})
  {
    hide DayOf;
    var b, rest, delta := BucketOf(k), pending - {k}, counts[k] - StoredFor(known, k);
    if 0 < delta {
      var more := Raise(gained, k, delta);
      forall c, j: Key ensures Gain(more, c)[j] ==
        if j !in rest && BucketOf(j) == c && StoredFor(known, j) < counts[j] then counts[j] - StoredFor(known, j) else 0
      {
        assert Gain(more, c)[j] == if c == b && j == k then delta else Gain(gained, c)[j];
      }
    }
  }

  lemma CountingKeepsFlags(days: Days, counted: Days, after: Days, last: Option<Stamp>, s: Snapshot, now: Stamp)
    requires DayOf(now) in days && OnlyCounts(days, counted, DayOf(now))
    requires after == Pruned(AfterHistory(counted, last, s, now, false), now)
    ensures Touched(days, after, DayOf(now)) && SameCounts(counted, after, DayOf(now))
  {
    var lowered := AfterHistory(counted, last, s, now, false);
    LoweringTouches(counted, last, now, VOICEMAIL);
    PruningTouches(lowered, now);
    TouchedTwice(days, counted, lowered, DayOf(now));
    TouchedTwice(days, lowered, after, DayOf(now));
    SameCountsTwice(counted, lowered, after, DayOf(now));
    hide DayOf, Touched, SameCounts, Pruned, SameFlags, LowerToday;
  }

  lemma CountingCommutes(days: Days, counted: Days, last: Option<Stamp>, s: Snapshot, now: Stamp)
    requires DayOf(now) in days && OnlyCounts(days, counted, DayOf(now))
    ensures SameFlags(AfterHistory(days, last, s, now, false), Pruned(AfterHistory(counted, last, s, now, false), now))
  {
    hide DayOf;
  }

  /** The table holds no key that it did not hold, or that the batch does not show. */
  ghost predicate OnlyShown(before: map<Key, nat>, after: map<Key, nat>, calls: seq<Call>, today: int) {
    forall k :: k in after ==> k in before || k in Counted(calls, today)
  }

  /** The anchor for the next read: the latest of the counted calls. */
  ghost predicate Anchors(lastKey: Option<Key>, counts: multiset<Key>) {
    && (lastKey.None? <==> counts == multiset{})
    && (lastKey.Some? ==> IsNewest(lastKey.value, counts))
  }

  /**
   What a committed read leaves: the flags it cannot vouch for are down, and the batch is counted unless it
   is too large.
   */
  ghost predicate Read(days: Days, lastKey: Option<Key>, last: Option<Stamp>, table: map<Key, nat>, batches: seq<Batch>,
                       s: Snapshot, now: Stamp, after: Days, newKey: Option<Key>, more: seq<Batch>)
  {
    var crowded := Crowded(table, s, DayOf(now));
    && SameFlags(AfterHistory(AfterCalls(days, lastKey, last, s, now), last, s, now, crowded), after)
    && more == batches + (if crowded then [] else [Batch(DayOf(now), s.calls)])
    && (if crowded then newKey == lastKey else Anchors(newKey, Counted(s.calls, DayOf(now))))
  }

  lemma NotDueKeepsFlags(days: Days, lastKey: Option<Key>, last: Option<Stamp>, s: Snapshot, now: Stamp, crowded: bool)
    ensures SameFlags(FlagsAfter(days, lastKey, last, s, now, false, crowded), days)
  {
  }

  lemma ReadFlags(days: Days, lastKey: Option<Key>, last: Option<Stamp>, table: map<Key, nat>, batches: seq<Batch>,
                  s: Snapshot, now: Stamp, after: Days, newKey: Option<Key>, more: seq<Batch>, failed: bool)
    requires !failed ==> Read(days, lastKey, last, table, batches, s, now, after, newKey, more)
    ensures !failed ==> SameFlags(FlagsAfter(days, lastKey, last, s, now, true, Crowded(table, s, DayOf(now))), after)
  {
  }

  lemma PruningKeepsFlags(days: Days, after: Days, now: Stamp)
    requires SameFlags(days, after)
    ensures SameFlags(days, Pruned(after, now))
    ensures forall d :: d in Pruned(after, now) ==> d in after && Pruned(after, now)[d] == after[d]
  {
  }

  function FlagsOf(d: Day): (bool, bool, bool) { (d.callsComplete, d.queuesComplete, d.voicemailComplete) }

  predicate Due(d: Day, flags: (bool, bool, bool), now: Stamp, savedAt: Stamp, breachDay: Option<int>) {
    || flags != FlagsOf(d)
    || SAVE_EVERY <= now - savedAt
    || (WAIT_TARGET < d.maxWait && breachDay != Some(DayOf(now)))
  }

  lemma NewBreachIsDue(d: Day, flags: (bool, bool, bool), now: Stamp, savedAt: Stamp, breachDay: Option<int>)
    ensures WAIT_TARGET < d.maxWait && breachDay != Some(DayOf(now)) ==> Due(d, flags, now, savedAt, breachDay)
  {
  }

  lemma QueuesNeverRise(days: Days, last: Option<Stamp>, s: Snapshot, now: Stamp, gap: int)
    ensures NeverRises(days, AfterQueues(WithDay(days, DayOf(now), now), last, s, now, gap), now)
  {
    hide DayOf, SecondOfDay, NamesOf, LongestOf, AllEmpty;
  }

  lemma TouchingNeverRises(days: Days, middle: Days, after: Days, now: Stamp)
    requires NeverRises(days, middle, now) && Touched(middle, after, DayOf(now))
    ensures NeverRises(days, after, now)
  {
    hide Opened;
    forall d | d in after ensures NoHigher(after[d], if d in days then days[d] else Opened(d, now)) {
      if d in middle { assert NoHigher(after[d], middle[d]); }
    }
  }

  lemma LoweringNeverRises(days: Days, middle: Days, now: Stamp, w: Which)
    requires NeverRises(days, middle, now)
    ensures NeverRises(days, LowerToday(middle, now, w), now)
  {
    hide Opened, DayOf;
  }

  lemma TodayStays(days: Days, last: Option<Stamp>, s: Snapshot, now: Stamp, gap: int, lastHistory: Option<Stamp>,
                   historyGap: int)
    ensures DayOf(now) in WithDay(days, DayOf(now), now)
    ensures DayOf(now) in AfterCoverage(AfterQueues(WithDay(days, DayOf(now), now), last, s, now, gap), lastHistory,
                                        s, now, historyGap)
  {
    var watched := AfterQueues(WithDay(days, DayOf(now), now), last, s, now, gap);
    CoverageTouches(watched, lastHistory, s, now, historyGap);
    assert DayOf(now) in watched by { hide AfterCoverage; }
    hide AfterCoverage, AfterQueues;
  }

  lemma WatchKeeps(days: Days, last: Option<Stamp>, looks: seq<Seen>, s: Snapshot, now: Stamp, gap: int, clock: Stamp,
                   table: map<Key, nat>, batches: seq<Batch>, lastHistory: Option<Stamp>, historyGap: int)
    requires QueueValid(days, last, looks, gap, clock) && LedgerValid(days, table, batches, DayOf(clock))
    requires clock <= now
    ensures var after := AfterCoverage(AfterQueues(WithDay(days, DayOf(now), now), last, s, now, gap), lastHistory, s,
                                       now, historyGap);
      && QueueValid(after, Some(now), looks + [Look(s, now, true, None)], gap, now)
      && LedgerValid(after, table, batches, DayOf(now)) && DayOf(now) in after
  {
    var watched := AfterQueues(WithDay(days, DayOf(now), now), last, s, now, gap);
    var after := AfterCoverage(watched, lastHistory, s, now, historyGap);
    hide LedgerValid, QueueValid, SameCounts, AfterQueues, AfterCoverage, WithDay, Look, Touched, DayOf;
    CoverageTouches(watched, lastHistory, s, now, historyGap);
    TodayStays(days, last, s, now, gap, lastHistory, historyGap);
    DaysInOrder(clock, now);
    QueuesKeepVerdicts(days, last, looks, s, now, gap, clock);
    QueuesKeepCounts(days, last, s, now, gap);
    SameCountsTwice(days, watched, after, DayOf(now));
    SameCountsKeepLedger(days, after, table, batches, DayOf(clock), DayOf(now));
    TouchedKeepsVerdicts(watched, after, Some(now), looks + [Look(s, now, true, None)], gap, now);
  }

  lemma QueuesKeepKeys(days: Days, last: Option<Stamp>, s: Snapshot, now: Stamp, gap: int)
    ensures DayOf(now) in WithDay(days, DayOf(now), now)
    ensures AfterQueues(WithDay(days, DayOf(now), now), last, s, now, gap).Keys == days.Keys + {DayOf(now)}
  {
    hide DayOf, NamesOf, LongestOf, AllEmpty;
  }

  lemma CoverageKeepsKeys(days: Days, last: Option<Stamp>, s: Snapshot, now: Stamp, gap: int)
    ensures AfterCoverage(days, last, s, now, gap).Keys == days.Keys
  {
    hide DayOf;
  }

  lemma WatchedTouches(days: Days, last: Option<Stamp>, lastHistory: Option<Stamp>, s: Snapshot, now: Stamp,
                       queueGap: int, historyGap: int)
    ensures var watched := Watched(days, last, lastHistory, s, now, queueGap, historyGap);
      && watched.Keys == days.Keys + {DayOf(now)} && DayOf(now) in WithDay(days, DayOf(now), now)
      && watched == AfterCoverage(AfterQueues(WithDay(days, DayOf(now), now), last, s, now, queueGap), lastHistory, s,
                                  now, historyGap)
      && NeverRises(days, watched, now)
  {
    var seen := AfterQueues(WithDay(days, DayOf(now), now), last, s, now, queueGap);
    QueuesNeverRise(days, last, s, now, queueGap);
    CoverageTouches(seen, lastHistory, s, now, historyGap);
    QueuesKeepKeys(days, last, s, now, queueGap);
    CoverageKeepsKeys(seen, lastHistory, s, now, historyGap);
    hide AfterQueues, AfterCoverage, Touched, NeverRises, DayOf;
    TouchingNeverRises(days, seen, AfterCoverage(seen, lastHistory, s, now, historyGap), now);
  }

  lemma OnlyRecentBy(days: Days, watched: Days, after: Days, today: int)
    requires watched.Keys == days.Keys + {today} && Touched(watched, after, today)
    ensures OnlyRecent(days, after, today)
  {
    forall d | d in after && d !in days && d != today ensures today - 2 <= d < today && forall kind :: !Flag(kind,
                                                                                                             after[d])
    {
      assert d !in watched;
    }
  }

  lemma TodayIsKept(days: Days, after: Days, today: int)
    requires Touched(days, after, today) && today in days
    ensures today in after
  {
  }

  lemma LoweringKeepsCounts(days: Days, now: Stamp)
    ensures SameCounts(days, LowerToday(days, now, ALL), DayOf(now))
  {
  }

  lemma LoweringKeepsRecent(days: Days, after: Days, now: Stamp)
    requires OnlyRecent(days, after, DayOf(now))
    ensures OnlyRecent(days, LowerToday(after, now, ALL), DayOf(now))
    ensures DayOf(now) in after ==> DayOf(now) in LowerToday(after, now, ALL)
  {
    hide DayOf;
  }

  lemma LoweredAlike(flags: Days, days: Days, now: Stamp)
    requires SameFlags(flags, days)
    ensures SameFlags(FinalFlags(flags, now, false), LowerToday(days, now, ALL))
    ensures FinalFlags(flags, now, true) == flags
  {
    hide DayOf;
  }

  lemma KeptWhole(expected: Days, half: Days, now: Stamp)
    requires SameFlags(expected, half)
    ensures SameFlags(FinalFlags(expected, now, true), half)
  {
  }

  /**
   What is true of the flags after the reading half holds of what is kept, and after a failure has been
   owned up to.
   */
  lemma ConcludedFlags(days: Days, watched: Days, half: Days, kept: Days, expected: Days, now: Stamp)
    requires watched.Keys == days.Keys + {DayOf(now)} && NeverRises(days, watched, now)
    requires Touched(watched, half, DayOf(now)) && Touched(half, kept, DayOf(now))
    requires SameFlags(expected, half) && (kept == half || kept == Pruned(half, now)) && DayOf(now) in kept
    ensures OnlyRecent(days, half, DayOf(now)) && kept[DayOf(now)] == half[DayOf(now)]
    ensures forall stored: bool {:trigger FinalFlags(expected, now, stored)} ::
      var after := if stored then kept else LowerToday(kept, now, ALL);
      && NeverRises(days, after, now) && OnlyRecent(days, after, DayOf(now)) && DayOf(now) in after
      && SameFlags(FinalFlags(expected, now, stored), after)
  {
    hide Touched, NeverRises, OnlyRecent, SameFlags, Pruned, FinalFlags, LowerToday, DayOf;
    OnlyRecentBy(days, watched, half, DayOf(now));
    PruningKeepsFlags(expected, half, now);
    TouchedTwice(watched, half, kept, DayOf(now));
    OnlyRecentBy(days, watched, kept, DayOf(now));
    TouchingNeverRises(days, watched, kept, now);
    LoweredAlike(expected, kept, now);
    LoweringNeverRises(days, kept, now, ALL);
    LoweringKeepsRecent(days, kept, now);
  }

  lemma LoweredKeeps(days: Days, previous: Option<Stamp>, now: Stamp, w: Which)
    ensures Lowered(days, previous, now, w).Keys == days.Keys
  {
  }

  /** What the database says of today's flags is what memory says. */
  predicate TodaySaved(saved: Days, days: Days, today: int) {
    today in saved ==> today in days && FlagsOf(saved[today]) == FlagsOf(days[today])
  }

  /** No queue flag is higher afterwards, and no flag of today. */
  ghost predicate NoneRises(days: Days, after: Days, today: int) {
    forall d :: d in days && d in after ==>
      (after[d].queuesComplete ==> days[d].queuesComplete) && (d == today ==> NoHigher(after[d], days[d]))
  }

  lemma NoneRisesIfQuiet(saved: Days, savedQueue: Option<Stamp>, savedLooks: seq<Seen>, days: Days, last: Option<Stamp>,
                         looks: seq<Seen>, gap: int, clock: Stamp)
    requires QueueValid(saved, savedQueue, savedLooks, gap, clock) && QueueValid(days, last, looks, gap, clock)
    requires Quiet(savedLooks, looks, gap) && TodaySaved(saved, days, DayOf(clock))
    ensures NoneRises(days, saved, DayOf(clock))
  {
    forall d | d in days && d in saved && saved[d].queuesComplete ensures days[d].queuesComplete {
      assert Agrees(saved[d], savedLooks, d, gap) && Agrees(days[d], looks, d, gap);
      assert QuietOn(savedLooks, looks, d, gap);
      assert HasLook(savedLooks, d);
    }
    hide QueueValid, Quiet;
  }

  lemma QuietWhenWhole(h: Chronicle, looks: seq<Seen>, saved: seq<Seen>, gap: int, clock: Stamp, savedAt: Stamp,
                       breachDay: Option<int>)
    requires Chronicled(h, looks, saved, gap, clock, savedAt, breachDay) && !h.torn
    ensures Quiet(saved, looks, gap) && saved <= looks
  {
  }

  lemma LooksBehind(days: Days, last: Option<Stamp>, looks: seq<Seen>, gap: int, clock: Stamp)
    requires QueueValid(days, last, looks, gap, clock)
    ensures looks != [] ==> looks[|looks| - 1].stamp <= clock
  {
  }

  /** What a restart makes of the chronicle and of the flags. */
  lemma RestartKeeps(h: Chronicle, memory: State, looks: seq<Seen>, saved: State, savedLooks: seq<Seen>, queueGap: int,
                     historyGap: int, clock: Stamp, savedAt: Stamp, breachDay: Option<int>)
    requires QueueValid(saved.days, saved.lastQueue, savedLooks, queueGap, clock)
    requires QueueValid(memory.days, memory.lastQueue, looks, queueGap, clock)
    requires FlagsValid(saved.days, saved.lastHistory, savedLooks, historyGap)
    requires FlagsValid(memory.days, memory.lastHistory, looks, historyGap)
    requires Chronicled(h, looks, savedLooks, queueGap, clock, savedAt, breachDay)
    requires !h.torn ==> TodaySaved(saved.days, memory.days, DayOf(clock))
    ensures Chronicled(Restarted(h), savedLooks, savedLooks, queueGap, clock, 0, None) && Restarted(h).all == h.all
    ensures RisesByLoss(memory.days, looks, saved.days, savedLooks, queueGap, historyGap)
    ensures !h.torn ==> NoneRises(memory.days, saved.days, DayOf(clock)) && savedLooks <= looks
    ensures TodaySaved(saved.days, saved.days, DayOf(clock))
  {
    hide QueueValid, FlagsValid, Chronicled, Quiet, RisesByLoss, NoneRises, TodaySaved, DayOf;
    LooksBehind(saved.days, saved.lastQueue, savedLooks, queueGap, clock);
    RestartedChronicle(h, looks, savedLooks, queueGap, clock, savedAt, breachDay);
    FlagsRiseByLoss(saved, savedLooks, memory, looks, queueGap, historyGap, clock);
    if !h.torn {
      QuietWhenWhole(h, looks, savedLooks, queueGap, clock, savedAt, breachDay);
      NoneRisesIfQuiet(saved.days, saved.lastQueue, savedLooks, memory.days, memory.lastQueue, looks, queueGap, clock);
    }
    SavedToday(saved.days, DayOf(clock));
  }

  lemma SavedToday(days: Days, today: int)
    ensures TodaySaved(days, days, today)
  {
  }

  /** A flag is up afterwards and was down before exactly if the looks kept support it and those before do not. */
  ghost predicate RisesByLoss(days: Days, looks: seq<Seen>, after: Days, kept: seq<Seen>, queueGap: int,
                              historyGap: int)
  {
    forall d :: d in after && d in days ==>
      && (after[d].queuesComplete && !days[d].queuesComplete <==>
            Continuous(kept, d, queueGap) && !Continuous(looks, d, queueGap))
      && forall kind :: Flag(kind, after[d]) && !Flag(kind, days[d]) <==>
           Covered(kind, kept, d, historyGap) && !Covered(kind, looks, d, historyGap)
  }

  lemma FlagsRiseByLoss(saved: State, savedLooks: seq<Seen>, now: State, looks: seq<Seen>, queueGap: int,
                        historyGap: int, clock: Stamp)
    requires QueueValid(saved.days, saved.lastQueue, savedLooks, queueGap, clock)
    requires QueueValid(now.days, now.lastQueue, looks, queueGap, clock)
    requires FlagsValid(saved.days, saved.lastHistory, savedLooks, historyGap)
    requires FlagsValid(now.days, now.lastHistory, looks, historyGap)
    ensures RisesByLoss(now.days, looks, saved.days, savedLooks, queueGap, historyGap)
  {
    forall d | d in saved.days && d in now.days
      ensures (saved.days[d].queuesComplete <==> Continuous(savedLooks, d, queueGap))
           && (now.days[d].queuesComplete <==> Continuous(looks, d, queueGap))
    {
      assert Agrees(saved.days[d], savedLooks, d, queueGap) && Agrees(now.days[d], looks, d, queueGap);
    }
    hide Continuous, Covered, QueueValid, LastRead;
  }

  /** One look was added, made from the snapshot. */
  ghost predicate Looked(before: seq<Seen>, after: seq<Seen>, s: Snapshot, now: Stamp) {
    && |after| == |before| + 1
    && var o := after[|before|];
       after == before + [o] && o == Look(s, now, o.stored, o.check.read)
  }

  /** The flags an observation leaves, once it is known what was read and whether it was stored. */
  function FlagsFound(days: Days, last: Option<Stamp>, lastHistory: Option<Stamp>, lastKey: Option<Key>,
                      table: map<Key, nat>,
                      s: Snapshot, now: Stamp, queueGap: int, gap: int, read: bool, stored: bool): Days
  {
    FinalFlags(FlagsAfter(Watched(days, last, lastHistory, s, now, queueGap, gap), lastKey, lastHistory, s, now, read,
                          Crowded(table, s, DayOf(now))), now, stored)
  }

  function FactsOf(s: Snapshot, lastKey: Option<Key>, table: map<Key, nat>, now: Stamp, read: bool)
    : (facts: Option<Batched>)
    ensures facts.Some? <==> read
  {
    if read then Some(BatchedOf(s, lastKey, table, DayOf(now))) else None
  }

  lemma FoundFlag(kind: Kind, days: Days, last: Option<Stamp>, lastHistory: Option<Stamp>, lastKey: Option<Key>,
                  table: map<Key, nat>,
                  s: Snapshot, now: Stamp, queueGap: int, gap: int, read: bool, stored: bool, d: int)
    requires d in WithDay(days, DayOf(now), now)
    ensures var flags := FlagsFound(days, last, lastHistory, lastKey, table, s, now, queueGap, gap, read, stored);
      d in flags && Flag(kind, flags[d]) == (Flag(kind, WithDay(days, DayOf(now), now)[d]) &&
        Spared(kind, last, lastHistory, Look(s, now, stored, FactsOf(s, lastKey, table, now, read)), d, gap))
  {
    hide Watched, FlagsAfter, FinalFlags, Look, Spared, WithDay, DayOf, Gap, Crowded, BatchedOf;
    FlagIsSpared(kind, days, last, lastHistory, lastKey, table, s, now, queueGap, gap, read, stored, d);
  }

  lemma FoundIsSpared(days: Days, last: Option<Stamp>, lastHistory: Option<Stamp>, lastKey: Option<Key>,
                      table: map<Key, nat>,
                      s: Snapshot, now: Stamp, queueGap: int, gap: int, read: bool, stored: bool)
    ensures var o := Look(s, now, stored, FactsOf(s, lastKey, table, now, read));
      FlagsSpared(days, FlagsFound(days, last, lastHistory, lastKey, table, s, now, queueGap, gap, read, stored),
                  last, lastHistory, o, gap)
  {
    var o := Look(s, now, stored, FactsOf(s, lastKey, table, now, read));
    var flags := FlagsFound(days, last, lastHistory, lastKey, table, s, now, queueGap, gap, read, stored);
    assert o.stamp == now by { hide FactsOf, NamesOf, LongestOf, AllEmpty; }
    hide FlagsFound, FactsOf, Look, Spared, WithDay, DayOf, Flag;
    forall kind, d | d in WithDay(days, DayOf(now), now)
      ensures d in flags
      ensures Flag(kind, flags[d]) ==
              (Flag(kind, WithDay(days, DayOf(now), now)[d]) && Spared(kind, last, lastHistory, o, d, gap))
    {
      FoundFlag(kind, days, last, lastHistory, lastKey, table, s, now, queueGap, gap, read, stored, d);
    }
  }

  /** What an observation did to the flags is what it did to the coverage of its history. */
  lemma FlagsObserved(days: Days, last: Option<Stamp>, looks: seq<Seen>, lastHistory: Option<Stamp>,
                      lastKey: Option<Key>,
                      table: map<Key, nat>, s: Snapshot, now: Stamp, queueGap: int, gap: int, clock: Stamp,
                      read: bool, stored: bool, after: Days)
    requires QueueValid(days, last, looks, queueGap, clock) && FlagsValid(days, lastHistory, looks, gap) && clock <= now
    requires SameFlags(FlagsFound(days, last, lastHistory, lastKey, table, s, now, queueGap, gap, read, stored), after)
    requires OnlyRecent(days, after, DayOf(now))
    ensures FlagsValid(after, if read then Some(ReadAt(s, now)) else lastHistory,
                       looks + [Look(s, now, stored, FactsOf(s, lastKey, table, now, read))], gap)
  {
    var facts := FactsOf(s, lastKey, table, now, read);
    var o := Look(s, now, stored, facts);
    assert lastHistory == LastRead(looks) by { hide Covered, LastRead; }
    hide FlagsFound, Look, DayOf, QueueValid, FlagsValid, OnlyRecent, SameFlags, LastRead, FlagsSpared;
    ReadIsLast(looks, o, s, now, stored, facts);
    FoundIsSpared(days, last, lastHistory, lastKey, table, s, now, queueGap, gap, read, stored);
    FlagsKept(days, last, looks, lastHistory, o, queueGap, gap, clock,
              FlagsFound(days, last, lastHistory, lastKey, table, s, now, queueGap, gap, read, stored), after);
  }

  lemma LookIsPlain(s: Snapshot, now: Stamp, stored: bool, read: Option<Batched>)
    ensures var o := Look(s, now, stored, read);
      o.stamp == now && o.stored == stored && o.check.read == read && Plain(Look(s, now, true, read)) == Plain(o)
  {
  }

  lemma ReadIsLast(looks: seq<Seen>, o: Seen, s: Snapshot, now: Stamp, stored: bool, read: Option<Batched>)
    requires o == Look(s, now, stored, read)
    ensures LastRead(looks + [o]) == if read.Some? then Some(ReadAt(s, now)) else LastRead(looks)
  {
    assert (looks + [o])[..|looks|] == looks;
    hide NamesOf, LongestOf, AllEmpty;
  }

  /** An observation that was not worth saving changed no verdict. */
  lemma NotDueIsUnremarkable(h: Chronicle, before: Days, last: Option<Stamp>, looks: seq<Seen>, saved: seq<Seen>,
                             days: Days, o: Seen,
                             gap: int, clock: Stamp, savedAt: Stamp, breachDay: Option<int>)
    requires QueueValid(before, last, looks, gap, clock) && clock <= o.stamp && SAVE_EVERY <= o.stamp
    requires QueueValid(days, Some(o.stamp), looks + [o], gap, o.stamp) && DayOf(o.stamp) in days
    requires Chronicled(h, looks, saved, gap, clock, savedAt, breachDay)
    requires DayOf(o.stamp) in WithDay(before, DayOf(o.stamp), o.stamp)
    requires !Due(days[DayOf(o.stamp)], FlagsOf(WithDay(before, DayOf(o.stamp), o.stamp)[DayOf(o.stamp)]), o.stamp,
                  savedAt, breachDay)
    ensures savedAt != 0 && Unremarkable(saved, looks, o, gap)
  {
    var d := DayOf(o.stamp);
    LooksBack(before, last, looks, gap, clock, o);
    assert Running(h, looks, saved, savedAt, breachDay) && Agrees(days[d], looks + [o], d, gap);
    hide Traced, Accounted;
    if d in before {
      assert Agrees(before[d], looks, d, gap);
      hide DayOf, Continuous, LongestWait, QueueValid;
    } else {
      assert !LastOn(looks, d);
      BegunInTime(looks, o, savedAt);
      hide DayOf, Continuous, LongestWait, QueueValid;
    }
  }

  /** Less than a minute after a look of an earlier day, the day is in its first minute. */
  lemma BegunInTime(looks: seq<Seen>, o: Seen, savedAt: Stamp)
    requires looks != [] && savedAt <= looks[|looks| - 1].stamp <= o.stamp && o.stamp - savedAt < SAVE_EVERY
    requires DayOf(looks[|looks| - 1].stamp) != DayOf(o.stamp)
    ensures SecondOfDay(o.stamp) <= GRACE
  {
    DaysInOrder(looks[|looks| - 1].stamp, o.stamp);
  }

  lemma SavedWait(days: Days, last: Option<Stamp>, looks: seq<Seen>, gap: int, clock: Stamp, d: int)
    requires QueueValid(days, last, looks, gap, clock) && d in days
    ensures days[d].maxWait == LongestWait(looks, d)
  {
    assert Agrees(days[d], looks, d, gap);
    hide QueueValid;
  }

  lemma TodayStaysSaved(saved: Days, savedQueue: Option<Stamp>, savedLooks: seq<Seen>, before: Days,
                        last: Option<Stamp>, looks: seq<Seen>,
                        days: Days, o: Seen, gap: int, clock: Stamp)
    requires QueueValid(saved, savedQueue, savedLooks, gap, clock) && QueueValid(before, last, looks, gap, clock)
    requires clock <= o.stamp
    requires TodaySaved(saved, before, DayOf(clock))
    requires DayOf(o.stamp) in days && DayOf(o.stamp) in WithDay(before, DayOf(o.stamp), o.stamp)
    requires FlagsOf(days[DayOf(o.stamp)]) == FlagsOf(WithDay(before, DayOf(o.stamp), o.stamp)[DayOf(o.stamp)])
    ensures TodaySaved(saved, days, DayOf(o.stamp))
  {
    DaysInOrder(clock, o.stamp);
    LooksBack(saved, savedQueue, savedLooks, gap, clock, o);
    if DayOf(o.stamp) in saved {
      DaysInOrder(savedLooks[|savedLooks| - 1].stamp, clock);
    }
    hide DayOf, QueueValid;
  }

  lemma SameFlagsWhenMinor(d: Day, flags: (bool, bool, bool), now: Stamp, savedAt: Stamp, breachDay: Option<int>)
    requires !Due(d, flags, now, savedAt, breachDay)
    ensures FlagsOf(d) == flags
  {
  }

  /** What an observation adds to the chronicle. */
  function After(h: Chronicle, o: Seen, saved: bool, ok: bool, read: bool): Chronicle {
    var noted := Noted(h, o);
    if saved then Secured(noted)
    else if ok then noted
    else (if read then Secured(noted) else noted).(torn := true)
  }

  lemma ChronicleKept(h: Chronicle, looks: seq<Seen>, saved: seq<Seen>, gap: int, clock: Stamp, savedAt: Stamp,
                      breachDay: Option<int>,
                      o: Seen, whole: Seen, written: bool, ok: bool, read: bool, later: Stamp, breach: Option<int>)
    requires Chronicled(h, looks, saved, gap, clock, savedAt, breachDay) && clock <= o.stamp && 0 < o.stamp
    requires Plain(whole) == Plain(o) && (read <==> o.check.read.Some?) && (read && ok ==> written)
    requires breach == breachDay || (written && breach.Some? && LongestWait(looks + [o], breach.value) > WAIT_TARGET)
    requires later == o.stamp || later == savedAt
    requires written || (!ok && read) ==> later == o.stamp
    requires ok && !written ==> later == savedAt && savedAt != 0 && Unremarkable(saved, looks, o, gap)
    ensures Chronicled(After(h, o, written, ok, read), looks + [o],
                       if written then looks + [o] else if !ok && read then looks + [whole] else saved,
                       gap, o.stamp, later, breach)
  {
    hide Chronicled, Unremarkable, LongestWait, Noted, Secured, Plain;
    if written {
      SavedChronicle(h, looks, saved, gap, clock, savedAt, breachDay, o, breach);
    } else if ok {
      UnsavedChronicle(h, looks, saved, gap, clock, savedAt, breachDay, o);
    } else if read {
      HalfSavedChronicle(h, looks, saved, gap, clock, savedAt, breachDay, o, whole);
    } else {
      TornChronicle(h, looks, saved, gap, clock, savedAt, breachDay, o, later);
    }
  }
}
