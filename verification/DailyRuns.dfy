/** Runs of the tracker that show what a restart can do to its claims, whatever gaps it allows. */
module DailyRuns {
  import opened Options
  import opened CallLedger
  import opened QueueDay
  import opened CallDay
  import opened DailySummary
  import opened DailyRestart
  import opened DailySteps
  import opened DailyTracker
  import opened DailyMoments

  /**
   A look whose write fails, followed by a restart, might never have been made: memory and database
   are as they were. Only the chronicle has it, among the looks that are lost.
   */
  method LoseLook(t: DailySummaryTracker, s: Snapshot, now: Stamp, historyFault: Fault, saveFault: Fault)
    requires t.Valid() && t.clock <= now && t.Saved() && !historyFault.Works? && !saveFault.Works?
    modifies t
    ensures t.Valid() && t.Saved() && t.clock == now
    ensures t.days == old(t.days) && t.lastQueue == old(t.lastQueue) && t.lastHistory == old(t.lastHistory)
    ensures t.lastKey == old(t.lastKey)
    ensures t.table == old(t.table) && t.batches == old(t.batches) && t.looks == old(t.looks)
    ensures |t.past.all| == |old(t.past).all| + 1 && old(t.past).all <= t.past.all
    ensures t.past.kept == old(t.past).storedKept
    ensures var o := t.past.all[|old(t.past).all|]; o.stamp == now && o.wait == LongestOf(s.queues)
  {
    hide QueueValid, LedgerValid, FlagsValid, Chronicled, NeverRises, SameFlags, FlagsFound, WithDay, DayOf, Due,
      Crowded, IsNew, HistoryReady, FactsOf, TodaySaved, RisesByLoss, NoneRises, NamesOf, LongestOf, AllEmpty;
    var published := t.Observe(s, now, historyFault, saveFault);
    t.Restart();
  }

  const BEAT := 10 * SECOND
  const START := 10 * DAY + 10 * SECOND

  function Beat(k: int): Stamp { START + k * BEAT }

  const CALM := Snapshot(true, false, true, [Queue("support", 0, 0)], true, None, [], true, [], 0)
  const STUCK := CALM.(queues := [Queue("support", 1, 500)])

  // ---------------------------------------------------------------- a claim that is not true

  predicate IsCalm(o: Seen) { o.ready && o.names == {"support"} && o.wait == 0 && o.empty && o.stored }

  lemma CalmLook(now: Stamp, read: Option<Batched>)
    ensures IsCalm(Look(CALM, now, true, read)) && Look(CALM, now, true, read).stamp == now
    ensures LongestOf(STUCK.queues) == 500
  {
    assert Queue("support", 0, 0) in CALM.queues && forall q :: q in CALM.queues ==> q == Queue("support", 0, 0);
    assert NamesOf(CALM.queues) == {"support"};
  }

  /** A calm look every ten seconds, the first just after midnight. */
  predicate CalmBeats(looks: seq<Seen>) {
    forall i :: 0 <= i < |looks| ==> IsCalm(looks[i]) && looks[i].stamp == Beat(i)
  }

  /** The beat that comes five minutes into the next day. */
  const SETTLING := 8669

  lemma CalmDay(looks: seq<Seen>, gap: int)
    requires CalmBeats(looks) && |looks| == SETTLING + 1 && BEAT <= gap
    ensures FinishedWithinTarget(looks, 10, gap)
  {
    forall i ensures IsOn(looks, i, 10) <==> 0 <= i < 8639 {
    }
    assert IsOn(looks, 0, 10) && SecondOfDay(looks[0].stamp) <= GRACE;
    hide IsOn, SecondOfDay;
    forall i | Touches(looks, i, 10) ensures Linked(looks, i, 10, gap) {
    }
  }

  method CalmBeat(t: DailySummaryTracker, k: nat)
    requires t.Valid() && t.clock <= Beat(k) && CalmBeats(t.looks) && |t.looks| == k && LostSecond(t.past)
    requires k > 0 && t.lastHistory == Some(Beat(k - 1)) && 0 <= t.historyGap
    modifies t
    ensures t.Valid() && t.clock == Beat(k) && CalmBeats(t.looks) && |t.looks| == k + 1 && LostSecond(t.past)
    ensures t.lastHistory == Some(Beat(k))
  {
    hide QueueValid, LedgerValid, FlagsValid, Chronicled, NeverRises, SameFlags, FlagsFound, WithDay, Due, FactsOf,
      TodaySaved, Look, Covered, Crowded, Anchors, OnlyShown, IsCalm, NamesOf, LongestOf;
    var published := t.Observe(CALM, Beat(k), Works, Works);
    CalmLook(Beat(k), t.looks[k].check.read);
  }

  /** A caller waits 500 seconds, the write that should record it fails, and the process restarts. */
  method BeginWithLoss(historySeconds: int, gapSeconds: int) returns (t: DailySummaryTracker)
    ensures fresh(t) && t.Valid() && t.clock <= Beat(1) && t.queueGap == gapSeconds * SECOND && 0 <= t.historyGap
    ensures CalmBeats(t.looks) && |t.looks| == 1 && LostSecond(t.past) && t.lastHistory == Some(START)
  {
    hide QueueValid, LedgerValid, FlagsValid, Chronicled, NeverRises, SameFlags, FlagsFound, WithDay, Due, FactsOf,
      TodaySaved, Look, LongestOf, Covered, Crowded, Anchors, OnlyShown, IsCalm;
    t := new DailySummaryTracker(historySeconds, gapSeconds);
    var published := t.Observe(CALM, START, Works, Works);
    CalmLook(START, t.looks[0].check.read);
    LoseLook(t, STUCK, START + 2 * SECOND, FailsBeforeSaving, FailsBeforeSaving);
  }

  /**
   For the rest of the day, and five minutes longer, the tracker looks every ten seconds and finds nobody
   waiting: the day is said to have finished within target.
   */
  method MisleadingMoment(historySeconds: int, gapSeconds: int) returns (t: DailySummaryTracker, moments: seq<Moment>)
    requires 10 <= gapSeconds
    ensures t.Valid() && exists m :: m in moments && m.QueuesFinishedWithinTarget?
    ensures !FinishedWithinTarget(Plainly(t.past.all), 10, t.queueGap)
  {
    hide QueueValid, LedgerValid, FlagsValid, Chronicled, Look, LongestOf, FinishedWithinTarget, AsCounted, WorthOf,
      StreakHolds, CleanDay, ReadSettled, Covered, CoverageWorth, IsCalm;
    t := BeginWithLoss(historySeconds, gapSeconds);
    for k := 1 to SETTLING
      invariant fresh(t) && t.Valid() && t.clock <= Beat(k) && t.queueGap == gapSeconds * SECOND && 0 <= t.historyGap
      invariant |t.looks| == k && CalmBeats(t.looks) && LostSecond(t.past) && t.lastHistory == Some(Beat(k - 1))
    {
      CalmBeat(t, k);
    }
    moments := ObserveAndClaim(t, CALM, Beat(SETTLING), Works, Works);
    CalmLook(Beat(SETTLING), t.looks[SETTLING].check.read);
    CalmDay(t.looks, t.queueGap);
    Misled(t);
  }

  /** The second look there was, a wait of 500 seconds on the first day, is lost. */
  predicate LostSecond(h: Chronicle) {
    |h.all| > 1 && 1 !in h.kept && h.all[1].stamp == START + 2 * SECOND && h.all[1].wait == 500
  }

  lemma Misled(t: DailySummaryTracker)
    requires t.Valid() && FinishedWithinTarget(t.looks, 10, t.queueGap) && LostSecond(t.past)
    requires t.past.kept != [] && t.past.kept[|t.past.kept| - 1] == |t.past.all| - 1
    ensures !FinishedWithinTarget(Plainly(t.past.all), 10, t.queueGap)
  {
    hide FinishedWithinTarget, Accounted, Running, QueueValid, LedgerValid, FlagsValid;
    ForgottenWaitMisleads(t.past.all, t.past.kept, t.looks, 10, t.queueGap, 1);
  }

  // ---------------------------------------------------------------- an earlier day's call flag

  /** Nobody waits and nothing was called; the history is as old as it is. */
  const IDLE := CALM.(queues := [])

  /** The last beat of the day, and two looks on the next one, begun too late. */
  const LAST := 8637
  const LATE := 11 * DAY + 90 * SECOND
  const OLD := IDLE.(age := Some(LATE - Beat(LAST)))
  const DEAF := IDLE.(cdrReady := false)

  lemma IdleLook(s: Snapshot, now: Stamp, read: Option<Batched>)
    requires s.queues == []
    ensures var o := Look(s, now, true, read);
      o.stamp == now && o.stored && o.wait == 0 &&
      o.check == Check(s.reachable && s.cdrReady, s.age, s.channels, s.voicemailReady, read)
  {
  }

  const WHOLE := Batched(false, true, false, false)

  lemma IdleBatch(today: int)
    ensures Counted(IDLE.calls, today) == multiset{} && !Crowded(map[], IDLE, today)
    ensures BatchedOf(IDLE, None, map[], today) == WHOLE
  {
    assert Recent(map[], today) == map[] && Counted(IDLE.calls, today) == multiset{};
    assert (set k | k in Counted(IDLE.calls, today) && k !in Recent(map[], today)) == {};
  }

  /** A look every ten seconds, and each reads a batch that leaves nothing in doubt. */
  predicate IdleBeats(looks: seq<Seen>, n: nat) {
    n <= |looks| && forall i :: 0 <= i < n ==>
      && looks[i].stamp == Beat(i) && looks[i].stored && looks[i].wait == 0
      && looks[i].check == Check(true, None, false, true, Some(WHOLE))
  }

  /** And at last one look of the next day that had nothing new to read. */
  predicate IdleDay(looks: seq<Seen>) {
    && |looks| == LAST + 2 && IdleBeats(looks, LAST + 1) && looks[LAST + 1].stamp == LATE && looks[LAST + 1].wait == 0
    && looks[LAST + 1].check == Check(true, Some(LATE - Beat(LAST)), false, true, None)
  }

  lemma BeatsRead(looks: seq<Seen>, n: nat, i: nat)
    requires IdleBeats(looks, n) && 0 < i <= n
    ensures LastRead(looks[..i]) == Some(Beat(i - 1))
  {
    assert looks[..i][i - 1] == looks[i - 1];
  }

  /** The calls of the day are covered, and no longer once the history has become unreadable. */
  lemma LosesCoverage(looks: seq<Seen>, deaf: Seen, gap: int)
    requires IdleDay(looks) && 120 * SECOND <= gap
    requires deaf.stamp == LATE + BEAT && !deaf.check.ready
    ensures Covered(OfCalls, looks, 10, gap) && !Covered(OfCalls, looks + [deaf], 10, gap)
  {
    assert IsOn(looks, 0, 10) && SecondOfDay(looks[0].stamp) <= GRACE && LastRead(looks[..0]) == None;
    var more := looks + [deaf];
    BeatsRead(looks, LAST + 1, LAST + 1);
    assert looks[..LAST + 2][..LAST + 1] == looks[..LAST + 1];
    assert LastRead(looks[..LAST + 2]) == Some(Beat(LAST));
    assert more[..LAST + 2] == looks[..LAST + 2] && more[LAST + 2] == deaf;
    assert !Fine(OfCalls, more, LAST + 2, 10, gap) by { hide LastRead; }
    forall i | 0 <= i < |looks| ensures Fine(OfCalls, looks, i, 10, gap) {
      if 0 < i <= LAST { BeatsRead(looks, LAST + 1, i); }
      hide LastRead, SecondOfDay;
    }
  }

  lemma BegunLate(days: Days, last: Option<Stamp>, looks: seq<Seen>, gap: int, clock: Stamp, after: Days, now: Stamp)
    requires QueueValid(days, last, looks, gap, clock) && DayOf(clock) < DayOf(now) && SecondOfDay(now) > GRACE
    requires NeverRises(days, after, now) && DayOf(now) in after
    ensures FlagsOf(after[DayOf(now)]) == (false, false, false)
  {
    if DayOf(now) in days { DaysInOrder(last.value, clock); }
    hide Agrees, Ordered;
  }

  lemma StaysDown(days: Days, after: Days, now: Stamp, d: int)
    requires NeverRises(days, after, now) && d in days && d in after && FlagsOf(days[d]) == (false, false, false)
    ensures FlagsOf(after[d]) == (false, false, false)
  {
  }

  lemma NobodyWaited(t: DailySummaryTracker, d: int)
    requires t.Valid() && d in t.days && forall i :: 0 <= i < |t.looks| ==> t.looks[i].wait == 0
    ensures t.days[d].maxWait <= WAIT_TARGET
  {
    SavedWait(t.days, t.lastQueue, t.looks, t.queueGap, t.clock, d);
    WaitsWithin(t.looks, d);
    hide LongestWait, Chronicled, QueueValid, LedgerValid, FlagsValid;
  }

  lemma FlagIsCoverage(t: DailySummaryTracker, i: int, d: int)
    requires t.Valid() && IsOn(t.looks, i, d) && DayOf(t.clock) - RETENTION <= d
    ensures d in t.days && (t.days[d].callsComplete <==> Covered(OfCalls, t.looks, d, t.historyGap))
  {
    assert d in t.days ==> (Flag(OfCalls, t.days[d]) <==> Covered(OfCalls, t.looks, d, t.historyGap));
    hide Covered, Chronicled, LastRead;
  }

  /** One beat: the read is due, and shows nothing. */
  method IdleBeat(t: DailySummaryTracker, k: nat)
    requires t.Valid() && t.clock <= Beat(k) && IdleBeats(t.looks, |t.looks|) && |t.looks| == k
    requires t.lastHistory == (if k == 0 then None else Some(Beat(k - 1))) && t.lastKey == None && t.table == map[]
    requires t.historyGap >= 0 && !t.past.torn && !t.past.forgot
    modifies t
    ensures t.Valid() && t.clock == Beat(k) && t.lastQueue == Some(Beat(k))
    ensures IdleBeats(t.looks, k + 1) && |t.looks| == k + 1
    ensures t.lastHistory == Some(Beat(k)) && t.lastKey == None && t.table == map[]
    ensures t.Saved() && t.savedAt == Beat(k) && !t.past.torn && !t.past.forgot
  {
    hide QueueValid, LedgerValid, FlagsValid, Chronicled, NeverRises, SameFlags, FlagsFound, WithDay, Due, TodaySaved,
      Look,
      Crowded, BatchedOf, Covered, LastRead, Counted;
    IdleBatch(DayOf(Beat(k)));
    var published := t.Observe(IDLE, Beat(k), Works, Works);
    IdleLook(IDLE, Beat(k), t.looks[k].check.read);
    assert t.table == map[];
  }

  method BeginLate(historySeconds: int, gapSeconds: int) returns (t: DailySummaryTracker)
    ensures fresh(t) && t.Valid() && t.Saved() && IdleDay(t.looks) && 120 * SECOND <= t.historyGap
    ensures t.clock == LATE == t.savedAt && !t.past.forgot && !t.past.torn
    ensures 11 in t.days && FlagsOf(t.days[11]) == (false, false, false) && t.lastHistory == Some(Beat(LAST))
  {
    hide QueueValid, LedgerValid, FlagsValid, Chronicled, NeverRises, SameFlags, FlagsFound, TodaySaved, Look, Crowded,
      BatchedOf, Covered, LastRead, FlagsOf, IdleBeats;
    t := new DailySummaryTracker(historySeconds, gapSeconds);
    NoBeats(t.looks);
    IdleBeat(t, 0);
    for k := 1 to LAST + 1
      invariant fresh(t) && t.Valid() && t.clock == Beat(k - 1) && t.lastQueue == Some(Beat(k - 1))
      invariant 120 * SECOND <= t.historyGap
      invariant IdleBeats(t.looks, k) && |t.looks| == k
      invariant t.lastHistory == Some(Beat(k - 1)) && t.lastKey == None && t.table == map[]
      invariant t.Saved() && t.savedAt == Beat(k - 1) && !t.past.torn && !t.past.forgot
    {
      IdleBeat(t, k);
    }
    ghost var first, seen := t.days, t.looks;
    var published := t.Observe(OLD, LATE, Works, Works);
    BegunLate(first, Some(Beat(LAST)), seen, t.queueGap, Beat(LAST), t.days, LATE);
    IdleLook(OLD, LATE, None);
    BeatsStay(seen, t.looks, LAST + 1);
  }

  lemma NoBeats(looks: seq<Seen>)
    ensures IdleBeats(looks, 0)
  {
  }

  lemma BeatsStay(looks: seq<Seen>, more: seq<Seen>, n: nat)
    requires IdleBeats(looks, n) && looks <= more
    ensures IdleBeats(more, n)
  {
  }

  /**
   A flag of yesterday is lowered while those of today are down anyway, so nothing is saved; the
   restart brings it back, though no write ever failed.
   */
  method CallFlagRises(historySeconds: int, gapSeconds: int) returns (t: DailySummaryTracker, ghost before: Days)
    ensures t.Valid() && !t.past.forgot
    ensures 10 in before && !before[10].callsComplete && 10 in t.days && t.days[10].callsComplete
  {
    hide QueueValid, LedgerValid, FlagsValid, Chronicled, NeverRises, SameFlags, FlagsFound, TodaySaved, Look, Crowded,
      BatchedOf, Covered, LastRead, RisesByLoss;
    t := BeginLate(historySeconds, gapSeconds);
    ghost var kept, second := t.looks, t.days;
    var published := t.Observe(DEAF, LATE + BEAT, Works, Works);
    IdleLook(DEAF, LATE + BEAT, None);
    StaysDown(second, t.days, LATE + BEAT, 11);
    NobodyWaited(t, 11);
    LosesCoverage(kept, t.looks[LAST + 2], t.historyGap);
    assert t.storedLooks == kept && t.looks == kept + [t.looks[LAST + 2]];
    before := t.days;
    FlagIsCoverage(t, 0, 10);
    t.Restart();
    FlagIsCoverage(t, 0, 10);
  }
}
