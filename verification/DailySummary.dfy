/**
 The daily evidence kept by the Agent: a ledger of calls that survives overlapping reads,
 restarts and failed transactions, and coverage flags that say which days were watched
 continuously. The database accepts a transaction whole or not at all.
 */
module DailySummary {
  import opened Options
  import opened CallLedger
  import opened QueueDay
  import opened CallDay

  const RETENTION := 370
  const MAX_EVENT_KEYS := 100_000
  const SAVE_EVERY := 60 * SECOND

  datatype Queue = Queue(name: string, waiting: int, longestWait: int)

  datatype Voicemail = Voicemail(dated: bool)

  /**
   `age`: how long ago the history was last read with success; `voicemailRows`: keys of voicemails in the
   database.
   */
  datatype Snapshot = Snapshot(
    reachable: bool, channels: bool,
    queuesReady: bool, queues: seq<Queue>,
    cdrReady: bool, age: Option<int>, calls: seq<Call>,
    voicemailReady: bool, voicemails: seq<Voicemail>, voicemailRows: nat)

  datatype Day = Day(
    calls: nat, answered: nat, missed: nat,
    callsComplete: bool, voicemailComplete: bool, queuesComplete: bool,
    queueNames: set<string>, maxWait: int, queuesEmpty: bool)

  type Days = map<int, Day>

  datatype Which = Which(calls: bool, voicemail: bool, queues: bool)

  const QUEUES := Which(false, false, true)
  const CALLS := Which(true, false, false)
  const VOICEMAIL := Which(false, true, false)
  const HISTORY := Which(true, true, false)
  const ALL := Which(true, true, true)

  datatype State = State(days: Days, lastQueue: Option<Stamp>, lastHistory: Option<Stamp>, lastKey: Option<Key>)

  /** Whether the database accepts a transaction, and if not, how far it got. */
  datatype Fault = Works | FailsBeforeSaving | FailsAtCommit

  datatype Published = Published(available: bool, lastHistory: Option<Stamp>, days: Days)

  // ---------------------------------------------------------------- days and flags

  /** A day can be complete only if its record was opened in its own first minute. */
  function Opened(day: int, now: Stamp): Day {
    var candidate := day == DayOf(now) && SecondOfDay(now) <= GRACE;
    Day(0, 0, 0, candidate, candidate, candidate, {}, 0, false)
  }

  function WithDay(days: Days, day: int, now: Stamp): Days {
    if day in days then days else days[day := Opened(day, now)]
  }

  function Lower(d: Day, w: Which): Day {
    d.(callsComplete := d.callsComplete && !w.calls,
       voicemailComplete := d.voicemailComplete && !w.voicemail,
       queuesComplete := d.queuesComplete && !w.queues)
  }

  function LoweredDay(d: Day, day: int, previous: Option<Stamp>, now: Stamp, w: Which): Day {
    if Doubtful(day, previous, now) then Lower(d, w) else d
  }

  function Lowered(days: Days, previous: Option<Stamp>, now: Stamp, w: Which): Days {
    map d | d in days :: LoweredDay(days[d], d, previous, now, w)
  }

  function Pruned(days: Days, now: Stamp): Days {
    map d | d in days && DayOf(now) - RETENTION <= d :: days[d]
  }

  // ---------------------------------------------------------------- one look at the queues

  function NamesOf(queues: seq<Queue>): set<string> { set q | q in queues :: q.name }

  function LongestOf(queues: seq<Queue>): int {
    if queues == [] then 0
    else
      var before := LongestOf(queues[..|queues| - 1]);
      if before < queues[|queues| - 1].longestWait then queues[|queues| - 1].longestWait else before
  }

  predicate AllEmpty(s: Snapshot) {
    s.reachable && s.queuesReady && NamesOf(s.queues) != {} && forall q :: q in s.queues ==> q.waiting == 0
  }

  function Look(s: Snapshot, now: Stamp, stored: bool, read: Option<Batched>): Seen {
    Seen(now, s.reachable && s.queuesReady, NamesOf(s.queues), LongestOf(s.queues), AllEmpty(s), stored,
         Check(s.reachable && s.cdrReady, s.age, s.channels, s.voicemailReady, read))
  }

  function AfterQueues(days: Days, last: Option<Stamp>, s: Snapshot, now: Stamp, gap: int): Days
    requires DayOf(now) in days
  {
    var today := DayOf(now);
    var late := last.Some? && !(0 <= now - last.value <= gap);
    var covered := if !(s.reachable && s.queuesReady) || late then Lowered(days, last, now, QUEUES) else days;
    var crossed := last.Some? && DayOf(last.value) != today && s.channels;
    var settled := if crossed then Lowered(covered, last, now, CALLS) else covered;
    var d := settled[today];
    var changed := last.Some? && DayOf(last.value) == today && NamesOf(s.queues) != d.queueNames;
    settled[today := d.(
      queuesComplete := d.queuesComplete && !changed,
      queueNames := d.queueNames + NamesOf(s.queues),
      maxWait := if d.maxWait < LongestOf(s.queues) then LongestOf(s.queues) else d.maxWait,
      queuesEmpty := AllEmpty(s))]
  }

  // ---------------------------------------------------------------- one read of the history

  function ReadAt(s: Snapshot, now: Stamp): Stamp { now - s.age.GetOr(0) }

  predicate HistoryReady(s: Snapshot, gap: int) {
    s.reachable && s.cdrReady && (s.age.None? || s.age.value <= gap)
  }

  predicate IsNew(last: Option<Stamp>, s: Snapshot, now: Stamp) {
    last.None? || ReadAt(s, now) - last.value >= SECOND
  }

  function LowerToday(days: Days, now: Stamp, w: Which): Days {
    if DayOf(now) in days then days[DayOf(now) := Lower(days[DayOf(now)], w)] else days
  }

  /** Flags after looking at how old the history is. */
  function AfterCoverage(days: Days, last: Option<Stamp>, s: Snapshot, now: Stamp, gap: int): Days {
    var late := last.Some? && !(0 <= ReadAt(s, now) - last.value <= gap);
    var covered := if !HistoryReady(s, gap) || late then Lowered(days, last, now, HISTORY) else days;
    if !s.voicemailReady then LowerToday(covered, now, VOICEMAIL) else covered
  }

  function Recent(table: map<Key, nat>, today: int): map<Key, nat> {
    map k | k in table && today - 2 <= DayOf(k.startedAt) :: table[k]
  }

  predicate Crowded(table: map<Key, nat>, s: Snapshot, today: int) {
    var recent, counts := Recent(table, today), Counted(s.calls, today);
    |recent| + |set k | k in counts && k !in recent| + s.voicemailRows + |s.voicemails| > MAX_EVENT_KEYS
  }

  /** Whether the batch may have lost calls since the last one: its anchor is gone, or there was none and it is full. */
  predicate Gap(lastKey: Option<Key>, s: Snapshot, today: int) {
    if lastKey.Some? then lastKey.value !in Counted(s.calls, today) else 1000 <= |s.calls|
  }

  function AfterCalls(days: Days, lastKey: Option<Key>, last: Option<Stamp>, s: Snapshot, now: Stamp): Days {
    var dated := if Undated in s.calls then LowerToday(days, now, CALLS) else days;
    if Gap(lastKey, s, DayOf(now)) then Lowered(dated, last, now, CALLS) else dated
  }

  /** Voicemails without a time, or too many of them. */
  predicate Vague(s: Snapshot) { (s.voicemailReady && Voicemail(false) in s.voicemails) || 100 <= |s.voicemails| }

  /** Flags after reading a batch: what it cannot vouch for is no longer complete. */
  function AfterHistory(days: Days, last: Option<Stamp>, s: Snapshot, now: Stamp, crowded: bool): Days {
    if crowded then Lowered(days, last, now, HISTORY)
    else if Vague(s) then LowerToday(days, now, VOICEMAIL)
    else days
  }

  /** What a batch shows that matters for the flags. */
  function BatchedOf(s: Snapshot, lastKey: Option<Key>, table: map<Key, nat>, today: int): Batched {
    Batched(Undated in s.calls, !Gap(lastKey, s, today), Crowded(table, s, today), Vague(s))
  }

  /** The days after the queues and the age of the history were looked at. */
  function Watched(before: Days, last: Option<Stamp>, lastHistory: Option<Stamp>, s: Snapshot, now: Stamp,
                   queueGap: int, historyGap: int): Days
  {
    assert DayOf(now) in WithDay(before, DayOf(now), now);
    AfterCoverage(AfterQueues(WithDay(before, DayOf(now), now), last, s, now, queueGap), lastHistory, s, now,
                  historyGap)
  }

  /** And after the history was read, if it was. */
  function FlagsAfter(watched: Days, lastKey: Option<Key>, lastHistory: Option<Stamp>, s: Snapshot, now: Stamp,
                      read: bool, crowded: bool): Days
  {
    if read
    then AfterHistory(AfterCalls(watched, lastKey, lastHistory, s, now), lastHistory, s, now, crowded)
    else watched
  }

  /** A failure costs today every flag. */
  function FinalFlags(flags: Days, now: Stamp, stored: bool): Days {
    if stored then flags else LowerToday(flags, now, ALL)
  }

  // ---------------------------------------------------------------- what the records mean

  predicate DayValid(d: Day, seen: seq<Seen>, day: int) {
    && d.queueNames == Names(seen, day) && d.maxWait == LongestWait(seen, day)
    && d.queuesEmpty == ClosedEmpty(seen, day)
  }

  ghost predicate Agrees(d: Day, seen: seq<Seen>, day: int, gap: int) {
    DayValid(d, seen, day) && (d.queuesComplete <==> Continuous(seen, day, gap))
  }

  /** Every retained day agrees with the observations made of it. */
  ghost predicate QueueValid(days: Days, last: Option<Stamp>, seen: seq<Seen>, gap: int, clock: Stamp) {
    && Ordered(seen)
    && (seen == [] <==> last.None?)
    && (seen != [] ==> last == Some(seen[|seen| - 1].stamp) && last.value <= clock)
    && (forall d :: d in days ==> seen != [] && d <= DayOf(last.value) && Agrees(days[d], seen, d, gap))
    && (forall i, d :: IsOn(seen, i, d) && DayOf(clock) - RETENTION <= d ==> d in days)
  }

  function CallsOn(days: Days, d: int): nat { if d in days then days[d].calls else 0 }
  function MissedOn(days: Days, d: int): nat { if d in days then days[d].missed else 0 }
  function AnsweredOn(days: Days, d: int): nat { if d in days then days[d].answered else 0 }
  function StoredFor(table: map<Key, nat>, k: Key): nat { if k in table then table[k] else 0 }

  ghost predicate DayCounts(days: Days, batches: seq<Batch>, d: int) {
    && MissedOn(days, d) == |Ledger(batches, Bucket(d, Missed))|
    && CallsOn(days, d) == |Ledger(batches, Bucket(d, Missed))| + |Ledger(batches, Bucket(d, Answered))|
    && AnsweredOn(days, d) == Reached(batches, d)
  }

  /** Every retained day counts its ledger; the table holds the multiplicities of the last three days. */
  ghost predicate LedgerValid(days: Days, table: map<Key, nat>, batches: seq<Batch>, today: int) {
    && (forall d :: today - RETENTION <= d ==> DayCounts(days, batches, d))
    && (forall k: Key :: today - 2 <= DayOf(k.startedAt) ==> StoredFor(table, k) == Ledger(batches, BucketOf(k))[k])
  }

  // ---------------------------------------------------------------- the queue verdicts are kept

  predicate Follows(last: Option<Stamp>, seen: seq<Seen>, now: Stamp) {
    && (seen == [] <==> last.None?)
    && (seen != [] ==> last == Some(seen[|seen| - 1].stamp) && last.value <= now && DayOf(last.value) <= DayOf(now))
  }

  lemma OpensDay(days: Days, last: Option<Stamp>, seen: seq<Seen>, s: Snapshot, now: Stamp, gap: int)
    requires Follows(last, seen, now) && Ordered(seen + [Look(s, now, true, None)])
    requires DayOf(now) !in days && forall i :: !IsOn(seen, i, DayOf(now))
    ensures Agrees(AfterQueues(WithDay(days, DayOf(now), now), last, s, now, gap)[DayOf(now)],
                   seen + [Look(s, now, true, None)], DayOf(now), gap)
  {
    var o, d := Look(s, now, true, None), DayOf(now);
    ContinuousStep(seen, o, d, gap);
    FoldsStep(seen, o, d);
    NoNames(seen, d);
    assert !LastOn(seen, d);
    hide Continuous, Names, LongestWait, ClosedEmpty, NamesOf, LongestOf, AllEmpty, DayOf;
  }

  lemma ContinuesDay(days: Days, last: Option<Stamp>, seen: seq<Seen>, s: Snapshot, now: Stamp, gap: int)
    requires Follows(last, seen, now) && Ordered(seen + [Look(s, now, true, None)])
    requires DayOf(now) in days && LastOn(seen, DayOf(now)) && Agrees(days[DayOf(now)], seen, DayOf(now), gap)
    ensures Agrees(AfterQueues(days, last, s, now, gap)[DayOf(now)], seen + [Look(s, now, true, None)], DayOf(now), gap)
  {
    var o, d := Look(s, now, true, None), DayOf(now);
    ContinuousStep(seen, o, d, gap);
    FoldsStep(seen, o, d);
    if Continuous(seen, d, gap) {
      assert forall i, j :: 0 <= i < j < |seen| ==> (seen + [o])[i] == seen[i] && (seen + [o])[j] == seen[j];
      NamesAreConstant(seen, d, gap, |seen| - 1);
    }
    hide Continuous, Names, LongestWait, ClosedEmpty, NamesOf, LongestOf, AllEmpty, DayOf, SecondOfDay, Ordered;
  }

  lemma LeavesDay(days: Days, last: Option<Stamp>, seen: seq<Seen>, s: Snapshot, now: Stamp, gap: int, d: int)
    requires Follows(last, seen, now) && Ordered(seen + [Look(s, now, true, None)]) && DayOf(now) in days
    requires seen != [] && d in days && d != DayOf(now) && d <= DayOf(last.value) && Agrees(days[d], seen, d, gap)
    ensures Agrees(AfterQueues(days, last, s, now, gap)[d], seen + [Look(s, now, true, None)], d, gap)
  {
    var o := Look(s, now, true, None);
    ContinuousStep(seen, o, d, gap);
    FoldsStep(seen, o, d);
    hide Continuous, Names, LongestWait, ClosedEmpty, NamesOf, LongestOf, AllEmpty, DayOf, SecondOfDay, Ordered;
  }

  lemma LooksBack(days: Days, last: Option<Stamp>, seen: seq<Seen>, gap: int, clock: Stamp, o: Seen)
    requires QueueValid(days, last, seen, gap, clock) && clock <= o.stamp
    ensures Follows(last, seen, o.stamp) && Ordered(seen + [o])
    ensures DayOf(o.stamp) in days ==> LastOn(seen, DayOf(o.stamp))
    ensures DayOf(o.stamp) !in days ==> forall i :: !IsOn(seen, i, DayOf(o.stamp))
  {
    hide Agrees;
    OrderedGrows(seen, o);
    assert DayOf(clock) <= DayOf(o.stamp);
    assert seen != [] ==> DayOf(last.value) <= DayOf(o.stamp);
    hide DayOf, Ordered;
  }

  lemma QueuesKeepDay(days: Days, last: Option<Stamp>, seen: seq<Seen>, s: Snapshot, now: Stamp, gap: int,
                      clock: Stamp, d: int)
    requires QueueValid(days, last, seen, gap, clock) && clock <= now && d in WithDay(days, DayOf(now), now)
    ensures Agrees(AfterQueues(WithDay(days, DayOf(now), now), last, s, now, gap)[d],
                   seen + [Look(s, now, true, None)], d, gap)
  {
    assert Look(s, now, true, None).stamp == now;
    LooksBack(days, last, seen, gap, clock, Look(s, now, true, None));
    assert d in days ==> Agrees(days[d], seen, d, gap) && seen != [] && d <= DayOf(last.value);
    hide AfterQueues, Look, Agrees, QueueValid, DayOf, Ordered;
    var today := DayOf(now);
    if d != today {
      LeavesDay(WithDay(days, today, now), last, seen, s, now, gap, d);
    } else if d in days {
      ContinuesDay(days, last, seen, s, now, gap);
    } else {
      OpensDay(days, last, seen, s, now, gap);
    }
  }

  lemma VerdictsHold(days: Days, last: Option<Stamp>, seen: seq<Seen>, gap: int, clock: Stamp, after: Days, o: Seen)
    requires QueueValid(days, last, seen, gap, clock) && clock <= o.stamp && DayOf(clock) <= DayOf(o.stamp)
    requires after.Keys == days.Keys + {DayOf(o.stamp)}
    requires forall d :: d in after ==> Agrees(after[d], seen + [o], d, gap)
    ensures QueueValid(after, Some(o.stamp), seen + [o], gap, o.stamp)
  {
    hide Agrees;
    var more := seen + [o];
    OrderedGrows(seen, o);
    assert more[|more| - 1] == o;
    assert forall d :: d in days && seen != [] ==> d <= DayOf(o.stamp) by {
      assert seen != [] ==> DayOf(last.value) <= DayOf(clock);
    }
    hide DayOf;
    forall i, d | IsOn(more, i, d) && DayOf(o.stamp) - RETENTION <= d ensures d in after {
      if i < |seen| { assert IsOn(seen, i, d); }
    }
  }

  /** One look at the queues keeps every verdict in step with the history of looks. */
  lemma QueuesKeepVerdicts(days: Days, last: Option<Stamp>, seen: seq<Seen>, s: Snapshot, now: Stamp, gap: int,
                           clock: Stamp)
    requires QueueValid(days, last, seen, gap, clock) && clock <= now
    ensures QueueValid(AfterQueues(WithDay(days, DayOf(now), now), last, s, now, gap), Some(now),
                       seen + [Look(s, now, true, None)], gap, now)
  {
    var o := Look(s, now, true, None);
    var after := AfterQueues(WithDay(days, DayOf(now), now), last, s, now, gap);
    assert after.Keys == days.Keys + {DayOf(now)} && o.stamp == now && DayOf(clock) <= DayOf(now);
    forall d | d in after ensures Agrees(after[d], seen + [o], d, gap) {
      hide QueueValid, Agrees, Look;
      QueuesKeepDay(days, last, seen, s, now, gap, clock, d);
    }
    hide QueueValid, Agrees, AfterQueues, WithDay, Look;
    VerdictsHold(days, last, seen, gap, clock, after, o);
  }

  /** A transaction that fails costs today every flag, and the verdict says so. */
  lemma FailureKeepsVerdicts(days: Days, seen: seq<Seen>, o: Seen, gap: int)
    requires QueueValid(days, Some(o.stamp), seen + [o], gap, o.stamp) && o.stored && DayOf(o.stamp) in days
    ensures QueueValid(days[DayOf(o.stamp) := Lower(days[DayOf(o.stamp)], ALL)], Some(o.stamp),
                       seen + [o.(stored := false)], gap, o.stamp)
  {
    var failed, today := o.(stored := false), DayOf(o.stamp);
    var after, more := days[today := Lower(days[today], ALL)], seen + [failed];
    assert Ordered(more) by {
      assert forall i :: 0 <= i < |more| ==> more[i].stamp == (seen + [o])[i].stamp;
    }
    assert more[|more| - 1] == failed;
    forall d | d in after ensures Agrees(after[d], more, d, gap) {
      assert Agrees(days[d], seen + [o], d, gap);
      ContinuousStep(seen, o, d, gap);
      ContinuousStep(seen, failed, d, gap);
      FoldsStep(seen, o, d);
      FoldsStep(seen, failed, d);
      hide Continuous, Names, LongestWait, ClosedEmpty, DayOf;
    }
    hide Agrees, DayOf;
    forall i, d | IsOn(more, i, d) && today - RETENTION <= d ensures d in after {
      assert IsOn(seen + [o], i, d);
    }
  }

  // ---------------------------------------------------------------- steps that leave the queues alone

  predicate NoHigher(d: Day, than: Day) {
    && (d.callsComplete ==> than.callsComplete)
    && (d.voicemailComplete ==> than.voicemailComplete)
    && (d.queuesComplete ==> than.queuesComplete)
  }

  predicate SameQueues(d: Day, e: Day) {
    d.queuesComplete == e.queuesComplete && d.queueNames == e.queueNames && d.maxWait == e.maxWait &&
      d.queuesEmpty == e.queuesEmpty
  }

  /** A record opened for an earlier day vouches for nothing. */
  predicate Unwatched(d: Day) {
    !d.callsComplete && !d.voicemailComplete && !d.queuesComplete && d.queueNames == {} && d.maxWait == 0 &&
      !d.queuesEmpty
  }

  ghost predicate Touched(days: Days, after: Days, today: int) {
    && (forall d :: d in days && today - RETENTION <= d ==> d in after)
    && (forall d :: d in after && d in days ==> SameQueues(days[d], after[d]) && NoHigher(after[d], days[d]))
    && (forall d :: d in after && d !in days ==> today - 2 <= d < today && Unwatched(after[d]))
  }

  /** Counting calls leaves every flag as it is. */
  ghost predicate SameFlags(days: Days, after: Days) {
    forall d :: d in after && d in days ==>
      after[d].callsComplete == days[d].callsComplete && after[d].voicemailComplete == days[d].voicemailComplete
  }

  ghost predicate OnlyCounts(days: Days, after: Days, today: int) {
    Touched(days, after, today) && SameFlags(days, after)
  }

  lemma OnlyCountsTwice(a: Days, b: Days, c: Days, today: int)
    requires OnlyCounts(a, b, today) && OnlyCounts(b, c, today)
    ensures OnlyCounts(a, c, today)
  {
  }

  lemma TouchedTwice(a: Days, b: Days, c: Days, today: int)
    requires Touched(a, b, today) && Touched(b, c, today)
    ensures Touched(a, c, today)
  {
  }

  lemma TouchedKeepsVerdicts(days: Days, after: Days, last: Option<Stamp>, seen: seq<Seen>, gap: int, now: Stamp)
    requires QueueValid(days, last, seen, gap, now) && last == Some(now) && Touched(days, after, DayOf(now))
    ensures QueueValid(after, last, seen, gap, now)
  {
    hide Continuous, Names, LongestWait, ClosedEmpty, Ordered, DayOf;
    forall d | d in after ensures d <= DayOf(now) && Agrees(after[d], seen, d, gap) {
      if d in days {
        assert Agrees(days[d], seen, d, gap);
      } else {
        assert forall i :: !IsOn(seen, i, d);
        NoNames(seen, d);
        NotContinuous(seen, d, gap);
      }
    }
  }

  lemma NotContinuous(seen: seq<Seen>, d: int, gap: int)
    requires forall i :: !IsOn(seen, i, d)
    ensures !Continuous(seen, d, gap)
  {
  }

  ghost predicate SameCounts(days: Days, after: Days, today: int) {
    forall d :: today - RETENTION <= d ==>
      CallsOn(after, d) == CallsOn(days, d) && MissedOn(after, d) == MissedOn(days, d) &&
        AnsweredOn(after, d) == AnsweredOn(days, d)
  }

  lemma SameCountsKeepLedger(days: Days, after: Days, table: map<Key, nat>, batches: seq<Batch>, today: int, later: int)
    requires LedgerValid(days, table, batches, today) && SameCounts(days, after, later) && today <= later
    ensures LedgerValid(after, table, batches, later)
  {
    forall d | later - RETENTION <= d ensures DayCounts(after, batches, d) {
      assert DayCounts(days, batches, d);
    }
  }

  lemma LaterClockKeepsVerdicts(days: Days, last: Option<Stamp>, seen: seq<Seen>, gap: int, clock: Stamp, later: Stamp)
    requires QueueValid(days, last, seen, gap, clock) && clock <= later
    ensures QueueValid(days, last, seen, gap, later)
  {
    hide Agrees;
    assert DayOf(clock) <= DayOf(later);
  }

  lemma QueuesKeepCounts(days: Days, last: Option<Stamp>, s: Snapshot, now: Stamp, gap: int)
    ensures SameCounts(days, AfterQueues(WithDay(days, DayOf(now), now), last, s, now, gap), DayOf(now))
  {
    hide DayOf, NamesOf, LongestOf, AllEmpty;
  }

  lemma LoweringTouches(days: Days, previous: Option<Stamp>, now: Stamp, w: Which)
    requires !w.queues
    ensures Touched(days, Lowered(days, previous, now, w), DayOf(now))
    ensures SameCounts(days, Lowered(days, previous, now, w), DayOf(now))
    ensures Touched(days, LowerToday(days, now, w), DayOf(now))
    ensures SameCounts(days, LowerToday(days, now, w), DayOf(now))
  {
    hide DayOf;
  }

  lemma SameCountsTwice(a: Days, b: Days, c: Days, today: int)
    requires SameCounts(a, b, today) && SameCounts(b, c, today)
    ensures SameCounts(a, c, today)
  {
    forall d | today - RETENTION <= d
      ensures CallsOn(c, d) == CallsOn(a, d) && MissedOn(c, d) == MissedOn(a, d) && AnsweredOn(c, d) == AnsweredOn(a, d)
    {
      assert CallsOn(b, d) == CallsOn(a, d);
    }
  }

  lemma CoverageTouches(days: Days, last: Option<Stamp>, s: Snapshot, now: Stamp, gap: int)
    ensures var after := AfterCoverage(days, last, s, now, gap);
      Touched(days, after, DayOf(now)) && SameCounts(days, after, DayOf(now))
  {
    var covered := Lowered(days, last, now, HISTORY);
    LoweringTouches(days, last, now, HISTORY);
    LoweringTouches(covered, last, now, VOICEMAIL);
    LoweringTouches(days, last, now, VOICEMAIL);
    TouchedTwice(days, covered, LowerToday(covered, now, VOICEMAIL), DayOf(now));
    SameCountsTwice(days, covered, LowerToday(covered, now, VOICEMAIL), DayOf(now));
    hide DayOf, Lowered, LowerToday, Touched, SameCounts;
    NothingTouched(days, DayOf(now));
  }

  lemma NothingTouched(days: Days, today: int)
    ensures Touched(days, days, today) && SameCounts(days, days, today)
  {
  }

  lemma CallsTouch(days: Days, lastKey: Option<Key>, last: Option<Stamp>, s: Snapshot, now: Stamp)
    ensures var after := AfterCalls(days, lastKey, last, s, now);
      Touched(days, after, DayOf(now)) && SameCounts(days, after, DayOf(now))
  {
    var dated := if Undated in s.calls then LowerToday(days, now, CALLS) else days;
    LoweringTouches(days, last, now, CALLS);
    LoweringTouches(dated, last, now, CALLS);
    TouchedTwice(days, dated, Lowered(dated, last, now, CALLS), DayOf(now));
    SameCountsTwice(days, dated, Lowered(dated, last, now, CALLS), DayOf(now));
    hide DayOf, Lowered, LowerToday, Gap;
  }

  lemma PruningTouches(days: Days, now: Stamp)
    ensures Touched(days, Pruned(days, now), DayOf(now)) && SameCounts(days, Pruned(days, now), DayOf(now))
  {
  }

  lemma RecentKeepsLedger(days: Days, table: map<Key, nat>, batches: seq<Batch>, today: int)
    requires LedgerValid(days, table, batches, today)
    ensures LedgerValid(days, Recent(table, today), batches, today)
    ensures forall k :: k in Recent(table, today) ==> k in table
  {
    hide DayOf, Ledger, DayCounts;
  }

  /** What a look says about the call history does not matter for the queues. */
  lemma CheckIsIrrelevant(days: Days, seen: seq<Seen>, o: Seen, c: Check, gap: int)
    requires QueueValid(days, Some(o.stamp), seen + [o], gap, o.stamp)
    ensures QueueValid(days, Some(o.stamp), seen + [o.(check := c)], gap, o.stamp)
  {
    var checked, more := o.(check := c), seen + [o.(check := c)];
    assert Ordered(more) by {
      assert forall i :: 0 <= i < |more| ==> more[i].stamp == (seen + [o])[i].stamp;
    }
    assert more[|more| - 1] == checked;
    forall d | d in days ensures d <= DayOf(o.stamp) && Agrees(days[d], more, d, gap) {
      assert (seen + [o])[|seen|] == o && Agrees(days[d], seen + [o], d, gap);
      ContinuousStep(seen, o, d, gap);
      ContinuousStep(seen, checked, d, gap);
      FoldsStep(seen, o, d);
      FoldsStep(seen, checked, d);
      hide Continuous, Names, LongestWait, ClosedEmpty, DayOf;
    }
    hide Agrees, DayOf;
    forall i, d | IsOn(more, i, d) && DayOf(o.stamp) - RETENTION <= d ensures d in days {
      assert IsOn(seen + [o], i, d);
    }
  }

  // ---------------------------------------------------------------- the call and voicemail verdicts are kept

  function Flag(kind: Kind, d: Day): bool { if kind.OfCalls? then d.callsComplete else d.voicemailComplete }

  /** The last read is that of the history, and every day's call and voicemail flags are its coverage. */
  ghost predicate FlagsValid(days: Days, lastHistory: Option<Stamp>, seen: seq<Seen>, gap: int) {
    && lastHistory == LastRead(seen)
    && forall kind, d :: d in days ==> (Flag(kind, days[d]) <==> Covered(kind, seen, d, gap))
  }

  lemma FlagAfterQueues(kind: Kind, days: Days, last: Option<Stamp>, s: Snapshot, now: Stamp, gap: int, d: int)
    requires DayOf(now) in days && d in days
    ensures var crossed := last.Some? && DayOf(last.value) != DayOf(now) && s.channels;
      var after := AfterQueues(days, last, s, now, gap);
      d in after && Flag(kind, after[d]) == (Flag(kind, days[d]) && !(kind.OfCalls? && crossed && Doubtful(d, last,
                                                                                                           now)))
  {
    hide NamesOf, LongestOf, AllEmpty, DayOf;
  }

  lemma FlagAfterCoverage(kind: Kind, days: Days, last: Option<Stamp>, s: Snapshot, now: Stamp, gap: int, d: int)
    requires d in days
    ensures var late := last.Some? && !(0 <= ReadAt(s, now) - last.value <= gap);
      var after := AfterCoverage(days, last, s, now, gap);
      d in after && Flag(kind, after[d]) ==
        (Flag(kind, days[d]) && !((!HistoryReady(s, gap) || late) && Doubtful(d, last, now)) &&
         !(kind.OfVoicemail? && !s.voicemailReady && d == DayOf(now)))
  {
    hide DayOf;
  }

  lemma FlagAfterBatch(kind: Kind, days: Days, lastKey: Option<Key>, last: Option<Stamp>, s: Snapshot, now: Stamp,
                       d: int)
    requires d in days
    ensures var after := AfterCalls(days, lastKey, last, s, now);
      d in after && Flag(kind, after[d]) ==
        (Flag(kind, days[d]) && !(kind.OfCalls? && Undated in s.calls && d == DayOf(now)) &&
         !(kind.OfCalls? && Gap(lastKey, s, DayOf(now)) && Doubtful(d, last, now)))
  {
    hide DayOf, Gap;
  }

  lemma FlagAfterHistory(kind: Kind, days: Days, last: Option<Stamp>, s: Snapshot, now: Stamp, crowded: bool, d: int)
    requires d in days
    ensures var after := AfterHistory(days, last, s, now, crowded);
      d in after && Flag(kind, after[d]) == (Flag(kind, days[d]) && !(crowded && Doubtful(d, last, now)) &&
        !(kind.OfVoicemail? && !crowded && Vague(s) && d == DayOf(now)))
  {
    hide DayOf;
  }

  /** What one observation leaves of a day's flag. */
  predicate Spared(kind: Kind, last: Option<Stamp>, lastHistory: Option<Stamp>, o: Seen, d: int, gap: int) {
    && !(kind.OfCalls? && last.Some? && DayOf(last.value) != DayOf(o.stamp) && o.check.calling && Doubtful(d, last,
                                                                                                           o.stamp))
    && (Doubtful(d, lastHistory, o.stamp) ==> ReadsOn(kind, lastHistory, o, gap))
    && (d == DayOf(o.stamp) ==> Clear(kind, o))
  }

  /** The batch does not reach back to the last one, or was not counted. */
  predicate Short(kind: Kind, b: Batched) { (kind.OfCalls? && !b.anchored) || b.crowded }

  predicate Undatable(kind: Kind, b: Batched) { if kind.OfCalls? then b.undated else b.vague }

  /** The same, from what the observation found. */
  lemma SparedBy(kind: Kind, last: Option<Stamp>, lastHistory: Option<Stamp>, s: Snapshot, now: Stamp, stored: bool,
                 read: Option<Batched>, d: int, gap: int)
    ensures var o := Look(s, now, stored, read);
      var late := lastHistory.Some? && !(0 <= ReadAt(s, now) - lastHistory.value <= gap);
      Spared(kind, last, lastHistory, o, d, gap) <==>
        && !(kind.OfCalls? && last.Some? && DayOf(last.value) != DayOf(now) && s.channels && Doubtful(d, last, now))
        && !((!HistoryReady(s, gap) || late) && Doubtful(d, lastHistory, now))
        && !(read.Some? && Short(kind, read.value) && Doubtful(d, lastHistory, now))
        && (d == DayOf(now) ==> stored && (kind.OfVoicemail? ==> s.voicemailReady) &&
                                !(read.Some? && Undatable(kind, read.value)))
  {
    hide DayOf, Doubtful, NamesOf, LongestOf, AllEmpty;
  }

  lemma WatchedFlag(kind: Kind, days: Days, last: Option<Stamp>, lastHistory: Option<Stamp>, s: Snapshot, now: Stamp,
                    queueGap: int, gap: int, d: int)
    requires d in WithDay(days, DayOf(now), now)
    ensures var watched := Watched(days, last, lastHistory, s, now, queueGap, gap);
      var late := lastHistory.Some? && !(0 <= ReadAt(s, now) - lastHistory.value <= gap);
      d in watched && Flag(kind, watched[d]) ==
        (Flag(kind, WithDay(days, DayOf(now), now)[d])
         && !(kind.OfCalls? && last.Some? && DayOf(last.value) != DayOf(now) && s.channels && Doubtful(d, last, now))
         && !((!HistoryReady(s, gap) || late) && Doubtful(d, lastHistory, now))
         && !(kind.OfVoicemail? && !s.voicemailReady && d == DayOf(now)))
  {
    var begun := WithDay(days, DayOf(now), now);
    assert DayOf(now) in begun;
    hide WithDay, DayOf, Doubtful, AfterQueues, AfterCoverage;
    FlagAfterQueues(kind, begun, last, s, now, queueGap, d);
    FlagAfterCoverage(kind, AfterQueues(begun, last, s, now, queueGap), lastHistory, s, now, gap, d);
  }

  lemma BatchFlag(kind: Kind, watched: Days, lastHistory: Option<Stamp>, lastKey: Option<Key>, table: map<Key, nat>,
                  s: Snapshot, now: Stamp, read: bool, stored: bool, d: int)
    requires d in watched
    ensures var today := DayOf(now); var b := BatchedOf(s, lastKey, table, today);
      var flags := FinalFlags(FlagsAfter(watched, lastKey, lastHistory, s, now, read, Crowded(table, s, today)), now,
                              stored);
      d in flags && Flag(kind, flags[d]) ==
        (Flag(kind, watched[d])
         && !(read && Short(kind, b) && Doubtful(d, lastHistory, now))
         && (d == today ==> stored && !(read && Undatable(kind, b))))
  {
    assert Doubtful(DayOf(now), lastHistory, now);
    hide DayOf, Doubtful, Gap, Crowded;
    FlagAfterBatch(kind, watched, lastKey, lastHistory, s, now, d);
    FlagAfterHistory(kind, AfterCalls(watched, lastKey, lastHistory, s, now), lastHistory, s, now,
                      Crowded(table, s, DayOf(now)), d);
    hide AfterCalls, AfterHistory;
  }

  lemma FlagIsSpared(kind: Kind, days: Days, last: Option<Stamp>, lastHistory: Option<Stamp>, lastKey: Option<Key>,
                     table: map<Key, nat>,
                     s: Snapshot, now: Stamp, queueGap: int, gap: int, read: bool, stored: bool, d: int)
    requires d in WithDay(days, DayOf(now), now)
    ensures var today := DayOf(now);
      var watched := Watched(days, last, lastHistory, s, now, queueGap, gap);
      var flags := FinalFlags(FlagsAfter(watched, lastKey, lastHistory, s, now, read, Crowded(table, s, today)), now,
                              stored);
      var o := Look(s, now, stored, if read then Some(BatchedOf(s, lastKey, table, today)) else None);
      d in flags &&
      Flag(kind, flags[d]) == (Flag(kind, WithDay(days, today, now)[d]) && Spared(kind, last, lastHistory, o, d, gap))
  {
    var read' := if read then Some(BatchedOf(s, lastKey, table, DayOf(now))) else None;
    hide Watched, FlagsAfter, FinalFlags, Look, Spared, WithDay, DayOf, Doubtful, Gap, Crowded, HistoryReady;
    WatchedFlag(kind, days, last, lastHistory, s, now, queueGap, gap, d);
    BatchFlag(kind, Watched(days, last, lastHistory, s, now, queueGap, gap), lastHistory, lastKey, table, s, now, read,
              stored, d);
    SparedBy(kind, last, lastHistory, s, now, stored, read', d, gap);
  }

  /** One observation keeps a day's flag equal to its coverage by the whole history. */
  lemma FlagFollows(kind: Kind, days: Days, last: Option<Stamp>, seen: seq<Seen>, lastHistory: Option<Stamp>, o: Seen,
                    queueGap: int, gap: int, clock: Stamp, d: int)
    requires QueueValid(days, last, seen, queueGap, clock) && FlagsValid(days, lastHistory, seen, gap)
    requires clock <= o.stamp
    requires d in WithDay(days, DayOf(o.stamp), o.stamp)
    ensures Flag(kind, WithDay(days, DayOf(o.stamp), o.stamp)[d]) && Spared(kind, last, lastHistory, o, d, gap) <==>
      Covered(kind, seen + [o], d, gap)
  {
    LooksBack(days, last, seen, queueGap, clock, o);
    CoveredStep(kind, seen, o, d, gap);
    assert (seen + [o])[|seen|] == o && (seen + [o])[..|seen|] == seen;
    assert seen != [] ==> (seen + [o])[|seen| - 1] == seen[|seen| - 1];
    assert d in days ==> (Flag(kind, days[d]) <==> Covered(kind, seen, d, gap));
    hide QueueValid, FlagsValid, Covered, LastRead, ReadsOn, DayOf, SecondOfDay, Ordered;
  }

  ghost predicate FlagsSpared(days: Days, flags: Days, last: Option<Stamp>, lastHistory: Option<Stamp>, o: Seen,
                              gap: int)
  {
    var begun := WithDay(days, DayOf(o.stamp), o.stamp);
    forall kind, d :: d in begun ==>
      d in flags && Flag(kind, flags[d]) == (Flag(kind, begun[d]) && Spared(kind, last, lastHistory, o, d, gap))
  }

  /** So it keeps all of them, whatever days a read has opened for earlier calls. */
  lemma FlagsKept(days: Days, last: Option<Stamp>, seen: seq<Seen>, lastHistory: Option<Stamp>, o: Seen,
                  queueGap: int, gap: int, clock: Stamp, flags: Days, after: Days)
    requires QueueValid(days, last, seen, queueGap, clock) && FlagsValid(days, lastHistory, seen, gap)
    requires clock <= o.stamp
    requires FlagsSpared(days, flags, last, lastHistory, o, gap)
    requires SameFlags(flags, after) && OnlyRecent(days, after, DayOf(o.stamp))
    ensures FlagsValid(after, LastRead(seen + [o]), seen + [o], gap)
  {
    forall kind, d | d in after ensures Flag(kind, after[d]) <==> Covered(kind, seen + [o], d, gap) {
      if d in WithDay(days, DayOf(o.stamp), o.stamp) {
        var begun := WithDay(days, DayOf(o.stamp), o.stamp)[d];
        var kept := Flag(kind, begun) && Spared(kind, last, lastHistory, o, d, gap);
        assert d in flags && Flag(kind, flags[d]) == kept;
        hide Covered, Spared, QueueValid, FlagsValid, Flag;
        FlagFollows(kind, days, last, seen, lastHistory, o, queueGap, gap, clock, d);
      } else {
        NotCoveredWithoutLooks(kind, days, last, seen, o, queueGap, clock, d, gap);
      }
    }
  }

  /** Days that appear are today, or earlier ones within reach of a batch, which vouch for nothing. */
  predicate OnlyRecent(days: Days, after: Days, today: int) {
    forall d :: d in after && d !in days && d != today ==> today - 2 <= d < today && forall kind :: !Flag(kind,
                                                                                                          after[d])
  }

  lemma NotCoveredWithoutLooks(kind: Kind, days: Days, last: Option<Stamp>, seen: seq<Seen>, o: Seen, queueGap: int,
                               clock: Stamp,
                               d: int, gap: int)
    requires QueueValid(days, last, seen, queueGap, clock) && clock <= o.stamp
    requires d !in days && DayOf(o.stamp) - 2 <= d < DayOf(o.stamp)
    ensures !Covered(kind, seen + [o], d, gap)
  {
    DaysInOrder(clock, o.stamp);
    OneMore(seen, o, d);
    forall i ensures !IsOn(seen + [o], i, d) {
      assert !IsOn(seen, i, d);
    }
  }

  // ---------------------------------------------------------------- booking calls

  /** The source's running totals for one new or repeated key. */
  function Booked(days: Days, k: Key, delta: nat, menu: bool, now: Stamp): Days {
    var begun := WithDay(days, DayOf(k.startedAt), now);
    var d := begun[DayOf(k.startedAt)];
    var more := d.(calls := d.calls + delta);
    begun[DayOf(k.startedAt) :=
      if k.outcome == Missed then more.(missed := d.missed + delta)
      else if !menu then more.(answered := d.answered + delta)
      else more]
  }

  function Gain(gained: map<Bucket, multiset<Key>>, b: Bucket): multiset<Key> {
    if b in gained then gained[b] else multiset{}
  }

  /** The part of the gains that somebody answered, by day. */
  type Spoken = map<int, multiset<Key>>

  function SpokenOn(spoken: Spoken, d: int): multiset<Key> {
    if d in spoken then spoken[d] else multiset{}
  }

  function RaiseSpoken(spoken: Spoken, k: Key, delta: nat, menu: bool): Spoken {
    var d := DayOf(k.startedAt);
    if k.outcome == Answered && !menu then spoken[d := SpokenOn(spoken, d)[k := delta]] else spoken
  }

  ghost predicate AddedOn(before: Days, after: Days, gained: map<Bucket, multiset<Key>>, spoken: Spoken, d: int) {
    && CallsOn(after, d) == CallsOn(before, d) + |Gain(gained, Bucket(d, Missed))| + |Gain(gained, Bucket(d, Answered))|
    && MissedOn(after, d) == MissedOn(before, d) + |Gain(gained, Bucket(d, Missed))|
    && AnsweredOn(after, d) == AnsweredOn(before, d) + |SpokenOn(spoken, d)|
  }

  ghost predicate AddedUp(before: Days, after: Days, gained: map<Bucket, multiset<Key>>, spoken: Spoken) {
    forall d :: AddedOn(before, after, gained, spoken, d)
  }

  lemma BookedOn(days: Days, k: Key, delta: nat, menu: bool, now: Stamp, d: int)
    ensures var after, hit := Booked(days, k, delta, menu, now), d == DayOf(k.startedAt);
      && CallsOn(after, d) == CallsOn(days, d) + (if hit then delta else 0)
      && MissedOn(after, d) == MissedOn(days, d) + (if hit && k.outcome == Missed then delta else 0)
      && AnsweredOn(after, d) == AnsweredOn(days, d) + (if hit && k.outcome != Missed && !menu then delta else 0)
  {
    hide DayOf;
  }

  lemma BookedFlags(days: Days, k: Key, delta: nat, menu: bool, now: Stamp, d: int)
    requires d in days
    ensures var after := Booked(days, k, delta, menu, now);
      d in after && SameQueues(days[d], after[d]) && NoHigher(after[d], days[d]) && NoHigher(days[d], after[d])
  {
    hide DayOf, Opened;
  }

  lemma BookedTouches(days: Days, k: Key, delta: nat, menu: bool, now: Stamp)
    requires Counts(Dated(k, menu), DayOf(now)) && DayOf(now) in days
    ensures OnlyCounts(days, Booked(days, k, delta, menu, now), DayOf(now))
    ensures DayOf(now) in Booked(days, k, delta, menu, now)
  {
    hide DayOf, SecondOfDay;
    var after := Booked(days, k, delta, menu, now);
    assert after.Keys == days.Keys + {DayOf(k.startedAt)};
    forall d | d in days
      ensures d in after && SameQueues(days[d], after[d]) && NoHigher(after[d], days[d]) && NoHigher(days[d], after[d])
    {
      BookedFlags(days, k, delta, menu, now, d);
    }
    assert DayOf(k.startedAt) !in days ==> Unwatched(after[DayOf(k.startedAt)]);
    hide Booked;
  }

  function Raise(gained: map<Bucket, multiset<Key>>, k: Key, delta: nat): map<Bucket, multiset<Key>> {
    gained[BucketOf(k) := Gain(gained, BucketOf(k))[k := delta]]
  }

  lemma RaisedOn(gained: map<Bucket, multiset<Key>>, k: Key, delta: nat, b: Bucket)
    requires Gain(gained, BucketOf(k))[k] == 0
    ensures |Gain(Raise(gained, k, delta), b)| == |Gain(gained, b)| + if b == BucketOf(k) then delta else 0
  {
    hide DayOf;
  }

  lemma SpokenRaised(spoken: Spoken, k: Key, delta: nat, menu: bool, d: int)
    requires SpokenOn(spoken, DayOf(k.startedAt))[k] == 0
    ensures |SpokenOn(RaiseSpoken(spoken, k, delta, menu), d)| ==
      |SpokenOn(spoken, d)| + if d == DayOf(k.startedAt) && k.outcome == Answered && !menu then delta else 0
  {
    hide DayOf;
  }

  /** What was gained of the key so far: nothing. */
  ghost predicate NotGained(gained: map<Bucket, multiset<Key>>, spoken: Spoken, k: Key) {
    k.outcome != Other && Gain(gained, BucketOf(k))[k] == 0 && SpokenOn(spoken, DayOf(k.startedAt))[k] == 0
  }

  lemma BookedAddsOn(before: Days, days: Days, gained: map<Bucket, multiset<Key>>, spoken: Spoken, k: Key, delta: nat,
                     menu: bool, now: Stamp, d: int)
    requires AddedOn(before, days, gained, spoken, d) && NotGained(gained, spoken, k)
    ensures AddedOn(before, Booked(days, k, delta, menu, now), Raise(gained, k, delta),
                    RaiseSpoken(spoken, k, delta, menu), d)
  {
    hide Booked, Raise, RaiseSpoken, Gain, SpokenOn, CallsOn, MissedOn, AnsweredOn, DayOf;
    BookedOn(days, k, delta, menu, now, d);
    SpokenRaised(spoken, k, delta, menu, d);
    RaisedOn(gained, k, delta, Bucket(d, Missed));
    RaisedOn(gained, k, delta, Bucket(d, Answered));
  }

  lemma BookedAddsUp(before: Days, days: Days, gained: map<Bucket, multiset<Key>>, spoken: Spoken, k: Key, delta: nat,
                     menu: bool, now: Stamp)
    requires AddedUp(before, days, gained, spoken) && NotGained(gained, spoken, k)
    ensures AddedUp(before, Booked(days, k, delta, menu, now), Raise(gained, k, delta),
                    RaiseSpoken(spoken, k, delta, menu))
  {
    hide AddedOn, Booked, Raise, RaiseSpoken, NotGained;
    var after, more, talk := Booked(days, k, delta, menu, now), Raise(gained, k, delta),
      RaiseSpoken(spoken, k, delta, menu);
    forall d ensures AddedOn(before, after, more, talk, d) {
      BookedAddsOn(before, days, gained, spoken, k, delta, menu, now, d);
    }
  }

  lemma GainsFillTheLedger(table: map<Key, nat>, batches: seq<Batch>, batch: Batch,
                           gained: map<Bucket, multiset<Key>>, b: Bucket)
    requires GainsMatch(gained, Counted(batch.calls, batch.today), table)
    requires forall k: Key :: batch.today - 2 <= DayOf(k.startedAt) ==>
      StoredFor(table, k) == Ledger(batches, BucketOf(k))[k]
    ensures |Ledger(batches + [batch], b)| == |Ledger(batches, b)| + |Gain(gained, b)|
  {
    assert (batches + [batch])[..|batches|] == batches;
    var added := On(batch.calls, batch.today, b) - Ledger(batches, b);
    forall k: Key ensures Gain(gained, b)[k] == added[k] {
      OnIsCounted(batch.calls, batch.today, b, k);
      hide On, Counted, DayOf, Ledger, Gain;
    }
    assert Gain(gained, b) == added;
    hide On, Gain, GainsMatch;
  }

  /** What is gained of spoken calls is what the batch adds to those answered. */
  lemma SpokenIsReached(table: map<Key, nat>, batches: seq<Batch>, batch: Batch, spoken: Spoken, d: int)
    requires SpokenMatch(spoken, Counted(batch.calls, batch.today), table, batch.calls)
    requires forall k: Key :: batch.today - 2 <= DayOf(k.startedAt) ==>
      StoredFor(table, k) == Ledger(batches, BucketOf(k))[k]
    ensures Reached(batches + [batch], d) == Reached(batches, d) + |SpokenOn(spoken, d)|
  {
    assert (batches + [batch])[..|batches|] == batches;
    var b := Bucket(d, Answered);
    var added := Talks(batch.calls, batch.calls, batch.today, d) - Ledger(batches, b);
    forall k: Key ensures SpokenOn(spoken, d)[k] == added[k] {
      OnIsCounted(batch.calls, batch.today, b, k);
      TalksAreOn(batch.calls, batch.calls, batch.today, d, k);
      hide On, Counted, DayOf, Ledger, SpokenOn, Talks, MenuOnly;
    }
    assert SpokenOn(spoken, d) == added;
    hide Talks, SpokenOn, SpokenMatch;
  }

  lemma TableGrows(table: map<Key, nat>, updated: map<Key, nat>, batches: seq<Batch>, batch: Batch, k: Key)
    requires Raised(table, updated, Counted(batch.calls, batch.today))
    requires StoredFor(table, k) == Ledger(batches, BucketOf(k))[k]
    ensures StoredFor(updated, k) == Ledger(batches + [batch], BucketOf(k))[k]
  {
    assert (batches + [batch])[..|batches|] == batches;
    OnIsCounted(batch.calls, batch.today, BucketOf(k), k);
    hide On, Counted, DayOf, StoredFor;
  }

  /** What a batch adds to the days is exactly what the ledger of the longer history has over the shorter one. */
  lemma LedgerGrows(before: Days, after: Days, table: map<Key, nat>, updated: map<Key, nat>, batches: seq<Batch>,
                    batch: Batch, gained: map<Bucket, multiset<Key>>, spoken: Spoken)
    requires LedgerValid(before, table, batches, batch.today) && AddedUp(before, after, gained, spoken)
    requires Raised(table, updated, Counted(batch.calls, batch.today))
    requires GainsMatch(gained, Counted(batch.calls, batch.today), table)
    requires SpokenMatch(spoken, Counted(batch.calls, batch.today), table, batch.calls)
    ensures LedgerValid(after, updated, batches + [batch], batch.today)
  {
    hide Ledger, Reached, Raised, GainsMatch, SpokenMatch, Gain, SpokenOn, StoredFor, CallsOn, MissedOn, AnsweredOn,
      DayOf;
    forall d | batch.today - RETENTION <= d ensures DayCounts(after, batches + [batch], d) {
      assert DayCounts(before, batches, d) && AddedOn(before, after, gained, spoken, d);
      SpokenIsReached(table, batches, batch, spoken, d);
      GainsFillTheLedger(table, batches, batch, gained, Bucket(d, Missed));
      GainsFillTheLedger(table, batches, batch, gained, Bucket(d, Answered));
    }
    forall k: Key | batch.today - 2 <= DayOf(k.startedAt)
      ensures StoredFor(updated, k) == Ledger(batches + [batch], BucketOf(k))[k]
    {
      TableGrows(table, updated, batches, batch, k);
    }
  }

  ghost predicate Raised(table: map<Key, nat>, updated: map<Key, nat>, counts: multiset<Key>) {
    forall k: Key :: StoredFor(updated, k) == if StoredFor(table, k) < counts[k] then counts[k] else StoredFor(table, k)
  }

  ghost predicate SpokenMatch(spoken: Spoken, counts: multiset<Key>, table: map<Key, nat>, calls: seq<Call>) {
    forall d, k: Key :: SpokenOn(spoken, d)[k] ==
      if BucketOf(k) == Bucket(d, Answered) && !MenuOnly(calls, k) && StoredFor(table, k) < counts[k]
      then counts[k] - StoredFor(table, k) else 0
  }

  ghost predicate GainsMatch(gained: map<Bucket, multiset<Key>>, counts: multiset<Key>, table: map<Key, nat>) {
    forall b, k: Key :: Gain(gained, b)[k] ==
      if BucketOf(k) == b && StoredFor(table, k) < counts[k] then counts[k] - StoredFor(table, k) else 0
  }
}
