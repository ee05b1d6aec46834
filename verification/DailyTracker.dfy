/** The tracker itself: what the Agent keeps in memory, what its database holds, and one observation of the PBX. */
module DailyTracker {
  import opened Options
  import opened CallLedger
  import opened QueueDay
  import opened CallDay
  import opened DailySummary
  import opened DailyRestart
  import opened DailySteps
  import opened DailyFacts

  /** Counts a batch: how often each key occurs, and which dated call comes last. */
  method Tally(calls: seq<Call>, today: int)
    returns (counts: multiset<Key>, menu: map<Key, bool>, newest: Option<Key>, undated: bool)
    ensures counts == Counted(calls, today)
    ensures forall k :: k in menu <==> k in counts
    ensures forall k :: k in counts ==> Counts(Dated(k, menu[k]), today) && menu[k] == MenuOnly(calls, k)
    ensures undated <==> Undated in calls
    ensures newest.None? <==> counts == multiset{}
    ensures newest.Some? ==> IsNewest(newest.value, counts)
  {
    counts, menu, newest, undated := multiset{}, map[], None, false;
    for i := 0 to |calls|
      invariant counts == Counted(calls[..i], today)
      invariant forall k :: k in menu <==> k in counts
      invariant forall k :: k in counts ==> Counts(Dated(k, menu[k]), today) && menu[k] == MenuOnly(calls[..i], k)
      invariant undated <==> Undated in calls[..i]
      invariant newest.None? <==> counts == multiset{}
      invariant newest.Some? ==> IsNewest(newest.value, counts)
    {
      assert calls[..i + 1][..i] == calls[..i];
      var c := calls[i];
      if c.Undated? {
        undated := true;
      } else if Counts(c, today) {
        counts := counts + multiset{c.key};
        menu := menu[c.key := c.ivr];
        if newest.None? || newest.value.startedAt / SECOND < c.key.startedAt / SECOND {
          newest := Some(c.key);
        }
      }
    }
    assert calls[..|calls|] == calls;
  }

  method AnyOf<T>(s: set<T>) returns (x: T)
    requires s != {}
    ensures x in s
  {
    x :| x in s;
  }

  class DailySummaryTracker {
    const historyGap: int
    const queueGap: int

    var days: Days
    var lastQueue: Option<Stamp>
    var lastHistory: Option<Stamp>
    var lastKey: Option<Key>
    var savedAt: Stamp
    var breachDay: Option<int>
    var storageReady: bool

    // the database
    var stored: State
    var table: map<Key, nat>

    // history: every batch the database accepted, every look that led to the present state, and to the stored one
    ghost var batches: seq<Batch>
    ghost var looks: seq<Seen>
    ghost var storedLooks: seq<Seen>
    ghost var clock: Stamp

    /** Every look there ever was; no method forgets any of it. */
    ghost var past: Chronicle

    ghost predicate MemoryValid()
      reads this
    {
      QueueValid(days, lastQueue, looks, queueGap, clock) && LedgerValid(days, table, batches, DayOf(clock))
    }

    ghost predicate StoredValid()
      reads this
    {
      && QueueValid(stored.days, stored.lastQueue, storedLooks, queueGap, clock)
      && LedgerValid(stored.days, table, batches, DayOf(clock))
    }

    /** The database holds what memory holds, and the looks it rests on. */
    ghost predicate Saved()
      reads this
    {
      stored == State(days, lastQueue, lastHistory, lastKey) && storedLooks == looks
    }

    /**
     The queue verdicts and the call counts of memory and database are true of the history; both count the
     same ledger.
     */
    ghost predicate Consistent()
      reads this
    {
      MemoryValid() && StoredValid()
    }

    /** The call and voicemail flags of both are true of the history of reads. */
    ghost predicate FlagsKnown()
      reads this
    {
      && FlagsValid(days, lastHistory, looks, historyGap)
      && FlagsValid(stored.days, stored.lastHistory, storedLooks, historyGap)
    }

    /** What memory and database claim is true of the looks they rest on, and what was lost is accounted for. */
    ghost predicate Valid()
      reads this
    {
      && Consistent() && FlagsKnown() && SAVE_EVERY <= clock
      && Chronicled(past, looks, storedLooks, queueGap, clock, savedAt, breachDay)
      && (!past.torn ==> TodaySaved(stored.days, days, DayOf(clock)))
    }

    constructor (historySeconds: int, queueGapSeconds: int)
      ensures Valid() && clock == SAVE_EVERY && batches == [] && looks == []
      ensures past == Chronicle([], [], [], false, false)
      ensures days == map[] && table == map[] && lastHistory == None && lastKey == None && savedAt == 0
      ensures queueGap == queueGapSeconds * SECOND
      ensures historyGap == (if historySeconds * 3 < 120 then 120 else historySeconds * 3) * SECOND
    {
      historyGap := (if historySeconds * 3 < 120 then 120 else historySeconds * 3) * SECOND;
      queueGap := queueGapSeconds * SECOND;
      days, lastQueue, lastHistory, lastKey := map[], None, None, None;
      savedAt, breachDay, storageReady := 0, None, false;
      stored, table := State(map[], None, None, None), map[];
      batches, looks, storedLooks, clock := [], [], [], SAVE_EVERY;
      past := Chronicle([], [], [], false, false);
    }

    /** What was saved is read back; nothing else is known yet. */
    method Load()
      modifies `days, `lastQueue, `lastHistory, `lastKey, `savedAt, `breachDay, `storageReady
      ensures State(days, lastQueue, lastHistory, lastKey) == stored
      ensures savedAt == 0 && breachDay == None && !storageReady
    {
      days, lastQueue, lastHistory, lastKey := stored.days, stored.lastQueue, stored.lastHistory, stored.lastKey;
      savedAt, breachDay, storageReady := 0, None, false;
    }

    /**
     A new process starts from what the database holds. A queue flag rises exactly if the looks that
     are lost took it away, and any other flag likewise. When no write failed after the last save, no
     queue flag rises, and no flag of the present day.
     */
    method Restart()
      requires Valid()
      modifies this
      ensures Valid() && unchanged(`stored, `table, `batches, `storedLooks, `clock)
      ensures days == stored.days && lastQueue == stored.lastQueue && lastHistory == stored.lastHistory
      ensures lastKey == stored.lastKey && savedAt == 0 && breachDay == None && !storageReady && looks == storedLooks
      ensures past == Restarted(old(past)) && past.all == old(past.all)
      ensures RisesByLoss(old(days), old(looks), days, looks, queueGap, historyGap)
      ensures !old(past).torn ==> NoneRises(old(days), days, DayOf(clock)) && storedLooks <= old(looks)
    {
      hide LedgerValid, QueueValid, FlagsValid, Chronicled, RisesByLoss, NoneRises, TodaySaved, DayOf;
      RestartKeeps(past, State(days, lastQueue, lastHistory, lastKey), looks, stored, storedLooks, queueGap, historyGap,
                   clock, savedAt, breachDay);
      Load();
      looks, past := storedLooks, Restarted(past);
    }

    /** Lowers flags of every doubtful day, one record at a time. */
    method Invalidate(previous: Option<Stamp>, now: Stamp, w: Which)
      modifies `days
      ensures days == Lowered(old(days), previous, now, w)
    {
      var pending: set<int> := days.Keys;
      while pending != {}
        invariant days.Keys == old(days).Keys && pending <= days.Keys
        invariant forall d :: d in pending ==> days[d] == old(days)[d]
        invariant forall d :: d in days && d !in pending ==> days[d] == LoweredDay(old(days)[d], d, previous, now, w)
        decreases |pending|
      {
        var d := AnyOf(pending);
        if Doubtful(d, previous, now) {
          days := days[d := Lower(days[d], w)];
        }
        pending := pending - {d};
      }
    }

    /** The queue half of an observation. */
    method ObserveQueues(s: Snapshot, now: Stamp)
      requires DayOf(now) in days
      modifies `days, `lastQueue
      ensures days == AfterQueues(old(days), old(lastQueue), s, now, queueGap) && lastQueue == Some(now)
    {
      hide DayOf, NamesOf, LongestOf, AllEmpty, Lowered, LoweredDay;
      var today := DayOf(now);
      LoweredKeeps(days, lastQueue, now, QUEUES);
      if !(s.reachable && s.queuesReady) || (lastQueue.Some? && !(0 <= now - lastQueue.value <= queueGap)) {
        Invalidate(lastQueue, now, QUEUES);
      }
      LoweredKeeps(days, lastQueue, now, CALLS);
      if lastQueue.Some? && DayOf(lastQueue.value) != today && s.channels {
        Invalidate(lastQueue, now, CALLS);
      }
      var names, longest := NamesOf(s.queues), LongestOf(s.queues);
      var d := days[today];
      if lastQueue.Some? && DayOf(lastQueue.value) == today && names != d.queueNames {
        d := d.(queuesComplete := false);
      }
      d := d.(queueNames := d.queueNames + names);
      d := d.(maxWait := if d.maxWait < longest then longest else d.maxWait);
      d := d.(queuesEmpty := AllEmpty(s));
      days := days[today := d];
      lastQueue := Some(now);
    }

    /** Adds what the batch shows beyond what the table knows, key by key. */
    method AddCalls(counts: multiset<Key>, menu: map<Key, bool>, known: map<Key, nat>, now: Stamp,
                    ghost calls: seq<Call>)
      returns (updated: map<Key, nat>, ghost gained: map<Bucket, multiset<Key>>, ghost spoken: Spoken)
      requires DayOf(now) in days
      requires forall k :: k in counts ==>
        k in menu && Counts(Dated(k, menu[k]), DayOf(now)) && menu[k] == MenuOnly(calls, k)
      modifies `days
      ensures Raised(known, updated, counts) && GainsMatch(gained, counts, known)
      ensures SpokenMatch(spoken, counts, known, calls)
      ensures forall k :: k in updated ==> k in known || k in counts
      ensures AddedUp(old(days), days, gained, spoken) && OnlyCounts(old(days), days, DayOf(now))
    {
      hide Booked, Raise, RaiseSpoken, AddedUp, OnlyCounts, RaisedBut, GainsBut, SpokenBut, DayOf, Raised, GainsMatch,
        SpokenMatch, MenuOnly, SpokenOn;
      updated, gained, spoken := known, map[], map[];
      var pending := set k | k in counts;
      NothingBooked(days, known, counts, pending, calls, DayOf(now));
      while pending != {}
        invariant DayOf(now) in days
        invariant forall k :: k in pending ==> k in counts
        invariant forall k :: k in updated ==> k in known || k in counts
        invariant RaisedBut(known, updated, counts, pending) && GainsBut(gained, counts, known, pending)
        invariant SpokenBut(spoken, counts, known, calls, pending)
        invariant AddedUp(old(days), days, gained, spoken) && OnlyCounts(old(days), days, DayOf(now))
        decreases |pending|
      {
        var k :| k in pending;
        GainsNext(gained, counts, known, pending, k);
        SpokenNext(spoken, counts, known, calls, pending, k);
        RaisedNext(known, updated, counts, pending, k);
        pending := pending - {k};
        if StoredFor(known, k) < counts[k] {
          var delta := counts[k] - StoredFor(known, k);
          BookedAddsUp(old(days), days, gained, spoken, k, delta, menu[k], now);
          BookedTouches(days, k, delta, menu[k], now);
          OnlyCountsTwice(old(days), days, Booked(days, k, delta, menu[k], now), DayOf(now));
          gained, spoken := Raise(gained, k, delta), RaiseSpoken(spoken, k, delta, menu[k]);
          days := Booked(days, k, delta, menu[k], now);
          updated := updated[k := counts[k]];
        }
      }
      EverythingBooked(known, updated, counts, gained, spoken, calls);
    }

    /** Writes everything but the table; the caller's transaction carries that. */
    method Save(now: Stamp, fault: Fault) returns (ok: bool)
      modifies `days, `savedAt, `storageReady, `stored, `storedLooks
      ensures ok <==> fault.Works?
      ensures days == Pruned(old(days), now)
      ensures ok ==> stored == State(days, lastQueue, lastHistory, lastKey) && storedLooks == looks
      ensures !ok ==> unchanged(`stored, `storedLooks)
      ensures fault.FailsBeforeSaving? ==> unchanged(`savedAt, `storageReady)
      ensures !fault.FailsBeforeSaving? ==> savedAt == now && storageReady
    {
      days := Pruned(days, now);
      ok := fault.Works?;
      if !fault.FailsBeforeSaving? {
        savedAt, storageReady := now, true;
      }
      if ok {
        stored := State(days, lastQueue, lastHistory, lastKey);
        storedLooks := looks;
      }
    }

    /** A batch too large for the table is not counted, and the days it may concern lose their claims. */
    method SkipBatch(s: Snapshot, now: Stamp, fault: Fault) returns (ok: bool)
      requires DayOf(now) in days && LedgerValid(days, table, batches, DayOf(now))
      modifies `days, `lastHistory, `savedAt, `storageReady, `stored, `storedLooks, `table
      ensures ok <==> fault.Works?
      ensures !ok ==> unchanged(`stored, `storedLooks, `table)
      ensures OnlyShown(old(table), table, s.calls, DayOf(now))
      ensures ok ==>
        stored == State(days, lastQueue, lastHistory, lastKey) && storedLooks == looks && storageReady && savedAt == now
      ensures savedAt == now || savedAt == old(savedAt)
      ensures ok ==> lastHistory == Some(ReadAt(s, now)) && table == Recent(old(table), DayOf(now))
      ensures Touched(old(days), days, DayOf(now))
      ensures SameFlags(AfterHistory(old(days), old(lastHistory), s, now, true), days)
      ensures ok ==> LedgerValid(days, table, batches, DayOf(now))
    {
      hide LedgerValid, QueueValid, SameCounts, Touched, Counted;
      var today := DayOf(now);
      Invalidate(lastHistory, now, HISTORY);
      lastHistory := Some(ReadAt(s, now));
      ghost var lowered := days;
      ok := Save(now, fault);
      if ok { table := Recent(table, today); }
      LoweringTouches(old(days), old(lastHistory), now, HISTORY);
      PruningTouches(lowered, now);
      TouchedTwice(old(days), lowered, days, today);
      SameCountsTwice(old(days), lowered, days, today);
      hide Lowered;
      SameCountsKeepLedger(old(days), days, old(table), batches, today, today);
      RecentKeepsLedger(days, old(table), batches, today);
    }

    /** Counts a batch: every key adds what it shows beyond the table, and the table remembers it. */
    method CountBatch(s: Snapshot, now: Stamp, fault: Fault, counts: multiset<Key>, menu: map<Key, bool>,
                      newest: Option<Key>)
      returns (ok: bool)
      requires DayOf(now) in days && LedgerValid(days, table, batches, DayOf(now))
      requires counts == Counted(s.calls, DayOf(now))
      requires forall k :: k in counts ==>
        k in menu && Counts(Dated(k, menu[k]), DayOf(now)) && menu[k] == MenuOnly(s.calls, k)
      modifies `days, `lastHistory, `lastKey, `savedAt, `storageReady, `stored, `storedLooks, `table, `batches
      ensures ok <==> fault.Works?
      ensures !ok ==> unchanged(`stored, `storedLooks, `table, `batches)
      ensures OnlyShown(old(table), table, s.calls, DayOf(now))
      ensures ok ==>
        stored == State(days, lastQueue, lastHistory, lastKey) && storedLooks == looks && storageReady && savedAt == now
      ensures lastHistory == Some(ReadAt(s, now)) && lastKey == newest && (savedAt == now || savedAt == old(savedAt))
      ensures Touched(old(days), days, DayOf(now))
      ensures SameFlags(AfterHistory(old(days), old(lastHistory), s, now, false), days)
      ensures ok ==>
        batches == old(batches) + [Batch(DayOf(now), s.calls)] && LedgerValid(days, table, batches, DayOf(now))
    {
      hide LedgerValid, Raised, GainsMatch, SpokenMatch, AddedUp, Touched, SameCounts, DayOf, Recent, Counted, Counts,
        MenuOnly;
      ghost var today, batch := DayOf(now), Batch(DayOf(now), s.calls);
      var known := Recent(table, DayOf(now));
      RecentKeepsLedger(days, table, batches, today);
      var updated: map<Key, nat>;
      ghost var gained, spoken;
      updated, gained, spoken := AddCalls(counts, menu, known, now, s.calls);
      LedgerGrows(old(days), days, known, updated, batches, batch, gained, spoken);
      ghost var counted := days;
      if s.voicemailReady && Voicemail(false) in s.voicemails {
        days := LowerToday(days, now, VOICEMAIL);
      }
      if 100 <= |s.voicemails| {
        days := LowerToday(days, now, VOICEMAIL);
      }
      ghost var lowered := days;
      assert lowered == AfterHistory(counted, old(lastHistory), s, now, false);
      lastKey, lastHistory := newest, Some(ReadAt(s, now));
      ok := Save(now, fault);
      if ok {
        table := updated;
        batches := batches + [batch];
      }
      CountingKeepsFlags(old(days), counted, days, old(lastHistory), s, now);
      CountingCommutes(old(days), counted, old(lastHistory), s, now);
      SameCountsKeepLedger(counted, days, updated, old(batches) + [batch], today, today);
    }

    /** Tallies the batch and lowers what its gaps put in doubt. */
    method Scan(s: Snapshot, now: Stamp) returns (counts: multiset<Key>, menu: map<Key, bool>, newest: Option<Key>)
      requires DayOf(now) in days && LedgerValid(days, table, batches, DayOf(now))
      modifies `days
      ensures days == AfterCalls(old(days), lastKey, lastHistory, s, now) && DayOf(now) in days
      ensures Touched(old(days), days, DayOf(now)) && LedgerValid(days, table, batches, DayOf(now))
      ensures counts == Counted(s.calls, DayOf(now)) && Anchors(newest, counts)
      ensures forall k :: k in counts ==>
        k in menu && Counts(Dated(k, menu[k]), DayOf(now)) && menu[k] == MenuOnly(s.calls, k)
    {
      var undated;
      counts, menu, newest, undated := Tally(s.calls, DayOf(now));
      if undated {
        days := LowerToday(days, now, CALLS);
      }
      if (lastKey.Some? && lastKey.value !in counts) || (lastKey.None? && 1000 <= |s.calls|) {
        Invalidate(lastHistory, now, CALLS);
      }
      CallsTouch(old(days), lastKey, lastHistory, s, now);
      hide LedgerValid, SameCounts, Counts, IsNewest;
      SameCountsKeepLedger(old(days), days, table, batches, DayOf(now), DayOf(now));
    }

    /** Reads a batch of call records in one transaction. When it fails, memory is left for the caller to restore. */
    method History(s: Snapshot, now: Stamp, fault: Fault) returns (ok: bool)
      requires DayOf(now) in days && LedgerValid(days, table, batches, DayOf(now))
      modifies `days, `lastHistory, `lastKey, `savedAt, `storageReady, `stored, `storedLooks, `table, `batches
      ensures ok <==> fault.Works?
      ensures OnlyShown(old(table), table, s.calls, DayOf(now))
      ensures !ok ==> unchanged(`stored, `storedLooks, `table, `batches)
      ensures ok ==> Touched(old(days), days, DayOf(now)) && LedgerValid(days, table, batches, DayOf(now))
      ensures ok ==> lastHistory == Some(ReadAt(s, now))
      ensures ok ==> stored == State(days, lastQueue, lastHistory, lastKey) && storedLooks == looks
      ensures (ok ==> storageReady && savedAt == now) && (savedAt == now || savedAt == old(savedAt))
      ensures ok ==>
        Read(old(days), old(lastKey), old(lastHistory), old(table), old(batches), s, now, days, lastKey, batches)
    {
      hide Touched, SameCounts, LedgerValid, AfterCalls, AfterHistory, SameFlags, DayOf, Counted, Anchors, Counts,
        Recent;
      var counts, menu, newest := Scan(s, now);
      ghost var before := days;
      if Crowded(table, s, DayOf(now)) {
        ok := SkipBatch(s, now, fault);
      } else {
        ok := CountBatch(s, now, fault, counts, menu, newest);
      }
      TouchedTwice(old(days), before, days, DayOf(now));
    }

    /** A read that fails is undone in memory, as the database undoes it on disk. */
    method ReadHistory(s: Snapshot, now: Stamp, fault: Fault, ghost before: seq<Seen>) returns (failed: bool)
      requires Consistent() && clock == now && lastQueue == Some(now) && DayOf(now) in days
      requires looks == before + [Look(s, now, true, None)]
      modifies `days, `lastHistory, `lastKey, `savedAt, `storageReady, `stored, `storedLooks, `table, `batches, `looks
      ensures failed <==> !fault.Works?
      ensures Consistent() && Touched(old(days), days, DayOf(now))
      ensures failed ==> unchanged(`days, `lastHistory, `lastKey, `stored, `storedLooks, `table, `batches, `looks)
      ensures OnlyShown(old(table), table, s.calls, DayOf(now))
      ensures if failed || Crowded(old(table), s, DayOf(now)) then lastKey == old(lastKey)
              else Anchors(lastKey, Counted(s.calls, DayOf(now)))
      ensures failed ==> savedAt == now || savedAt == old(savedAt)
      ensures batches == old(batches) +
        if failed || Crowded(old(table), s, DayOf(now)) then [] else [Batch(DayOf(now), s.calls)]
      ensures !failed ==> lastHistory == Some(ReadAt(s, now)) && Saved() && savedAt == now && storageReady
      ensures !failed ==>
        looks == before + [Look(s, now, true, Some(BatchedOf(s, old(lastKey), old(table), DayOf(now))))]
      ensures !failed ==>
        Read(old(days), old(lastKey), old(lastHistory), old(table), old(batches), s, now, days, lastKey, batches)
    {
      hide Touched, LedgerValid, QueueValid, Look, DayOf, Crowded, Gap, SameFlags, Anchors;
      var previousDays, previousHistory, previousKey := days, lastHistory, lastKey;
      ghost var batched := BatchedOf(s, lastKey, table, DayOf(now));
      Reads(s, now, before, batched);
      looks := before + [Look(s, now, true, Some(batched))];
      var ok := History(s, now, fault);
      failed := !ok;
      if failed {
        days, lastHistory, lastKey := previousDays, previousHistory, previousKey;
        looks := before + [Look(s, now, true, None)];
        NothingTouched(previousDays, DayOf(now));
      } else {
        TouchedKeepsVerdicts(old(days), days, lastQueue, looks, queueGap, now);
      }
    }

    lemma Reads(s: Snapshot, now: Stamp, before: seq<Seen>, batched: Batched)
      requires QueueValid(days, Some(now), before + [Look(s, now, true, None)], queueGap, now)
      ensures QueueValid(days, Some(now), before + [Look(s, now, true, Some(batched))], queueGap, now)
    {
      var o := Look(s, now, true, None);
      CheckIsIrrelevant(days, before, o, o.check.(read := Some(batched)), queueGap);
    }

    /** The history is read when it is new and ready. */
    method ReadIfDue(s: Snapshot, now: Stamp, fault: Fault, ghost before: seq<Seen>)
      returns (failed: bool, ghost read: bool, ghost facts: Option<Batched>)
      requires Consistent() && clock == now && lastQueue == Some(now) && DayOf(now) in days
      requires looks == before + [Look(s, now, true, None)]
      modifies `days, `lastHistory, `lastKey, `savedAt, `storageReady, `stored, `storedLooks, `table, `batches, `looks
      ensures Consistent() && Touched(old(days), days, DayOf(now)) && DayOf(now) in days
      ensures var due := IsNew(old(lastHistory), s, now) && HistoryReady(s, historyGap);
        read == (due && fault.Works?) && failed == (due && !fault.Works?)
      ensures facts == FactsOf(s, old(lastKey), old(table), now, read) && looks == before + [Look(s, now, true, facts)]
      ensures SameFlags(FlagsAfter(old(days), old(lastKey), old(lastHistory), s, now, read,
                                   Crowded(old(table), s, DayOf(now))), days)
      ensures lastHistory == if read then Some(ReadAt(s, now)) else old(lastHistory)
      ensures if read && !Crowded(old(table), s, DayOf(now)) then Anchors(lastKey, Counted(s.calls, DayOf(now)))
              else lastKey == old(lastKey)
      ensures OnlyShown(old(table), table, s.calls, DayOf(now))
      ensures batches == old(batches) +
        if read && !Crowded(old(table), s, DayOf(now)) then [Batch(DayOf(now), s.calls)] else []
      ensures if read then Saved() && savedAt == now && storageReady else unchanged(`stored, `storedLooks, `table)
      ensures failed ==> savedAt == now || savedAt == old(savedAt)
      ensures !failed && !read ==> unchanged(`savedAt, `storageReady)
    {
      hide Touched, LedgerValid, QueueValid, Look, DayOf, Crowded, Gap, SameFlags, Anchors, FlagsAfter, Read, BatchedOf;
      NothingTouched(days, DayOf(now));
      NotDueKeepsFlags(days, lastKey, lastHistory, s, now, Crowded(table, s, DayOf(now)));
      failed, read, facts := false, false, None;
      if IsNew(lastHistory, s, now) && HistoryReady(s, historyGap) {
        failed := ReadHistory(s, now, fault, before);
        read := !failed;
        facts := FactsOf(s, old(lastKey), old(table), now, read);
        ReadFlags(old(days), old(lastKey), old(lastHistory), old(table), old(batches), s, now, days, lastKey, batches,
                  failed);
        TodayIsKept(old(days), days, DayOf(now));
      }
    }

    /** Saves at least every minute, whenever a flag of today changed, and on today's first long wait. */
    method Persist(now: Stamp, fault: Fault, flags: (bool, bool, bool)) returns (failed: bool)
      requires Consistent() && clock == now && lastQueue == Some(now) && DayOf(now) in days
      modifies `days, `savedAt, `storageReady, `stored, `storedLooks, `breachDay
      ensures Consistent() && Touched(old(days), days, DayOf(now))
      ensures failed ==> unchanged(`stored, `storedLooks)
      ensures var d := old(days)[DayOf(now)]; var due := Due(d, flags, now, old(savedAt), old(breachDay));
        && failed == (due && !fault.Works?)
        && (due && !failed ==> Saved() && savedAt == now && storageReady)
        && (!due ==> unchanged(`days, `savedAt, `storageReady, `stored, `storedLooks))
        && (savedAt == now || savedAt == old(savedAt))
        && (days == old(days) || days == Pruned(old(days), now))
        && breachDay == if due && !failed && WAIT_TARGET < d.maxWait then Some(DayOf(now)) else old(breachDay)
    {
      failed := false;
      var d := days[DayOf(now)];
      PruningTouches(days, now);
      SameCountsKeepLedger(days, Pruned(days, now), table, batches, DayOf(now), DayOf(now));
      TouchedKeepsVerdicts(days, Pruned(days, now), lastQueue, looks, queueGap, now);
      if Due(d, flags, now, savedAt, breachDay) {
        var ok := Save(now, fault);
        failed := !ok;
        if ok && WAIT_TARGET < d.maxWait {
          breachDay := Some(DayOf(now));
        }
      } else {
        NothingTouched(days, DayOf(now));
      }
    }

    /** The age of the history decides how far back its claims are in doubt. */
    method Cover(s: Snapshot, now: Stamp)
      modifies `days
      ensures days == AfterCoverage(old(days), lastHistory, s, now, historyGap)
    {
      var late := lastHistory.Some? && !(0 <= ReadAt(s, now) - lastHistory.value <= historyGap);
      if !HistoryReady(s, historyGap) || late {
        Invalidate(lastHistory, now, HISTORY);
      }
      if !s.voicemailReady {
        days := LowerToday(days, now, VOICEMAIL);
      }
    }

    /** The first half of an observation: the queues, and the age of the history. */
    method Watch(s: Snapshot, now: Stamp)
      requires Consistent() && clock <= now
      modifies `days, `lastQueue, `looks, `clock
      ensures Consistent() && clock == now && lastQueue == Some(now) && DayOf(now) in days
      ensures looks == old(looks) + [Look(s, now, true, None)]
      ensures days == AfterCoverage(AfterQueues(WithDay(old(days), DayOf(now), now), old(lastQueue), s, now, queueGap),
                                    lastHistory, s, now, historyGap)
    {
      hide AfterQueues, AfterCoverage, LedgerValid, QueueValid, WithDay, Look, DayOf;
      TodayStays(days, lastQueue, s, now, queueGap, lastHistory, historyGap);
      WatchKeeps(days, lastQueue, looks, s, now, queueGap, clock, table, batches, lastHistory, historyGap);
      StoredStays(clock, now);
      days := WithDay(days, DayOf(now), now);
      ObserveQueues(s, now);
      Cover(s, now);
      looks := looks + [Look(s, now, true, None)];
      clock := now;
    }

    lemma StoredStays(clock: Stamp, now: Stamp)
      requires StoredValid() && clock == this.clock <= now
      ensures QueueValid(stored.days, stored.lastQueue, storedLooks, queueGap, now)
      ensures LedgerValid(stored.days, table, batches, DayOf(now))
    {
      LaterClockKeepsVerdicts(stored.days, stored.lastQueue, storedLooks, queueGap, clock, now);
      assert DayOf(clock) <= DayOf(now);
      assert SameCounts(stored.days, stored.days, DayOf(now));
      SameCountsKeepLedger(stored.days, stored.days, table, batches, DayOf(clock), DayOf(now));
    }

    /** A failure is published as such, and costs today its claims. */
    method Fail(s: Snapshot, now: Stamp, ghost before: seq<Seen>, ghost read: Option<Batched>)
      requires Consistent() && clock == now && lastQueue == Some(now) && looks == before + [Look(s, now, true, read)]
      requires DayOf(now) in days
      modifies `storageReady, `days, `looks
      ensures Consistent() && !storageReady && looks == before + [Look(s, now, false, read)]
      ensures days == LowerToday(old(days), now, ALL)
    {
      hide LedgerValid, QueueValid, SameCounts, NamesOf, LongestOf, AllEmpty;
      storageReady := false;
      var today := DayOf(now);
      LoweringKeepsCounts(days, now);
      FailureKeepsVerdicts(days, before, Look(s, now, true, read), queueGap);
      SameCountsKeepLedger(days, LowerToday(days, now, ALL), table, batches, today, today);
      days := days[today := Lower(days[today], ALL)];
      looks := before + [Look(s, now, false, read)];
    }

    function Found(before: Days, last: Option<Stamp>, history: Option<Stamp>, key: Option<Key>, known: map<Key, nat>,
                   s: Snapshot, now: Stamp, read: bool, stored: bool): Days
    {
      FlagsFound(before, last, history, key, known, s, now, queueGap, historyGap, read, stored)
    }

    /** The last part of an observation: what is known is saved if that is due, or a failure is owned up to. */
    method Conclude(s: Snapshot, now: Stamp, fault: Fault, failed: bool, flags: (bool, bool, bool),
                    ghost before: seq<Seen>, ghost facts: Option<Batched>)
      returns (ghost ok: bool, ghost saved: bool, ghost kept: Days)
      requires Consistent() && clock == now && lastQueue == Some(now) && looks == before + [Look(s, now, true, facts)]
      requires DayOf(now) in days
      modifies `days, `savedAt, `storageReady, `stored, `storedLooks, `breachDay, `looks
      ensures Consistent() && looks == before + [Look(s, now, ok, facts)]
      ensures DayOf(now) in kept && Touched(old(days), kept, DayOf(now))
      ensures (kept == old(days) || kept == Pruned(old(days), now))
      ensures days == if ok then kept else LowerToday(kept, now, ALL)
      ensures failed ==> !ok && unchanged(`savedAt)
      ensures ok <==> !failed && (Due(old(days)[DayOf(now)], flags, now, old(savedAt), old(breachDay)) ==> fault.Works?)
      ensures saved <==> ok && Due(old(days)[DayOf(now)], flags, now, old(savedAt), old(breachDay))
      ensures if saved then Saved() && savedAt == now && storageReady else unchanged(`stored, `storedLooks)
      ensures !saved ==> unchanged(`breachDay) && (savedAt == now || savedAt == old(savedAt))
      ensures ok && !saved ==> unchanged(`days, `savedAt, `storageReady)
      ensures !ok ==> !storageReady
      ensures breachDay == old(breachDay) || (breachDay == Some(DayOf(now)) && WAIT_TARGET < days[DayOf(now)].maxWait)
      ensures breachDay == if ok && WAIT_TARGET < days[DayOf(now)].maxWait then Some(DayOf(now)) else old(breachDay)
    {
      NewBreachIsDue(days[DayOf(now)], flags, now, savedAt, breachDay);
      hide QueueValid, LedgerValid, Touched, Look, Due, DayOf;
      var failing := failed;
      NothingTouched(days, DayOf(now));
      if !failing {
        failing := Persist(now, fault, flags);
      }
      kept := days;
      TodayIsKept(old(days), kept, DayOf(now));
      ok := !failing;
      saved := ok && Due(old(days)[DayOf(now)], flags, now, old(savedAt), old(breachDay));
      if failing {
        Fail(s, now, before, facts);
      }
    }

    /** The first two parts of an observation: the queues, and the history when it is new and ready. */
    method Survey(s: Snapshot, now: Stamp, fault: Fault)
      returns (failed: bool, ghost read: bool, ghost facts: Option<Batched>, ghost watched: Days)
      requires Consistent() && clock <= now
      modifies `days, `lastQueue, `lastHistory, `lastKey, `savedAt, `storageReady, `stored, `table, `batches, `looks,
        `storedLooks, `clock
      ensures Consistent() && clock == now && lastQueue == Some(now) && DayOf(now) in days
      ensures watched == Watched(old(days), old(lastQueue), old(lastHistory), s, now, queueGap, historyGap)
      ensures Touched(watched, days, DayOf(now))
      ensures var due := IsNew(old(lastHistory), s, now) && HistoryReady(s, historyGap);
        read == (due && fault.Works?) && failed == (due && !fault.Works?)
      ensures facts == FactsOf(s, old(lastKey), old(table), now, read)
      ensures looks == old(looks) + [Look(s, now, true, facts)]
      ensures SameFlags(FlagsAfter(watched, old(lastKey), old(lastHistory), s, now, read,
                                   Crowded(old(table), s, DayOf(now))), days)
      ensures lastHistory == if read then Some(ReadAt(s, now)) else old(lastHistory)
      ensures if read && !Crowded(old(table), s, DayOf(now)) then Anchors(lastKey, Counted(s.calls, DayOf(now)))
              else lastKey == old(lastKey)
      ensures OnlyShown(old(table), table, s.calls, DayOf(now))
      ensures batches == old(batches) +
        if read && !Crowded(old(table), s, DayOf(now)) then [Batch(DayOf(now), s.calls)] else []
      ensures if read then Saved() && savedAt == now && storageReady else unchanged(`stored, `storedLooks, `table)
      ensures failed ==> savedAt == now || savedAt == old(savedAt)
      ensures !failed && !read ==> unchanged(`savedAt, `storageReady)
    {
      hide AfterQueues, AfterCoverage, WithDay, QueueValid, LedgerValid, Touched, NeverRises, SameFlags, FlagsAfter,
        Watched, Look, Crowded, Gap, DayOf, Read, BatchedOf, Anchors, OnlyShown, Consistent, Saved;
      WatchedTouches(days, lastQueue, lastHistory, s, now, queueGap, historyGap);
      Watch(s, now);
      watched := days;
      failed, read, facts := ReadIfDue(s, now, fault, old(looks));
    }

    /**
     The observation itself. Flags never rise; the ledger takes the batch if the read is due, succeeds
     and fits; exactly the flags are lowered that the observation puts in doubt; and memory is
     saved, or no flag of today changed, no long wait is new, and the last save is less than a
     minute old.
     */
    method Take(s: Snapshot, now: Stamp, historyFault: Fault, saveFault: Fault)
      returns (published: Published, ghost read: bool, ghost ok: bool, ghost saved: bool)
      requires Consistent() && clock <= now
      modifies `days, `lastQueue, `lastHistory, `lastKey, `savedAt, `breachDay, `storageReady, `stored, `table,
        `batches, `looks, `storedLooks, `clock
      ensures Consistent() && clock == now && lastQueue == Some(now) && DayOf(now) in days
      ensures NeverRises(old(days), days, now) && OnlyRecent(old(days), days, DayOf(now))
      ensures published == Published(storageReady, lastHistory, days)
      ensures read <==> IsNew(old(lastHistory), s, now) && HistoryReady(s, historyGap) && historyFault.Works?
      ensures historyFault.Works? && saveFault.Works? ==> ok
      ensures !ok ==> !storageReady && !saved
      ensures saved ==> read || saveFault.Works?
      ensures OnlyShown(old(table), table, s.calls, DayOf(now)) && (!read ==> unchanged(`table))
      ensures if read && !Crowded(old(table), s, DayOf(now)) then Anchors(lastKey, Counted(s.calls, DayOf(now)))
              else lastKey == old(lastKey)
      ensures var facts := FactsOf(s, old(lastKey), old(table), now, read);
        && looks == old(looks) + [Look(s, now, ok, facts)]
        && (!ok && read ==> storedLooks == old(looks) + [Look(s, now, true, facts)])
      ensures lastHistory == if read then Some(ReadAt(s, now)) else old(lastHistory)
      ensures batches == old(batches) +
        if read && !Crowded(old(table), s, DayOf(now)) then [Batch(DayOf(now), s.calls)] else []
      ensures SameFlags(
        Found(old(days), old(lastQueue), old(lastHistory), old(lastKey), old(table), s, now, read, ok), days)
      ensures !ok && read ==>
        SameFlags(Found(old(days), old(lastQueue), old(lastHistory), old(lastKey), old(table), s, now, read, true),
                  stored.days)
      ensures !ok && read ==>
        OnlyRecent(old(days), stored.days, DayOf(now)) && stored.lastHistory == lastHistory && savedAt == now
      ensures saved ==> Saved() && savedAt == now && storageReady
      ensures !saved && !(!ok && read) ==> unchanged(`stored, `storedLooks)
      ensures !ok && !read ==> savedAt == now || savedAt == old(savedAt)
      ensures ok && !saved ==> unchanged(`savedAt, `breachDay, `storageReady)
      ensures var flags := FlagsOf(WithDay(old(days), DayOf(now), now)[DayOf(now)]);
        ok ==> (saved <==> read || Due(days[DayOf(now)], flags, now, old(savedAt), old(breachDay)))
      ensures breachDay == old(breachDay) ||
        (saved && breachDay == Some(DayOf(now)) && WAIT_TARGET < days[DayOf(now)].maxWait)
      ensures breachDay == if ok && WAIT_TARGET < days[DayOf(now)].maxWait then Some(DayOf(now)) else old(breachDay)
    {
      hide Consistent, AfterQueues, AfterCoverage, WithDay, QueueValid, LedgerValid, Touched, NeverRises, SameFlags,
        FlagsAfter,
        Watched, OnlyRecent, Look, Crowded, Gap, Due, FinalFlags, Pruned, LowerToday, DayOf, Read, BatchedOf;
      WatchedTouches(days, lastQueue, lastHistory, s, now, queueGap, historyGap);
      var flags := FlagsOf(WithDay(days, DayOf(now), now)[DayOf(now)]);
      ghost var facts, watched;
      var failed;
      failed, read, facts, watched := Survey(s, now, historyFault);
      ghost var expected := FlagsAfter(watched, old(lastKey), old(lastHistory), s, now, read,
                                       Crowded(old(table), s, DayOf(now)));
      ghost var half := days;
      ghost var kept;
      ok, saved, kept := Conclude(s, now, saveFault, failed, flags, old(looks), facts);
      saved := saved || (ok && read);
      ConcludedFlags(old(days), watched, half, kept, expected, now);
      assert SameFlags(FinalFlags(expected, now, ok), days);
      KeptWhole(expected, half, now);
      published := Published(storageReady, lastHistory, days);
    }

    /** The same in the terms of the parts it is made of. */
    method Record(s: Snapshot, now: Stamp, historyFault: Fault, saveFault: Fault) returns (published: Published)
      requires Valid() && clock <= now
      modifies this
      ensures Valid() && clock == now && lastQueue == Some(now) && DayOf(now) in days
      ensures NeverRises(old(days), days, now)
      ensures published == Published(storageReady, lastHistory, days)
      ensures Looked(old(looks), looks, s, now)
      ensures OnlyShown(old(table), table, s.calls, DayOf(now))
      ensures historyFault.Works? && saveFault.Works? ==> looks[|old(looks)|].stored
      ensures !historyFault.Works? && !saveFault.Works? ==> unchanged(`stored, `storedLooks, `table)
      ensures breachDay == if looks[|old(looks)|].stored && WAIT_TARGET < days[DayOf(now)].maxWait then Some(DayOf(now))
                           else old(breachDay)
      ensures var o := looks[|old(looks)|];
        var due := IsNew(old(lastHistory), s, now) && HistoryReady(s, historyGap) && historyFault.Works?;
        var flags := FlagsOf(WithDay(old(days), DayOf(now), now)[DayOf(now)]);
        var written := o.stored && (due || Due(days[DayOf(now)], flags, now, old(savedAt), old(breachDay)));
        && past == After(old(past), o, written, o.stored, due)
        && (written ==> Saved() && savedAt == now && storageReady)
        && (o.stored && !written ==> unchanged(`stored, `storedLooks, `savedAt, `storageReady))
        && (!o.stored ==> !storageReady)
      ensures var due := IsNew(old(lastHistory), s, now) && HistoryReady(s, historyGap) && historyFault.Works?;
        && looks[|old(looks)|].check.read == FactsOf(s, old(lastKey), old(table), now, due)
        && batches == old(batches) +
             (if due && !Crowded(old(table), s, DayOf(now)) then [Batch(DayOf(now), s.calls)] else [])
        && lastHistory == (if due then Some(ReadAt(s, now)) else old(lastHistory))
        && (if due && !Crowded(old(table), s, DayOf(now)) then Anchors(lastKey, Counted(s.calls, DayOf(now)))
            else lastKey == old(lastKey))
        && SameFlags(Found(old(days), old(lastQueue), old(lastHistory), old(lastKey), old(table), s, now, due,
                           looks[|old(looks)|].stored), days)
    {
      hide QueueValid, LedgerValid, FlagsValid, Chronicled, NeverRises, SameFlags, FlagsFound, OnlyRecent, Look,
        Crowded, Due, WithDay, DayOf, FactsOf, TodaySaved, IsNew, HistoryReady, Watched, AfterCoverage, AfterQueues;
      ghost var read, ok, saved;
      published, read, ok, saved := Take(s, now, historyFault, saveFault);
      ghost var facts := FactsOf(s, old(lastKey), old(table), now, read);
      ghost var o := Look(s, now, ok, facts);
      LookIsPlain(s, now, ok, facts);
      FlagsObserved(old(days), old(lastQueue), old(looks), old(lastHistory), old(lastKey), old(table), s, now,
                    queueGap, historyGap,
                    old(clock), read, ok, days);
      if read && !ok {
        FlagsObserved(old(days), old(lastQueue), old(looks), old(lastHistory), old(lastKey), old(table), s, now,
                      queueGap, historyGap,
                      old(clock), read, true, stored.days);
      }
      past := After(past, o, saved, ok, read);
      SavedWait(days, lastQueue, looks, queueGap, now, DayOf(now));
      if ok && !saved {
        WatchedTouches(old(days), old(lastQueue), old(lastHistory), s, now, queueGap, historyGap);
        NotDueIsUnremarkable(old(past), old(days), old(lastQueue), old(looks), storedLooks, days, o, queueGap,
                             old(clock), savedAt, breachDay);
        SameFlagsWhenMinor(days[DayOf(now)], FlagsOf(WithDay(old(days), DayOf(now), now)[DayOf(now)]), now, savedAt,
                           breachDay);
        if !old(past).torn {
          TodayStaysSaved(stored.days, stored.lastQueue, storedLooks, old(days), old(lastQueue), old(looks), days, o,
                          queueGap, old(clock));
        }
      }
      SavedToday(days, DayOf(now));
      ChronicleKept(old(past), old(looks), old(storedLooks), queueGap, old(clock), old(savedAt), old(breachDay), o,
                    Look(s, now, true, facts), saved, ok, read, savedAt, breachDay);
    }

    /**
     One observation. Whatever the run so far, what memory and database claim afterwards is true of the
     looks they rest on, this one included; flags never rise, and exactly those are lowered that the
     observation puts in doubt; the ledger takes the batch if the read is due, succeeds and fits; memory
     is saved, or nothing worth saving happened; a failed write is published, and leaves a tear until the next save.
     */
    method Observe(s: Snapshot, now: Stamp, historyFault: Fault, saveFault: Fault) returns (published: Published)
      requires Valid() && clock <= now
      modifies this
      ensures Valid() && clock == now && lastQueue == Some(now) && DayOf(now) in days
      ensures NeverRises(old(days), days, now)
      ensures published == Published(storageReady, lastHistory, days)
      ensures Looked(old(looks), looks, s, now)
      ensures Sees(looks[|old(looks)|], s, now)
      ensures var o := looks[|old(looks)|]; var read := ReadDue(old(lastHistory), s, now, historyGap) &&
        historyFault.Works?;
        && (o.check.read.Some? <==> read)
        && (read ==> BatchShows(o.check.read.value, s, old(lastKey), old(table), now))
        && lastHistory == (if read then Some(now - if s.age.Some? then s.age.value else 0) else old(lastHistory))
        && batches == old(batches) +
             (if read && !o.check.read.value.crowded then [Batch(now / 86_400_000_000, s.calls)] else [])
        && (o.stored ==>
              if SaveDue(read, old(days), days[now / 86_400_000_000], now, old(savedAt), old(breachDay))
              then Saved() && savedAt == now && storageReady && !past.torn
              else unchanged(`stored, `storedLooks, `savedAt, `storageReady) && past.torn == old(past).torn)
      ensures breachDay == if looks[|old(looks)|].stored && 60 < days[now / 86_400_000_000].maxWait
                           then Some(now / 86_400_000_000) else old(breachDay)
      ensures var o := looks[|old(looks)|];
        if o.check.read.Some? && !o.check.read.value.crowded then LatestShown(s.calls, lastKey, now)
        else lastKey == old(lastKey)
      ensures OnlyShown(old(table), table, s.calls, DayOf(now))
      ensures historyFault.Works? && saveFault.Works? ==> looks[|old(looks)|].stored
      ensures !historyFault.Works? && !saveFault.Works? ==> unchanged(`stored, `storedLooks, `table)
      ensures var o := looks[|old(looks)|];
        var due := IsNew(old(lastHistory), s, now) && HistoryReady(s, historyGap) && historyFault.Works?;
        var flags := FlagsOf(WithDay(old(days), DayOf(now), now)[DayOf(now)]);
        var written := o.stored && (due || Due(days[DayOf(now)], flags, now, old(savedAt), old(breachDay)));
        && past == After(old(past), o, written, o.stored, due)
        && (written ==> Saved() && savedAt == now && storageReady)
        && (o.stored && !written ==> unchanged(`stored, `storedLooks, `savedAt, `storageReady))
        && (!o.stored ==> !storageReady)
      ensures var due := IsNew(old(lastHistory), s, now) && HistoryReady(s, historyGap) && historyFault.Works?;
        && looks[|old(looks)|].check.read == FactsOf(s, old(lastKey), old(table), now, due)
        && batches == old(batches) +
             (if due && !Crowded(old(table), s, DayOf(now)) then [Batch(DayOf(now), s.calls)] else [])
        && lastHistory == (if due then Some(ReadAt(s, now)) else old(lastHistory))
        && (if due && !Crowded(old(table), s, DayOf(now)) then Anchors(lastKey, Counted(s.calls, DayOf(now)))
            else lastKey == old(lastKey))
        && SameFlags(Found(old(days), old(lastQueue), old(lastHistory), old(lastKey), old(table), s, now, due,
                           looks[|old(looks)|].stored), days)
    {
      AnchorIsLatest(s.calls, now);
      CrowdedIsRead(s, lastKey, table, now);
      BatchIsShown(s, lastKey, table, now);
      ReadsWhenDue(lastHistory, s, now, historyGap);
      TodayIs(now);
      OpensToday(days, now);
      hide Valid, FlagsFound, NeverRises, SameFlags, Look, Crowded, Due, WithDay, DayOf, IsNew, HistoryReady,
        BatchShows, ReadDue, SaveDue, Sees, Saved, ReadAt, Anchors, OnlyShown, FlagsOf, Gap, Vague,
        LatestShown, BatchedOf;
      published := Record(s, now, historyFault, saveFault);
      ghost var o := looks[|old(looks)|];
      LookSees(s, now, o.stored, o.check.read);
      SavesWhenDue(o.check.read.Some?, old(days), days[DayOf(now)], now, old(savedAt), old(breachDay));
    }
  }
}
