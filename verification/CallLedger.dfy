/**
 What the daily ledger should say, given every batch of call records that was processed:
 overlapping windows and repeated reads show the same call again, so a key counts as often
 as it appeared in the batch that showed it most often.
 */
module CallLedger {
  const SECOND := 1_000_000
  const DAY := 86_400 * SECOND

  /** Local time in microseconds; days are numbered from the same origin. */
  type Stamp = int

  function DayOf(t: Stamp): int { t / DAY }

  lemma DaysInOrder(t: Stamp, u: Stamp)
    requires t <= u
    ensures DayOf(t) <= DayOf(u)
  {
  }

  /** The disposition of a call record; it is part of the key. */
  datatype Outcome = Missed | Answered | Other

  /** The digest of a call record, taken to be injective; `rest` stands for its remaining fields. */
  datatype Key = Key(startedAt: Stamp, outcome: Outcome, rest: nat)

  /** `ivr`: an answered call that reached only an automated menu. It depends on more than the key. */
  datatype Call = Undated | Dated(key: Key, ivr: bool)

  datatype Batch = Batch(today: int, calls: seq<Call>)

  datatype Bucket = Bucket(day: int, outcome: Outcome)

  function BucketOf(k: Key): Bucket { Bucket(DayOf(k.startedAt), k.outcome) }

  /** The last three days are inside the window; other dispositions are never counted. */
  predicate Counts(c: Call, today: int) {
    c.Dated? && today - 2 <= DayOf(c.key.startedAt) <= today && c.key.outcome != Other
  }

  function Counted(calls: seq<Call>, today: int): multiset<Key> {
    if calls == [] then multiset{}
    else
      var before := Counted(calls[..|calls| - 1], today);
      var c := calls[|calls| - 1];
      if Counts(c, today) then before + multiset{c.key} else before
  }

  /** The counted keys of one day and disposition. */
  function On(calls: seq<Call>, today: int, b: Bucket): multiset<Key> {
    if calls == [] then multiset{}
    else
      var before := On(calls[..|calls| - 1], today, b);
      var c := calls[|calls| - 1];
      if Counts(c, today) && BucketOf(c.key) == b then before + multiset{c.key} else before
  }

  lemma {:induction false} OnIsCounted(calls: seq<Call>, today: int, b: Bucket, k: Key)
    ensures On(calls, today, b)[k] == if BucketOf(k) == b then Counted(calls, today)[k] else 0
    ensures Counted(calls, today)[k] > 0 ==> Counts(Dated(k, false), today)
  {
    if calls != [] {
      OnIsCounted(calls[..|calls| - 1], today, b, k);
    }
  }

  /** The multiset in which every key has the greater of its two multiplicities. */
  function Merge(a: multiset<Key>, b: multiset<Key>): (m: multiset<Key>)
    ensures forall k :: m[k] == if a[k] < b[k] then b[k] else a[k]
  {
    a + (b - a)
  }

  /** The last record of the key says that the call reached a menu only. */
  function MenuOnly(calls: seq<Call>, k: Key): bool {
    if calls == [] then false
    else
      var c := calls[|calls| - 1];
      if c.Dated? && c.key == k then c.ivr else MenuOnly(calls[..|calls| - 1], k)
  }

  /** The counted keys of one day that somebody answered, by what `all` records say. */
  function Talks(calls: seq<Call>, all: seq<Call>, today: int, d: int): multiset<Key> {
    if calls == [] then multiset{}
    else
      var before := Talks(calls[..|calls| - 1], all, today, d);
      var c := calls[|calls| - 1];
      if Counts(c, today) && BucketOf(c.key) == Bucket(d, Answered) && !MenuOnly(all, c.key)
      then before + multiset{c.key} else before
  }

  lemma {:induction false} TalksAreOn(calls: seq<Call>, all: seq<Call>, today: int, d: int, k: Key)
    ensures Talks(calls, all, today, d)[k] == if MenuOnly(all, k) then 0 else On(calls, today, Bucket(d, Answered))[k]
  {
    if calls != [] {
      TalksAreOn(calls[..|calls| - 1], all, today, d, k);
    }
  }

  function Ledger(batches: seq<Batch>, b: Bucket): multiset<Key> {
    if batches == [] then multiset{}
    else
      var last := batches[|batches| - 1];
      Merge(Ledger(batches[..|batches| - 1], b), On(last.calls, last.today, b))
  }

  /**
   The answered calls of a day: what each batch showed beyond the ledger so far, of keys that it says
   somebody answered.
   */
  function Reached(batches: seq<Batch>, d: int): nat {
    if batches == [] then 0
    else
      var before, last := batches[..|batches| - 1], batches[|batches| - 1];
      Reached(before, d) + |Talks(last.calls, last.calls, last.today, d) - Ledger(before, Bucket(d, Answered))|
  }

  /** Every record tells of a menu, or none does. */
  predicate Says(calls: seq<Call>, menus: bool) { forall c :: c in calls && c.Dated? ==> c.ivr == menus }

  /** If no record tells of a menu, the answered calls are those of the ledger; if all do, there are none. */
  lemma {:induction false} ReachedWithoutMenus(batches: seq<Batch>, d: int, menus: bool)
    requires forall batch :: batch in batches ==> Says(batch.calls, menus)
    ensures Reached(batches, d) == if menus then 0 else |Ledger(batches, Bucket(d, Answered))|
  {
    if batches != [] {
      var n := |batches| - 1;
      var before, last, b := batches[..n], batches[n], Bucket(d, Answered);
      assert last in batches && forall batch :: batch in before ==> batch in batches;
      ReachedWithoutMenus(before, d, menus);
      forall k: Key ensures Talks(last.calls, last.calls, last.today, d)[k] ==
        if menus then 0 else On(last.calls, last.today, b)[k]
      {
        TalksAreOn(last.calls, last.calls, last.today, d, k);
        MenusAreAll(last.calls, last.today, b, k, menus);
      }
      hide Talks, On;
      assert Talks(last.calls, last.calls, last.today, d) ==
        if menus then multiset{} else On(last.calls, last.today, b);
    }
  }

  lemma {:induction false} MenusAreAll(calls: seq<Call>, today: int, b: Bucket, k: Key, menus: bool)
    requires Says(calls, menus)
    ensures On(calls, today, b)[k] > 0 ==> MenuOnly(calls, k) == menus
    ensures MenuOnly(calls, k) ==> menus
  {
    if calls != [] {
      assert calls[|calls| - 1] in calls;
      MenusAreAll(calls[..|calls| - 1], today, b, k, menus);
    }
  }

  /** How many records of batch `i` carry `k`, if it is of the bucket, and that day no more than two days ago. */
  function Shown(batches: seq<Batch>, i: nat, b: Bucket, k: Key): nat
    requires i < |batches|
  {
    var calls, today := batches[i].calls, batches[i].today;
    if today - 2 <= b.day <= today && k.startedAt / 86_400_000_000 == b.day &&
       k.outcome == b.outcome && k.outcome in {Missed, Answered}
    then multiset(calls)[Dated(k, false)] + multiset(calls)[Dated(k, true)]
    else 0
  }

  lemma ShownIsOn(batches: seq<Batch>, i: nat, b: Bucket, k: Key)
    requires i < |batches|
    ensures Shown(batches, i, b, k) == On(batches[i].calls, batches[i].today, b)[k]
  {
    OnCountsOccurrences(batches[i].calls, batches[i].today, b, k);
    OccurrencesAreCounted(batches[i].calls, k);
  }

  lemma {:induction false} LedgerHoldsShown(batches: seq<Batch>, i: nat, b: Bucket, k: Key)
    requires i < |batches|
    ensures Shown(batches, i, b, k) <= Ledger(batches, b)[k]
  {
    ShownIsOn(batches, i, b, k);
    hide Shown, On;
    if i < |batches| - 1 {
      assert batches[..|batches| - 1][i] == batches[i];
      ShownIsOn(batches[..|batches| - 1], i, b, k);
      LedgerHoldsShown(batches[..|batches| - 1], i, b, k);
    }
  }

  lemma {:induction false} LedgerIsShown(batches: seq<Batch>, b: Bucket, k: Key) returns (i: nat)
    requires Ledger(batches, b)[k] > 0
    ensures i < |batches| && Shown(batches, i, b, k) == Ledger(batches, b)[k]
  {
    i := |batches| - 1;
    ShownIsOn(batches, i, b, k);
    hide Shown, On;
    if Shown(batches, i, b, k) != Ledger(batches, b)[k] {
      i := LedgerIsShown(batches[..|batches| - 1], b, k);
      ShownIsOn(batches[..|batches| - 1], i, b, k);
      ShownIsOn(batches, i, b, k);
    }
  }

  /** Every key of the bucket has its greatest multiplicity in any one batch, whatever the order of the batches. */
  lemma LedgerHoldsGreatest(batches: seq<Batch>, b: Bucket, k: Key)
    ensures forall i: nat :: i < |batches| ==> Shown(batches, i, b, k) <= Ledger(batches, b)[k]
    ensures Ledger(batches, b)[k] > 0 ==>
      exists i: nat :: i < |batches| && Shown(batches, i, b, k) == Ledger(batches, b)[k]
  {
    forall i: nat | i < |batches| ensures Shown(batches, i, b, k) <= Ledger(batches, b)[k] {
      LedgerHoldsShown(batches, i, b, k);
    }
    if Ledger(batches, b)[k] > 0 {
      var i := LedgerIsShown(batches, b, k);
    }
  }

  /** Reading the same records again, in any order and at any later moment, adds nothing. */
  lemma RepeatedReadsAddNothing(batches: seq<Batch>, i: nat, calls: seq<Call>, b: Bucket)
    requires i < |batches|
    requires multiset(calls) <= multiset(batches[i].calls)
    requires batches[i].today - 2 <= b.day <= batches[i].today
    ensures forall today: int :: Ledger(batches + [Batch(today, calls)], b) == Ledger(batches, b)
  {
    forall today: int ensures Ledger(batches + [Batch(today, calls)], b) == Ledger(batches, b) {
      forall k: Key ensures On(calls, today, b)[k] <= Ledger(batches, b)[k] {
        hide Ledger;
        RepeatIsShown(batches[i], calls, today, b, k);
        ShownIsOn(batches, i, b, k);
        LedgerHoldsShown(batches, i, b, k);
      }
      NothingToAdd(batches, Batch(today, calls), b);
    }
  }

  lemma RepeatIsShown(batch: Batch, calls: seq<Call>, today: int, b: Bucket, k: Key)
    requires multiset(calls) <= multiset(batch.calls) && batch.today - 2 <= b.day <= batch.today
    ensures On(calls, today, b)[k] <= On(batch.calls, batch.today, b)[k]
  {
    OnCountsOccurrences(calls, today, b, k);
    OnCountsOccurrences(batch.calls, batch.today, b, k);
    OccurrencesAreCounted(calls, k);
    OccurrencesAreCounted(batch.calls, k);
    hide On, Occurrences;
  }

  lemma NothingToAdd(batches: seq<Batch>, batch: Batch, b: Bucket)
    requires forall k: Key :: On(batch.calls, batch.today, b)[k] <= Ledger(batches, b)[k]
    ensures Ledger(batches + [batch], b) == Ledger(batches, b)
  {
    assert (batches + [batch])[..|batches|] == batches;
    hide On;
    assert Ledger(batches + [batch], b) == Ledger(batches, b);
  }

  /** How many records carry the key. */
  function Occurrences(calls: seq<Call>, k: Key): nat {
    if calls == [] then 0
    else
      var c := calls[|calls| - 1];
      Occurrences(calls[..|calls| - 1], k) + if c.Dated? && c.key == k then 1 else 0
  }

  lemma {:induction false} OccurrencesAreCounted(calls: seq<Call>, k: Key)
    ensures Occurrences(calls, k) == multiset(calls)[Dated(k, false)] + multiset(calls)[Dated(k, true)]
  {
    if calls != [] {
      OccurrencesAreCounted(calls[..|calls| - 1], k);
      assert calls == calls[..|calls| - 1] + [calls[|calls| - 1]];
    }
  }

  lemma {:induction false} OnCountsOccurrences(calls: seq<Call>, today: int, b: Bucket, k: Key)
    ensures On(calls, today, b)[k] ==
      if Counts(Dated(k, false), today) && BucketOf(k) == b then Occurrences(calls, k) else 0
  {
    if calls != [] {
      OnCountsOccurrences(calls[..|calls| - 1], today, b, k);
    }
  }
}
