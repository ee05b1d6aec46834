/**
 What restarts do to the history of looks. A tracker that restarts goes on from what was saved, so its
 state rests on the looks that were kept; others are lost to it. This module relates the two: when a
 claim made from the kept looks is true of all the looks there were.
 */
module DailyRestart {
  import opened Options
  import opened CallLedger
  import opened QueueDay
  import opened CallDay

  /** A look as it was, whatever became of it in the database. */
  function Plain(s: Seen): Seen { s.(stored := true) }

  function Plainly(seen: seq<Seen>): (r: seq<Seen>)
    ensures |r| == |seen| && forall i :: 0 <= i < |seen| ==> r[i] == Plain(seen[i])
  {
    seq(|seen|, i requires 0 <= i < |seen| => Plain(seen[i]))
  }

  /** `looks` are the looks at the places `kept`; the others are lost. */
  ghost predicate Lineage(all: seq<Seen>, kept: seq<nat>, looks: seq<Seen>) {
    && |kept| == |looks|
    && (forall j, k :: 0 <= j < k < |kept| ==> kept[j] < kept[k])
    && (forall j :: 0 <= j < |kept| ==> kept[j] < |all| && Plain(all[kept[j]]) == Plain(looks[j]))
  }

  lemma BetweenIf(seen: seq<Seen>, i: int, j: int, k: int, d: int)
    ensures Ordered(seen) && 0 <= i <= j <= k < |seen| && IsOn(seen, i, d) && IsOn(seen, k, d) ==> IsOn(seen, j, d)
  {
    if Ordered(seen) && 0 <= i <= j <= k < |seen| && IsOn(seen, i, d) && IsOn(seen, k, d) {
      Between(seen, i, j, k, d);
    }
  }

  /** The place among the kept looks of the first one at or after place `i` of all of them. */
  lemma KeptFrom(all: seq<Seen>, kept: seq<nat>, looks: seq<Seen>, i: nat) returns (j: nat)
    requires Lineage(all, kept, looks) && kept != [] && kept[|kept| - 1] == |all| - 1 && i < |all|
    ensures j < |kept| && i <= kept[j] && (j > 0 ==> kept[j - 1] < i)
  {
    j := |kept| - 1;
    while j > 0 && i <= kept[j - 1]
      invariant j < |kept| && i <= kept[j]
    {
      j := j - 1;
    }
  }

  /** Kept looks are on the days they were on. */
  lemma KeptIsOn(all: seq<Seen>, kept: seq<nat>, looks: seq<Seen>, j: nat, d: int)
    requires Lineage(all, kept, looks) && j < |kept|
    ensures IsOn(looks, j, d) <==> IsOn(all, kept[j], d)
  {
    assert Plain(all[kept[j]]).stamp == Plain(looks[j]).stamp;
  }

  /** Between two looks of a day every look is of that day. */
  lemma Between(seen: seq<Seen>, i: int, j: int, k: int, d: int)
    requires Ordered(seen) && 0 <= i <= j <= k < |seen| && IsOn(seen, i, d) && IsOn(seen, k, d)
    ensures IsOn(seen, j, d)
  {
    DaysInOrder(seen[i].stamp, seen[j].stamp);
    DaysInOrder(seen[j].stamp, seen[k].stamp);
  }

  lemma SecondsInOrder(t: Stamp, u: Stamp)
    requires t <= u && DayOf(t) == DayOf(u)
    ensures SecondOfDay(t) <= SecondOfDay(u)
  {
    assert t % DAY == t - DayOf(t) * DAY && u % DAY == u - DayOf(u) * DAY;
  }

  /**
   A lost look that takes nothing away from the day: it was ready and within target, it saw the day's
   queues, as the day's last look it saw them empty, and if nothing before it was kept it was in time.
   */
  ghost predicate Harmless(all: seq<Seen>, kept: seq<nat>, looks: seq<Seen>, d: int, gap: int, i: int)
    requires 0 <= i < |all|
  {
    && (IsOn(all, i, d) || IsOn(all, i - 1, d) ==> all[i].ready)
    && (IsOn(all, i, d) ==> all[i].wait <= WAIT_TARGET && all[i].names == Names(looks, d))
    && (IsOn(all, i, d) && !IsOn(all, i + 1, d) ==> all[i].empty && all[i].names != {})
    && ((kept == [] || i < kept[0]) && i + 1 < |all| && (IsOn(all, i, d) || IsOn(all, i + 1, d)) ==>
          all[i + 1].stamp - all[i].stamp <= gap)
  }

  ghost predicate AllHarmless(all: seq<Seen>, kept: seq<nat>, looks: seq<Seen>, d: int, gap: int) {
    forall i :: 0 <= i < |all| && i !in kept ==> Harmless(all, kept, looks, d, gap, i)
  }

  // ---------------------------------------------------------------- from the kept looks to all of them

  ghost predicate Compared(all: seq<Seen>, kept: seq<nat>, looks: seq<Seen>, d: int, gap: int) {
    && Ordered(all) && Ordered(looks) && Lineage(all, kept, looks) && kept != [] && kept[|kept| - 1] == |all| - 1
    && FinishedWithinTarget(looks, d, gap)
  }

  lemma PlainIsOn(all: seq<Seen>, i: int, d: int)
    ensures IsOn(Plainly(all), i, d) <==> IsOn(all, i, d)
  {
  }

  /** Some kept look is on the day. */
  lemma KeptOnDay(all: seq<Seen>, kept: seq<nat>, looks: seq<Seen>, d: int, gap: int) returns (k: nat)
    requires Compared(all, kept, looks, d, gap)
    ensures k < |kept| && IsOn(looks, k, d) && IsOn(all, kept[k], d)
  {
    var j :| IsOn(looks, j, d);
    k := j;
    KeptIsOn(all, kept, looks, k, d);
  }

  /** A look of the day saw the day's queues, was ready and within target. */
  lemma DayLookIsGood(all: seq<Seen>, kept: seq<nat>, looks: seq<Seen>, d: int, gap: int, i: int)
    requires Compared(all, kept, looks, d, gap) && AllHarmless(all, kept, looks, d, gap) && IsOn(all, i, d)
    ensures all[i].ready && all[i].wait <= WAIT_TARGET && all[i].names == Names(looks, d)
  {
    if i in kept {
      var j :| 0 <= j < |kept| && kept[j] == i;
      KeptIsOn(all, kept, looks, j, d);
      assert Plain(all[i]) == Plain(looks[j]) && Good(looks[j], !IsOn(looks, j - 1, d));
      NamesAreConstant(looks, d, gap, j);
    } else {
      assert Harmless(all, kept, looks, d, gap, i);
    }
  }

  lemma SameMoment(all: seq<Seen>, kept: seq<nat>, looks: seq<Seen>, k: nat)
    requires Lineage(all, kept, looks) && k < |kept|
    ensures kept[k] < |all| && all[kept[k]].stamp == looks[k].stamp
  {
    assert Plain(all[kept[k]]).stamp == Plain(looks[k]).stamp;
  }

  /** The day's first look came before the first kept one, so in the first minute too. */
  lemma OpeningIsEarly(all: seq<Seen>, kept: seq<nat>, looks: seq<Seen>, d: int, gap: int, i: int)
    requires Compared(all, kept, looks, d, gap) && IsOn(all, i, d) && !IsOn(all, i - 1, d)
    ensures SecondOfDay(all[i].stamp) <= GRACE
  {
    var k := KeptOnDay(all, kept, looks, d, gap);
    while IsOn(looks, k - 1, d)
      invariant 0 <= k < |kept| && IsOn(looks, k, d)
      decreases k
    {
      k := k - 1;
    }
    KeptIsOn(all, kept, looks, k, d);
    assert Good(looks[k], true);
    SameMoment(all, kept, looks, k);
    BetweenIf(all, kept[k], i - 1, i, d);
    SecondsInOrder(all[i].stamp, all[kept[k]].stamp);
  }

  /** Whatever lies between two kept looks lies within their gap, if it touches the day. */
  lemma GapIsBounded(all: seq<Seen>, kept: seq<nat>, looks: seq<Seen>, d: int, gap: int, i: int)
    requires Compared(all, kept, looks, d, gap) && Touches(all, i, d) && kept[0] < i
    ensures all[i].stamp - all[i - 1].stamp <= gap
  {
    var j := KeptFrom(all, kept, looks, i);
    assert j > 0;
    TouchesKept(all, kept, looks, d, gap, i, j);
    assert Linked(looks, j, d, gap);
    assert Plain(all[kept[j]]).stamp == Plain(looks[j]).stamp &&
      Plain(all[kept[j - 1]]).stamp == Plain(looks[j - 1]).stamp;
    assert all[kept[j - 1]].stamp <= all[i - 1].stamp <= all[i].stamp <= all[kept[j]].stamp;
  }

  lemma TouchesKept(all: seq<Seen>, kept: seq<nat>, looks: seq<Seen>, d: int, gap: int, i: int, j: nat)
    requires Compared(all, kept, looks, d, gap) && Touches(all, i, d)
    requires 0 < j < |kept| && kept[j - 1] < i <= kept[j]
    ensures Touches(looks, j, d)
  {
    var k := KeptOnDay(all, kept, looks, d, gap);
    var m := if IsOn(all, i, d) then i else i - 1;
    KeptIsOn(all, kept, looks, j, d);
    KeptIsOn(all, kept, looks, j - 1, d);
    if j <= k {
      assert kept[j] <= kept[k];
      Between(all, m, kept[j], kept[k], d);
    } else {
      assert kept[k] <= kept[j - 1];
      Between(all, kept[k], kept[j - 1], m, d);
    }
  }

  /** The look that closes the day was ready. */
  lemma ClosingIsReady(all: seq<Seen>, kept: seq<nat>, looks: seq<Seen>, d: int, gap: int, i: int)
    requires Compared(all, kept, looks, d, gap) && AllHarmless(all, kept, looks, d, gap)
    requires 0 < i < |all| && IsOn(all, i - 1, d) && !IsOn(all, i, d)
    ensures all[i].ready
  {
    if i in kept {
      var j :| 0 <= j < |kept| && kept[j] == i;
      var k := KeptOnDay(all, kept, looks, d, gap);
      if i < kept[k] { Between(all, i - 1, i, kept[k], d); }
      assert k < j && kept[j - 1] < i;
      TouchesKept(all, kept, looks, d, gap, i, j);
      assert Linked(looks, j, d, gap) && Plain(all[i]) == Plain(looks[j]);
    } else {
      assert Harmless(all, kept, looks, d, gap, i);
    }
  }

  /** The day's last look saw every queue empty. */
  lemma LastIsEmpty(all: seq<Seen>, kept: seq<nat>, looks: seq<Seen>, d: int, gap: int, i: int)
    requires Compared(all, kept, looks, d, gap) && AllHarmless(all, kept, looks, d, gap)
    requires IsOn(all, i, d) && !IsOn(all, i + 1, d)
    ensures all[i].empty && all[i].names != {}
  {
    if i in kept {
      var j :| 0 <= j < |kept| && kept[j] == i;
      KeptIsOn(all, kept, looks, j, d);
      if IsOn(looks, j + 1, d) {
        KeptIsOn(all, kept, looks, j + 1, d);
        Between(all, i, i + 1, kept[j + 1], d);
      }
      assert Plain(all[i]) == Plain(looks[j]);
    } else {
      assert Harmless(all, kept, looks, d, gap, i);
    }
  }

  lemma HarmlessSuffices(all: seq<Seen>, kept: seq<nat>, looks: seq<Seen>, d: int, gap: int)
    requires Compared(all, kept, looks, d, gap) && AllHarmless(all, kept, looks, d, gap)
    ensures FinishedWithinTarget(Plainly(all), d, gap)
  {
    var plain := Plainly(all);
    var k := KeptOnDay(all, kept, looks, d, gap);
    hide FinishedWithinTarget, Names, LongestWait, SecondOfDay, DayOf, Ordered, Lineage, Harmless;
    forall i ensures IsOn(plain, i, d) <==> IsOn(all, i, d) { PlainIsOn(all, i, d); }
    assert IsOn(plain, kept[k], d);
    forall i | IsOn(plain, i, d) ensures Good(plain[i], !IsOn(plain, i - 1, d)) && plain[i].wait <= WAIT_TARGET {
      DayLookIsGood(all, kept, looks, d, gap, i);
      if !IsOn(all, i - 1, d) { OpeningIsEarly(all, kept, looks, d, gap, i); }
    }
    forall i | Touches(plain, i, d) ensures Linked(plain, i, d, gap) {
      assert Touches(all, i, d);
      if IsOn(all, i, d) {
        DayLookIsGood(all, kept, looks, d, gap, i);
      } else {
        ClosingIsReady(all, kept, looks, d, gap, i);
      }
      if IsOn(all, i - 1, d) { DayLookIsGood(all, kept, looks, d, gap, i - 1); }
      if kept[0] < i { GapIsBounded(all, kept, looks, d, gap, i); } else { LeadingGap(all, kept, looks, d, gap, i); }
    }
    forall i | IsOn(plain, i, d) && !IsOn(plain, i + 1, d) ensures plain[i].empty && plain[i].names != {} {
      LastIsEmpty(all, kept, looks, d, gap, i);
    }
    FinishedBy(plain, d, gap);
  }

  lemma FinishedBy(seen: seq<Seen>, d: int, gap: int)
    requires exists i :: IsOn(seen, i, d)
    requires forall i :: IsOn(seen, i, d) ==> Good(seen[i], !IsOn(seen, i - 1, d)) && seen[i].wait <= WAIT_TARGET
    requires forall i :: Touches(seen, i, d) ==> Linked(seen, i, d, gap)
    requires forall i :: IsOn(seen, i, d) && !IsOn(seen, i + 1, d) ==> seen[i].empty && seen[i].names != {}
    ensures FinishedWithinTarget(seen, d, gap)
  {
  }

  lemma LeadingGap(all: seq<Seen>, kept: seq<nat>, looks: seq<Seen>, d: int, gap: int, i: int)
    requires Compared(all, kept, looks, d, gap) && AllHarmless(all, kept, looks, d, gap) && Touches(all, i, d)
    requires i <= kept[0]
    ensures all[i].stamp - all[i - 1].stamp <= gap
  {
    assert Harmless(all, kept, looks, d, gap, i - 1);
  }

  lemma HarmlessNeeded(all: seq<Seen>, kept: seq<nat>, looks: seq<Seen>, d: int, gap: int, i: int)
    requires Compared(all, kept, looks, d, gap) && FinishedWithinTarget(Plainly(all), d, gap) && 0 <= i < |all|
    ensures Harmless(all, kept, looks, d, gap, i)
  {
    var plain := Plainly(all);
    var k := KeptOnDay(all, kept, looks, d, gap);
    assert Ordered(plain);
    forall j ensures IsOn(plain, j, d) <==> IsOn(all, j, d) { PlainIsOn(all, j, d); }
    assert IsOn(plain, kept[k], d) && Plain(all[kept[k]]) == Plain(looks[k]);
    NamesAreConstant(looks, d, gap, k);
    NamesAreConstant(plain, d, gap, kept[k]);
    if IsOn(all, i, d) { NamesAreConstant(plain, d, gap, i); }
    hide Names, DayOf, Ordered, SecondOfDay, Lineage;
    assert Touches(plain, i, d) ==> Linked(plain, i, d, gap);
    assert Touches(plain, i + 1, d) ==> Linked(plain, i + 1, d, gap);
    assert IsOn(plain, i, d) ==> Good(plain[i], !IsOn(plain, i - 1, d));
  }

  /**
   A day claimed from the kept looks was, over all the looks there were, as the claim says exactly
   when no lost look takes anything away from it.
   */
  lemma TrueIffHarmless(all: seq<Seen>, kept: seq<nat>, looks: seq<Seen>, d: int, gap: int)
    requires Compared(all, kept, looks, d, gap)
    ensures FinishedWithinTarget(Plainly(all), d, gap) <==> AllHarmless(all, kept, looks, d, gap)
  {
    hide Harmless, Compared, FinishedWithinTarget;
    if AllHarmless(all, kept, looks, d, gap) {
      HarmlessSuffices(all, kept, looks, d, gap);
    }
    if FinishedWithinTarget(Plainly(all), d, gap) {
      forall i | 0 <= i < |all| && i !in kept ensures Harmless(all, kept, looks, d, gap, i) {
        HarmlessNeeded(all, kept, looks, d, gap, i);
      }
    }
  }

  // ---------------------------------------------------------------- what a restart can lose

  ghost predicate HasLook(seen: seq<Seen>, d: int) { exists i :: IsOn(seen, i, d) }

  /** No kept look of the day came before place `i`. */
  predicate BeforeKept(all: seq<Seen>, kept: seq<nat>, i: int, d: int) {
    forall j :: 0 <= j < |kept| && IsOn(all, kept[j], d) ==> i < kept[j]
  }

  ghost predicate Broken(looks: seq<Seen>, d: int, gap: int) { HasLook(looks, d) && !Continuous(looks, d, gap) }

  /**
   What a look that was not worth saving at once can have been. If it was not ready, or saw other
   queues than the day's, the day's claim was already lost to the kept looks, except that a look
   from before the day's first kept one may have seen other queues; a long wait had been saved.
   */
  ghost predicate Negligible(all: seq<Seen>, kept: seq<nat>, looks: seq<Seen>, gap: int, i: int)
    requires 0 <= i < |all|
  {
    var s, d := all[i], DayOf(all[i].stamp);
    && kept != [] && kept[0] < i
    && (s.ready || (Broken(looks, d, gap) && IsOn(all, i - 1, d)))
    && (s.wait <= WAIT_TARGET || LongestWait(looks, d) > WAIT_TARGET)
    && (s.names == Names(looks, d) || Broken(looks, d, gap) || BeforeKept(all, kept, i, d))
  }

  ghost predicate OnlyNegligible(all: seq<Seen>, kept: seq<nat>, looks: seq<Seen>, gap: int) {
    forall i :: 0 <= i < |all| && i !in kept ==> Negligible(all, kept, looks, gap, i)
  }

  lemma HasLookMeansLast(seen: seq<Seen>, s: Seen, d: int)
    requires Ordered(seen + [s]) && HasLook(seen, d) && DayOf(s.stamp) == d
    ensures LastOn(seen, d)
  {
    if !LastOn(seen, d) { NoneBefore(seen, s, d); }
  }

  lemma BrokenStays(looks: seq<Seen>, s: Seen, d: int, gap: int)
    requires Ordered(looks + [s]) && Broken(looks, d, gap)
    ensures Broken(looks + [s], d, gap)
  {
    OneMore(looks, s, d);
    var i :| IsOn(looks, i, d);
    assert IsOn(looks + [s], i, d);
    if DayOf(s.stamp) == d { HasLookMeansLast(looks, s, d); }
    hide Ordered;
    if Continuous(looks + [s], d, gap) { ContinuousBefore(looks, s, d, gap); }
  }

  /** One more look on a day that stays continuous sees the queues the day had. */
  lemma NamesStay(looks: seq<Seen>, s: Seen, d: int, gap: int)
    requires Ordered(looks) && Ordered(looks + [s]) && HasLook(looks, d)
    ensures Names(looks + [s], d) == Names(looks, d) || Broken(looks + [s], d, gap)
    ensures DayOf(s.stamp) == d && Continuous(looks + [s], d, gap) ==> s.names == Names(looks, d)
  {
    FoldsStep(looks, s, d);
    OneMore(looks, s, d);
    var i :| IsOn(looks, i, d);
    assert IsOn(looks + [s], i, d);
    if DayOf(s.stamp) == d && Continuous(looks + [s], d, gap) {
      NamesAreConstant(looks + [s], d, gap, |looks|);
      NamesAreConstant(looks + [s], d, gap, i);
      ContinuousStep(looks, s, d, gap);
      HasLookMeansLast(looks, s, d);
      NamesAreConstant(looks, d, gap, i);
    }
    hide Continuous, Names, Ordered;
  }

  ghost predicate Extended(all: seq<Seen>, kept: seq<nat>, looks: seq<Seen>, a: Seen, s: Seen) {
    && Lineage(all, kept, looks) && Ordered(looks) && Ordered(looks + [s]) && Plain(a) == Plain(s)
  }

  lemma LineageGrows(all: seq<Seen>, kept: seq<nat>, looks: seq<Seen>, a: Seen, s: Seen)
    requires Lineage(all, kept, looks) && Plain(a) == Plain(s)
    ensures Lineage(all + [a], kept + [|all|], looks + [s]) && Lineage(all + [a], kept, looks)
  {
  }

  /** What was negligible stays so as the kept looks grow. */
  lemma NegligibleStays(all: seq<Seen>, kept: seq<nat>, looks: seq<Seen>, a: Seen, s: Seen, gap: int, i: int)
    requires Extended(all, kept, looks, a, s) && 0 <= i < |all| && Negligible(all, kept, looks, gap, i)
    ensures Negligible(all + [a], kept + [|all|], looks + [s], gap, i)
  {
    var d := DayOf(all[i].stamp);
    OneMore(all, a, d);
    FoldsStep(looks, s, d);
    if Broken(looks, d, gap) { BrokenStays(looks, s, d, gap); }
    if HasLook(looks, d) {
      NamesStay(looks, s, d, gap);
    } else {
      NoKeptLook(all, kept, looks, d);
    }
    BeforeKeptStays(all, kept, a, i, d);
    hide Continuous, Names, LongestWait, Ordered, Lineage, HasLook, BeforeKept;
  }

  lemma NoKeptLook(all: seq<Seen>, kept: seq<nat>, looks: seq<Seen>, d: int)
    requires Lineage(all, kept, looks) && !HasLook(looks, d)
    ensures forall i :: BeforeKept(all, kept, i, d)
  {
    forall j | 0 <= j < |kept| ensures !IsOn(all, kept[j], d) {
      KeptIsOn(all, kept, looks, j, d);
    }
  }

  lemma BeforeKeptStays(all: seq<Seen>, kept: seq<nat>, a: Seen, i: int, d: int)
    requires i < |all| && forall j :: 0 <= j < |kept| ==> kept[j] < |all|
    ensures BeforeKept(all, kept, i, d) ==> BeforeKept(all + [a], kept + [|all|], i, d)
    ensures BeforeKept(all, kept, i, d) ==> BeforeKept(all + [a], kept, i, d)
  {
  }

  lemma OnlyNegligibleStays(all: seq<Seen>, kept: seq<nat>, looks: seq<Seen>, a: Seen, s: Seen, gap: int)
    requires Extended(all, kept, looks, a, s) && OnlyNegligible(all, kept, looks, gap)
    ensures OnlyNegligible(all + [a], kept + [|all|], looks + [s], gap)
  {
    hide Negligible, Extended;
    forall i | 0 <= i < |all + [a]| && i !in kept + [|all|]
      ensures Negligible(all + [a], kept + [|all|], looks + [s], gap, i)
    {
      assert (kept + [|all|])[|kept|] == |all|;
      assert i < |all| && i !in kept;
      NegligibleStays(all, kept, looks, a, s, gap, i);
    }
  }

  // ---------------------------------------------------------------- looks that were not worth saving

  /** The looks since the last save changed no verdict: days it knew are as they were, later ones are continuous. */
  ghost predicate QuietOn(saved: seq<Seen>, looks: seq<Seen>, d: int, gap: int) {
    && (HasLook(saved, d) ==> (Continuous(looks, d, gap) <==> Continuous(saved, d, gap)))
    && (HasLook(looks, d) && !HasLook(saved, d) ==> Continuous(looks, d, gap))
    && (LongestWait(looks, d) <= WAIT_TARGET || LongestWait(saved, d) > WAIT_TARGET)
  }

  ghost predicate Quiet(saved: seq<Seen>, looks: seq<Seen>, gap: int) {
    saved <= looks && forall d :: QuietOn(saved, looks, d, gap)
  }

  /** One more look changes no flag of its day, which was begun in time, and no wait in it is news. */
  ghost predicate Unremarkable(saved: seq<Seen>, looks: seq<Seen>, s: Seen, gap: int) {
    var d := DayOf(s.stamp);
    && (LastOn(looks, d) ==> (Continuous(looks + [s], d, gap) <==> Continuous(looks, d, gap)))
    && (!LastOn(looks, d) ==> Continuous(looks + [s], d, gap))
    && (LongestWait(looks + [s], d) <= WAIT_TARGET || LongestWait(saved, d) > WAIT_TARGET)
  }

  lemma SavedIsQuiet(looks: seq<Seen>, gap: int)
    ensures Quiet(looks, looks, gap)
  {
  }

  lemma PrefixHasLook(saved: seq<Seen>, looks: seq<Seen>, d: int)
    requires saved <= looks && HasLook(saved, d)
    ensures HasLook(looks, d)
  {
    var i :| IsOn(saved, i, d);
    assert IsOn(looks, i, d);
  }

  /** A look on a day begun without it closes the day before in time. */
  lemma OtherDaysStay(looks: seq<Seen>, s: Seen, d: int, gap: int)
    requires Ordered(looks + [s]) && DayOf(s.stamp) != d && Ordered(looks)
    requires !LastOn(looks, DayOf(s.stamp)) ==> Continuous(looks + [s], DayOf(s.stamp), gap)
    ensures Continuous(looks + [s], d, gap) <==> Continuous(looks, d, gap)
    ensures HasLook(looks + [s], d) <==> HasLook(looks, d)
    ensures LongestWait(looks + [s], d) == LongestWait(looks, d)
  {
    OneMore(looks, s, d);
    FoldsStep(looks, s, d);
    ContinuousStep(looks, s, d, gap);
    ContinuousStep(looks, s, DayOf(s.stamp), gap);
    if HasLook(looks, d) {
      var i :| IsOn(looks, i, d);
      assert IsOn(looks + [s], i, d);
    }
    if HasLook(looks + [s], d) {
      var i :| IsOn(looks + [s], i, d);
      assert IsOn(looks, i, d);
    }
    hide Continuous, DayOf, Ordered, SecondOfDay, HasLook;
  }

  lemma QuietGrows(saved: seq<Seen>, looks: seq<Seen>, s: Seen, gap: int)
    requires Quiet(saved, looks, gap) && Unremarkable(saved, looks, s, gap) && Ordered(looks) && Ordered(looks + [s])
    ensures Quiet(saved, looks + [s], gap)
  {
    hide Ordered, Continuous, LongestWait, DayOf;
    forall d ensures QuietOn(saved, looks + [s], d, gap) {
      assert QuietOn(saved, looks, d, gap);
      if DayOf(s.stamp) != d {
        OtherDaysStay(looks, s, d, gap);
      } else {
        if HasLook(saved, d) { PrefixHasLook(saved, looks, d); HasLookMeansLast(looks, s, d); }
        hide HasLook;
        assert LastOn(looks, d) ==> HasLook(looks, d) by { LastIsLook(looks, d); }
      }
    }
  }

  lemma LastIsLook(looks: seq<Seen>, d: int)
    ensures LastOn(looks, d) ==> HasLook(looks, d)
  {
    if LastOn(looks, d) { assert IsOn(looks, |looks| - 1, d); }
  }

  lemma ReadyIfContinuous(looks: seq<Seen>, s: Seen, d: int, gap: int)
    requires DayOf(s.stamp) == d && Continuous(looks + [s], d, gap)
    ensures s.ready
  {
    var more := looks + [s];
    assert IsOn(more, |looks|, d) && more[|looks|] == s;
    assert Good(more[|looks|], !IsOn(more, |looks| - 1, d));
  }

  /**
   On a day of which something was saved, an unremarkable look was ready and saw the queues, or nothing is
   claimed.
   */
  lemma UnremarkableOnSavedDay(saved: seq<Seen>, looks: seq<Seen>, s: Seen, d: int, gap: int)
    requires Quiet(saved, looks, gap) && Unremarkable(saved, looks, s, gap) && Ordered(looks) && Ordered(looks + [s])
    requires HasLook(saved, d) && DayOf(s.stamp) == d
    ensures LastOn(looks, d) && ((s.ready && s.names == Names(saved, d)) || Broken(saved, d, gap))
  {
    PrefixHasLook(saved, looks, d);
    HasLookMeansLast(looks, s, d);
    assert QuietOn(saved, looks, d, gap);
    if Continuous(looks, d, gap) {
      NamesStay(looks, s, d, gap);
      ReadyIfContinuous(looks, s, d, gap);
      SameNames(saved, looks, d, gap);
    }
    hide Continuous, Names, LongestWait, Ordered, HasLook, DayOf, IsOn;
  }

  /** A day of which nothing was saved is continuous so far. */
  lemma UnremarkableOnNewDay(saved: seq<Seen>, looks: seq<Seen>, s: Seen, d: int, gap: int)
    requires Quiet(saved, looks, gap) && Unremarkable(saved, looks, s, gap)
    requires !HasLook(saved, d) && DayOf(s.stamp) == d
    ensures s.ready
  {
    LastIsLook(looks, d);
    assert QuietOn(saved, looks, d, gap);
    assert Continuous(looks + [s], d, gap) by { hide HasLook, Continuous, DayOf; }
    ReadyIfContinuous(looks, s, d, gap);
  }

  /** So if it is lost, it is one that hardly matters. */
  lemma UnremarkableIsNegligible(all: seq<Seen>, kept: seq<nat>, storedKept: seq<nat>, saved: seq<Seen>,
                                 looks: seq<Seen>, a: Seen, s: Seen, gap: int)
    requires Quiet(saved, looks, gap) && Unremarkable(saved, looks, s, gap) && Ordered(looks) && Ordered(looks + [s])
    requires Lineage(all, kept, looks) && Lineage(all, storedKept, saved) && Plain(a) == Plain(s)
    requires saved != [] && kept[|kept| - 1] == |all| - 1
    ensures Negligible(all + [a], storedKept, saved, gap, |all|)
  {
    var d, more := DayOf(s.stamp), all + [a];
    assert storedKept[0] < |all| && more[|all|] == a;
    assert a.stamp == Plain(a).stamp == Plain(s).stamp && a.ready == Plain(a).ready == Plain(s).ready;
    assert a.names == Plain(a).names == Plain(s).names && a.wait == Plain(a).wait == Plain(s).wait;
    OneMore(all, a, d);
    FoldsStep(looks, s, d);
    KeptIsOn(all, kept, looks, |kept| - 1, d);
    if HasLook(saved, d) {
      hide BeforeKept, Names, Quiet;
      UnremarkableOnSavedDay(saved, looks, s, d, gap);
    } else {
      UnremarkableOnNewDay(saved, looks, s, d, gap);
      NoKeptLook(all, storedKept, saved, d);
      BeforeKeptStays(all, storedKept, a, |all| - 1, d);
      assert BeforeKept(more, storedKept, |all|, d);
      hide BeforeKept;
    }
    hide Continuous, Names, LongestWait, Ordered, Lineage, HasLook, DayOf, Quiet, Broken, LastOn;
  }

  lemma SameNames(saved: seq<Seen>, looks: seq<Seen>, d: int, gap: int)
    requires saved <= looks && Ordered(looks) && HasLook(saved, d) && Continuous(saved, d, gap)
    requires Continuous(looks, d, gap)
    ensures Names(saved, d) == Names(looks, d)
  {
    var i :| IsOn(saved, i, d);
    assert IsOn(looks, i, d) && Ordered(saved);
    NamesAreConstant(saved, d, gap, i);
    NamesAreConstant(looks, d, gap, i);
  }

  lemma NegligibleStaysUnsaved(all: seq<Seen>, kept: seq<nat>, looks: seq<Seen>, a: Seen, gap: int)
    requires Lineage(all, kept, looks) && OnlyNegligible(all, kept, looks, gap)
    requires Negligible(all + [a], kept, looks, gap, |all|)
    ensures OnlyNegligible(all + [a], kept, looks, gap)
  {
    forall i | 0 <= i < |all + [a]| && i !in kept ensures Negligible(all + [a], kept, looks, gap, i) {
      if i < |all| {
        var d := DayOf(all[i].stamp);
        assert Negligible(all, kept, looks, gap, i);
        OneMore(all, a, d);
        BeforeKeptStays(all, kept, a, i, d);
        hide BeforeKept, Lineage, Broken, LongestWait, Names, OnlyNegligible;
      }
    }
  }

  // ---------------------------------------------------------------- truth after clean restarts

  /** Looks of the day lost before its first kept one saw the day's queues; its last look, if lost, saw them empty. */
  ghost predicate EdgesAgree(all: seq<Seen>, kept: seq<nat>, looks: seq<Seen>, d: int) {
    forall i :: 0 <= i < |all| && i !in kept && IsOn(all, i, d) ==>
      && (BeforeKept(all, kept, i, d) ==> all[i].names == Names(looks, d))
      && (!IsOn(all, i + 1, d) ==> all[i].empty && all[i].names != {})
  }

  lemma EdgesMakeHarmless(all: seq<Seen>, kept: seq<nat>, looks: seq<Seen>, d: int, gap: int, i: int)
    requires FinishedWithinTarget(looks, d, gap) && EdgesAgree(all, kept, looks, d)
    requires 0 <= i < |all| && i !in kept && Negligible(all, kept, looks, gap, i)
    ensures Harmless(all, kept, looks, d, gap, i)
  {
    WaitsWithin(looks, d);
    hide Names, LongestWait, DayOf, BeforeKept, SecondOfDay;
  }

  lemma HarmlessMakesEdges(all: seq<Seen>, kept: seq<nat>, looks: seq<Seen>, d: int, gap: int)
    requires AllHarmless(all, kept, looks, d, gap)
    ensures EdgesAgree(all, kept, looks, d)
  {
    forall i | 0 <= i < |all| && i !in kept && IsOn(all, i, d)
      ensures BeforeKept(all, kept, i, d) ==> all[i].names == Names(looks, d)
      ensures !IsOn(all, i + 1, d) ==> all[i].empty && all[i].names != {}
    {
      assert Harmless(all, kept, looks, d, gap, i);
      hide Names, DayOf, BeforeKept;
    }
  }

  /**
   If only negligible looks were lost, a day claimed from the kept ones was as claimed exactly when the
   looks lost at its two edges agree: those before the first kept one in the queues, the last in that they were empty.
   */
  lemma TrueIffEdgesAgree(all: seq<Seen>, kept: seq<nat>, looks: seq<Seen>, d: int, gap: int)
    requires Compared(all, kept, looks, d, gap) && OnlyNegligible(all, kept, looks, gap)
    ensures FinishedWithinTarget(Plainly(all), d, gap) <==> EdgesAgree(all, kept, looks, d)
  {
    TrueIffHarmless(all, kept, looks, d, gap);
    if EdgesAgree(all, kept, looks, d) {
      forall i | 0 <= i < |all| && i !in kept ensures Harmless(all, kept, looks, d, gap, i) {
        assert Negligible(all, kept, looks, gap, i);
        hide Negligible, FinishedWithinTarget, EdgesAgree, Harmless;
        EdgesMakeHarmless(all, kept, looks, d, gap, i);
      }
    }
    if AllHarmless(all, kept, looks, d, gap) { HarmlessMakesEdges(all, kept, looks, d, gap); }
    hide FinishedWithinTarget;
  }

  /** A long wait that was forgotten makes the claim false, whatever else was seen. */
  lemma ForgottenWaitMisleads(all: seq<Seen>, kept: seq<nat>, looks: seq<Seen>, d: int, gap: int, i: int)
    requires Compared(all, kept, looks, d, gap) && IsOn(all, i, d) && i !in kept && WAIT_TARGET < all[i].wait
    ensures !FinishedWithinTarget(Plainly(all), d, gap)
  {
    assert !Harmless(all, kept, looks, d, gap, i);
    hide Compared, FinishedWithinTarget;
    TrueIffHarmless(all, kept, looks, d, gap);
  }

  // ---------------------------------------------------------------- coverage of the calls

  /** No look is lost that read a batch: what was read was committed, and the look with it. */
  ghost predicate NoReadLost(all: seq<Seen>, kept: seq<nat>) {
    forall i :: 0 <= i < |all| && i !in kept ==> all[i].check.read.None?
  }

  lemma NotAmong(kept: seq<nat>, i: nat, m: nat)
    requires forall j, k :: 0 <= j < k < |kept| ==> kept[j] < kept[k]
    requires m <= |kept| && (forall j :: 0 <= j < m ==> kept[j] < i) && (m < |kept| ==> i < kept[m])
    ensures i !in kept
  {
    forall j | 0 <= j < |kept| ensures kept[j] != i {
    }
  }

  /** So the kept looks know the last read: here, before place `n`, which `m` of them precede. */
  lemma {:induction false} LastReadIsKept(all: seq<Seen>, kept: seq<nat>, looks: seq<Seen>, n: nat, m: nat)
    requires Lineage(all, kept, looks) && NoReadLost(all, kept) && n <= |all| && m <= |kept|
    requires (forall j :: 0 <= j < m ==> kept[j] < n) && (m < |kept| ==> n <= kept[m])
    ensures LastRead(Plainly(all)[..n]) == LastRead(looks[..m])
    decreases n
  {
    var plain := Plainly(all);
    if n > 0 {
      assert plain[..n][..n - 1] == plain[..n - 1];
      if m > 0 && kept[m - 1] == n - 1 {
        assert looks[..m][..m - 1] == looks[..m - 1] && Plain(all[n - 1]) == Plain(looks[m - 1]);
        LastReadIsKept(all, kept, looks, n - 1, m - 1);
      } else {
        NotAmong(kept, n - 1, m);
        LastReadIsKept(all, kept, looks, n - 1, m);
      }
    }
  }

  /** A kept look with a kept one before it casts no doubt among all looks if it casts none among the kept. */
  lemma FineAmongAll(kind: Kind, all: seq<Seen>, kept: seq<nat>, looks: seq<Seen>, d: int, gap: int, j: nat)
    requires Ordered(all) && Lineage(all, kept, looks) && NoReadLost(all, kept) && j < |kept|
    requires (0 < j || kept[0] == 0) && Fine(kind, looks, j, d, gap)
    ensures Fine(kind, Plainly(all), kept[j], d, gap)
  {
    var plain, i := Plainly(all), kept[j];
    LastReadIsKept(all, kept, looks, i, j);
    assert Plain(all[i]) == Plain(looks[j]) && plain[i] == Plain(looks[j]);
    hide LastRead, SecondOfDay, NoReadLost, Sound, ReadsOn;
    KeptIsOn(all, kept, looks, j, d);
    if j > 0 { LookBefore(all, kept, looks, d, j); }
    hide DayOf, ReadsOn, Lineage, Ordered;
  }

  /** The look before a kept one lies between it and the kept one before. */
  lemma LookBefore(all: seq<Seen>, kept: seq<nat>, looks: seq<Seen>, d: int, j: nat)
    requires Ordered(all) && Lineage(all, kept, looks) && 0 < j < |kept|
    ensures 0 < kept[j] < |all|
    ensures IsOn(looks, j - 1, d) && IsOn(looks, j, d) ==> IsOn(all, kept[j] - 1, d)
    ensures DayOf(looks[j - 1].stamp) <= DayOf(all[kept[j] - 1].stamp) <= DayOf(all[kept[j]].stamp)
  {
    var i := kept[j];
    assert Plain(all[kept[j - 1]]).stamp == Plain(looks[j - 1]).stamp;
    KeptIsOn(all, kept, looks, j - 1, d);
    KeptIsOn(all, kept, looks, j, d);
    if IsOn(looks, j - 1, d) && IsOn(looks, j, d) { Between(all, kept[j - 1], i - 1, i, d); }
    DaysInOrder(all[kept[j - 1]].stamp, all[i - 1].stamp);
    DaysInOrder(all[i - 1].stamp, all[i].stamp);
    hide DayOf;
  }

  /** Neither a lost look nor the first kept one, if others came before it, casts doubt on the day. */
  ghost predicate NoneDoubts(kind: Kind, all: seq<Seen>, kept: seq<nat>, d: int, gap: int) {
    forall i :: 0 <= i < |all| && (i !in kept || (kept[0] == i && 0 < i)) ==> Fine(kind, Plainly(all), i, d, gap)
  }

  /**
   Calls that the kept looks cover are covered by all looks there were exactly when no lost look casts
   doubt on the day.
   */
  lemma CoveredIffNoneDoubts(kind: Kind, all: seq<Seen>, kept: seq<nat>, looks: seq<Seen>, d: int, gap: int)
    requires Ordered(all) && Lineage(all, kept, looks) && NoReadLost(all, kept) && Covered(kind, looks, d, gap)
    ensures Covered(kind, Plainly(all), d, gap) <==> NoneDoubts(kind, all, kept, d, gap)
  {
    var k :| IsOn(looks, k, d);
    KeptIsOn(all, kept, looks, k, d);
    PlainIsOn(all, kept[k], d);
    hide Fine, Ordered;
    if NoneDoubts(kind, all, kept, d, gap) {
      forall i | 0 <= i < |all| ensures Fine(kind, Plainly(all), i, d, gap) {
        if i in kept && (kept[0] != i || i == 0) {
          var j :| 0 <= j < |kept| && kept[j] == i;
          FineAmongAll(kind, all, kept, looks, d, gap, j);
        }
      }
    }
  }

  /** If the first look of all is kept, only lost looks matter. */
  lemma OnlyLostDoubt(kind: Kind, all: seq<Seen>, kept: seq<nat>, looks: seq<Seen>, d: int, queueGap: int, gap: int)
    requires Lineage(all, kept, looks) && kept != [] && OnlyNegligible(all, kept, looks, queueGap)
    ensures NoneDoubts(kind, all, kept, d, gap) <==>
      forall i :: 0 <= i < |all| && i !in kept ==> Fine(kind, Plainly(all), i, d, gap)
  {
    if kept[0] > 0 { FirstIsKept(all, kept, looks, queueGap); }
    hide Fine, OnlyNegligible;
  }

  lemma FirstIsKept(all: seq<Seen>, kept: seq<nat>, looks: seq<Seen>, gap: int)
    requires Lineage(all, kept, looks) && kept != [] && kept[0] > 0
    ensures !OnlyNegligible(all, kept, looks, gap)
  {
    NotAmong(kept, 0, 0);
    assert !Negligible(all, kept, looks, gap, 0);
  }

  // ---------------------------------------------------------------- the chronicle of a tracker

  /**
   Every look there ever was, the places of those that memory and the database rest on, whether a
   write has failed since the last save, and whether a restart ever followed such a failure.
   */
  datatype Chronicle = Chronicle(all: seq<Seen>, kept: seq<nat>, storedKept: seq<nat>, torn: bool, forgot: bool)

  function Noted(h: Chronicle, o: Seen): Chronicle { h.(all := h.all + [o], kept := h.kept + [|h.all|]) }

  function Secured(h: Chronicle): Chronicle { h.(storedKept := h.kept, torn := false) }

  function Restarted(h: Chronicle): Chronicle { h.(kept := h.storedKept, forgot := h.forgot || h.torn, torn := false) }

  ghost predicate Traced(h: Chronicle, looks: seq<Seen>, saved: seq<Seen>, clock: Stamp) {
    && Ordered(h.all) && Ordered(looks) && Ordered(saved)
    && (h.all != [] ==> h.all[|h.all| - 1].stamp <= clock)
    && (looks != [] ==> looks[|looks| - 1].stamp <= clock)
    && Lineage(h.all, h.kept, looks) && Lineage(h.all, h.storedKept, saved)
  }

  /** What is lost is negligible, unless a write failed and a restart followed before the next save. */
  ghost predicate Accounted(h: Chronicle, looks: seq<Seen>, saved: seq<Seen>, gap: int) {
    && (!h.forgot ==> OnlyNegligible(h.all, h.kept, looks, gap))
    && (!h.forgot && !h.torn ==> OnlyNegligible(h.all, h.storedKept, saved, gap))
    && (!h.torn ==> Quiet(saved, looks, gap))
  }

  ghost predicate Running(h: Chronicle, looks: seq<Seen>, saved: seq<Seen>, savedAt: Stamp, breachDay: Option<int>) {
    && (savedAt == 0 && !h.torn ==> looks == saved)
    && (savedAt != 0 && !h.torn ==> saved != [])
    && (savedAt != 0 ==>
          looks != [] && savedAt <= looks[|looks| - 1].stamp && h.kept != [] && h.kept[|h.kept| - 1] == |h.all| - 1)
    && (breachDay.Some? ==>
          LongestWait(looks, breachDay.value) > WAIT_TARGET && LongestWait(saved, breachDay.value) > WAIT_TARGET)
  }

  ghost predicate Chronicled(h: Chronicle, looks: seq<Seen>, saved: seq<Seen>, gap: int, clock: Stamp, savedAt: Stamp,
                             breachDay: Option<int>)
  {
    && Traced(h, looks, saved, clock) && Accounted(h, looks, saved, gap) && Running(h, looks, saved, savedAt, breachDay)
    && NoReadLost(h.all, h.kept) && NoReadLost(h.all, h.storedKept)
  }

  lemma WaitGrows(looks: seq<Seen>, s: Seen, d: int)
    ensures LongestWait(looks, d) <= LongestWait(looks + [s], d)
  {
    FoldsStep(looks, s, d);
  }

  /** A look is noted: memory rests on it, and what was lost before is as negligible as it was. */
  lemma NotedTraced(h: Chronicle, looks: seq<Seen>, saved: seq<Seen>, gap: int, clock: Stamp, a: Seen, s: Seen)
    requires Traced(h, looks, saved, clock) && clock <= s.stamp && Plain(a) == Plain(s)
    ensures Traced(Noted(h, a), looks + [s], saved, s.stamp)
    ensures Lineage(Noted(h, a).all, Noted(h, a).kept, looks + [s])
  {
    assert Plain(a).stamp == a.stamp && Plain(s).stamp == s.stamp;
    OrderedGrows(h.all, a);
    OrderedGrows(looks, s);
    LineageGrows(h.all, h.kept, looks, a, s);
    LineageGrows(h.all, h.storedKept, saved, a, s);
    hide Ordered, Lineage;
  }

  lemma NotedReads(h: Chronicle, s: Seen)
    requires NoReadLost(h.all, h.kept) && NoReadLost(h.all, h.storedKept)
    ensures NoReadLost(Noted(h, s).all, Noted(h, s).kept)
    ensures s.check.read.None? ==> NoReadLost(Noted(h, s).all, h.storedKept)
  {
    assert (h.kept + [|h.all|])[|h.kept|] == |h.all|;
    assert forall i :: i in h.kept ==> i in h.kept + [|h.all|];
  }

  lemma NotedAccounted(h: Chronicle, looks: seq<Seen>, saved: seq<Seen>, gap: int, clock: Stamp, s: Seen)
    requires Traced(h, looks, saved, clock) && clock <= s.stamp && Accounted(h, looks, saved, gap)
    ensures !h.forgot ==> OnlyNegligible(Noted(h, s).all, Noted(h, s).kept, looks + [s], gap)
  {
    OrderedGrows(looks, s);
    if !h.forgot { OnlyNegligibleStays(h.all, h.kept, looks, s, s, gap); }
  }

  lemma SavedChronicle(h: Chronicle, looks: seq<Seen>, saved: seq<Seen>, gap: int, clock: Stamp, savedAt: Stamp,
                       breachDay: Option<int>, s: Seen, breach: Option<int>)
    requires Chronicled(h, looks, saved, gap, clock, savedAt, breachDay) && clock <= s.stamp && 0 < s.stamp
    requires breach == breachDay || (breach.Some? && LongestWait(looks + [s], breach.value) > WAIT_TARGET)
    ensures Chronicled(Secured(Noted(h, s)), looks + [s], looks + [s], gap, s.stamp, s.stamp, breach)
  {
    hide Ordered, Lineage, OnlyNegligible, Quiet, LongestWait, NoReadLost;
    NotedReads(h, s);
    SavedAccounted(h, looks, saved, gap, clock, s);
    if breachDay.Some? { WaitGrows(looks, s, breachDay.value); }
    hide Traced, Accounted;
  }

  lemma SavedAccounted(h: Chronicle, looks: seq<Seen>, saved: seq<Seen>, gap: int, clock: Stamp, s: Seen)
    requires Traced(h, looks, saved, clock) && clock <= s.stamp && Accounted(h, looks, saved, gap)
    ensures Traced(Secured(Noted(h, s)), looks + [s], looks + [s], s.stamp)
    ensures Accounted(Secured(Noted(h, s)), looks + [s], looks + [s], gap)
  {
    hide Ordered, Lineage, OnlyNegligible, Quiet;
    NotedTraced(h, looks, saved, gap, clock, s, s);
    NotedAccounted(h, looks, saved, gap, clock, s);
    SavedIsQuiet(looks + [s], gap);
  }

  lemma UnsavedAccounted(h: Chronicle, looks: seq<Seen>, saved: seq<Seen>, gap: int, clock: Stamp, savedAt: Stamp,
                         breachDay: Option<int>, s: Seen)
    requires Chronicled(h, looks, saved, gap, clock, savedAt, breachDay) && clock <= s.stamp && savedAt != 0
    requires !h.torn && Unremarkable(saved, looks, s, gap)
    ensures Accounted(Noted(h, s), looks + [s], saved, gap)
  {
    hide Ordered, Lineage, OnlyNegligible, Quiet, LongestWait, Negligible, Unremarkable;
    NotedAccounted(h, looks, saved, gap, clock, s);
    OrderedGrows(looks, s);
    QuietGrows(saved, looks, s, gap);
    if !h.forgot {
      UnremarkableIsNegligible(h.all, h.kept, h.storedKept, saved, looks, s, s, gap);
      NegligibleStaysUnsaved(h.all, h.storedKept, saved, s, gap);
    }
  }

  lemma UnsavedRunning(h: Chronicle, looks: seq<Seen>, saved: seq<Seen>, savedAt: Stamp, breachDay: Option<int>,
                       s: Seen)
    requires Running(h, looks, saved, savedAt, breachDay) && savedAt != 0 && looks[|looks| - 1].stamp <= s.stamp
    ensures Running(Noted(h, s), looks + [s], saved, savedAt, breachDay)
  {
    if breachDay.Some? { WaitGrows(looks, s, breachDay.value); }
    hide LongestWait;
  }

  lemma UnsavedChronicle(h: Chronicle, looks: seq<Seen>, saved: seq<Seen>, gap: int, clock: Stamp, savedAt: Stamp,
                         breachDay: Option<int>, s: Seen)
    requires Chronicled(h, looks, saved, gap, clock, savedAt, breachDay) && clock <= s.stamp && savedAt != 0
    requires s.check.read.None? && (!h.torn ==> Unremarkable(saved, looks, s, gap))
    ensures Chronicled(Noted(h, s), looks + [s], saved, gap, s.stamp, savedAt, breachDay)
  {
    hide Ordered, Lineage, OnlyNegligible, Quiet, LongestWait, Unremarkable, NoReadLost;
    NotedReads(h, s);
    NotedTraced(h, looks, saved, gap, clock, s, s);
    UnsavedRunning(h, looks, saved, savedAt, breachDay, s);
    if h.torn {
      NotedAccounted(h, looks, saved, gap, clock, s);
    } else {
      UnsavedAccounted(h, looks, saved, gap, clock, savedAt, breachDay, s);
    }
  }

  /** A write failed after the last save. */
  lemma TornChronicle(h: Chronicle, looks: seq<Seen>, saved: seq<Seen>, gap: int, clock: Stamp, savedAt: Stamp,
                      breachDay: Option<int>, s: Seen, later: Stamp)
    requires Chronicled(h, looks, saved, gap, clock, savedAt, breachDay) && clock <= s.stamp
    requires s.check.read.None? && (later == savedAt || later == s.stamp)
    ensures Chronicled(Noted(h, s).(torn := true), looks + [s], saved, gap, s.stamp, later, breachDay)
  {
    hide Ordered, Lineage, OnlyNegligible, Quiet, LongestWait, NoReadLost;
    NotedReads(h, s);
    NotedTraced(h, looks, saved, gap, clock, s, s);
    NotedAccounted(h, looks, saved, gap, clock, s);
    if breachDay.Some? { WaitGrows(looks, s, breachDay.value); }
  }

  /** Or after a read had been committed: then the database rests on the look, without the failure. */
  lemma HalfSavedChronicle(h: Chronicle, looks: seq<Seen>, saved: seq<Seen>, gap: int, clock: Stamp, savedAt: Stamp,
                           breachDay: Option<int>, s: Seen, committed: Seen)
    requires Chronicled(h, looks, saved, gap, clock, savedAt, breachDay) && clock <= s.stamp
    requires Plain(committed) == Plain(s)
    ensures Chronicled(Secured(Noted(h, s)).(torn := true), looks + [s], looks + [committed], gap, s.stamp, s.stamp,
                       breachDay)
  {
    hide Ordered, Lineage, OnlyNegligible, Quiet, LongestWait, NoReadLost;
    NotedReads(h, s);
    NotedTraced(h, looks, saved, gap, clock, s, s);
    NotedTraced(h, looks, saved, gap, clock, s, committed);
    NotedAccounted(h, looks, saved, gap, clock, s);
    if breachDay.Some? {
      WaitGrows(looks, s, breachDay.value);
      WaitGrows(looks, committed, breachDay.value);
    }
  }

  lemma RestartedChronicle(h: Chronicle, looks: seq<Seen>, saved: seq<Seen>, gap: int, clock: Stamp, savedAt: Stamp,
                           breachDay: Option<int>)
    requires Chronicled(h, looks, saved, gap, clock, savedAt, breachDay)
    requires saved != [] ==> saved[|saved| - 1].stamp <= clock
    ensures Chronicled(Restarted(h), saved, saved, gap, clock, 0, None)
  {
    SavedIsQuiet(saved, gap);
    hide Ordered, Lineage, OnlyNegligible, Quiet, LongestWait, NoReadLost;
  }
}
