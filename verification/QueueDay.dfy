/**
 What a day of queue observations amounts to, read off the whole history of observations:
 whether the day was continuously covered, the queues seen, the longest wait, and
 whether the last look at the day found every queue empty.
 */
module QueueDay {
  import opened CallLedger
  import opened Options

  const GRACE := 60
  const WAIT_TARGET := 60

  /**
   What reading a batch showed: calls without a time, the anchor of the last batch, too many keys, and
   voicemails that are too many or lack a time.
   */
  datatype Batched = Batched(undated: bool, anchored: bool, crowded: bool, vague: bool)

  /**
   What one observation says about the call history and the voicemail source; `read` is there when a batch
   was read and committed.
   */
  datatype Check = Check(ready: bool, age: Option<int>, calling: bool, voice: bool, read: Option<Batched>)

  /** One observation. `stored`: the database accepted what it led to. */
  datatype Seen = Seen(
    stamp: Stamp, ready: bool, names: set<string>, wait: int, empty: bool, stored: bool, check: Check)

  /** Whole seconds since midnight. */
  function SecondOfDay(t: Stamp): int { t % DAY / SECOND }

  predicate Ordered(seen: seq<Seen>) {
    forall i, j :: 0 <= i < j < |seen| ==> seen[i].stamp <= seen[j].stamp
  }

  predicate IsOn(seen: seq<Seen>, i: int, day: int) {
    0 <= i < |seen| && DayOf(seen[i].stamp) == day
  }

  predicate Good(s: Seen, opening: bool) {
    s.ready && s.stored && (opening ==> s.stamp % 86_400_000_000 / 1_000_000 <= 60)
  }

  /** Observation `i` is on the day, or closes it. */
  predicate Touches(seen: seq<Seen>, i: int, day: int) {
    0 < i < |seen| && (IsOn(seen, i, day) || IsOn(seen, i - 1, day))
  }

  predicate Linked(seen: seq<Seen>, i: int, day: int, gap: int) {
    && 0 < i < |seen| && seen[i].ready && seen[i].stamp - seen[i - 1].stamp <= gap
    && (IsOn(seen, i, day) && IsOn(seen, i - 1, day) ==> seen[i].names == seen[i - 1].names)
  }

  /**
   The day was observed, from its first minute on; every observation of it, and the one that
   closed its midnight, found the queues ready; none came later than `gap` after the one before;
   and the set of queues never changed.
   */
  ghost predicate Continuous(seen: seq<Seen>, day: int, gap: int) {
    && (exists i :: IsOn(seen, i, day))
    && (forall i :: IsOn(seen, i, day) ==> Good(seen[i], !IsOn(seen, i - 1, day)))
    && (forall i :: Touches(seen, i, day) ==> Linked(seen, i, day, gap))
  }

  function Names(seen: seq<Seen>, day: int): set<string> {
    if seen == [] then {}
    else
      Names(seen[..|seen| - 1], day) +
      if IsOn(seen, |seen| - 1, day) then seen[|seen| - 1].names else {}
  }

  function LongestWait(seen: seq<Seen>, day: int): int {
    if seen == [] then 0
    else
      var before := LongestWait(seen[..|seen| - 1], day);
      var s := seen[|seen| - 1];
      if IsOn(seen, |seen| - 1, day) && before < s.wait then s.wait else before
  }

  /** Whether the last observation of the day found every queue empty. */
  predicate ClosedEmpty(seen: seq<Seen>, day: int) {
    if seen == [] then false
    else if IsOn(seen, |seen| - 1, day) then seen[|seen| - 1].empty
    else ClosedEmpty(seen[..|seen| - 1], day)
  }

  /** The last observation, if it was made on `day`. */
  predicate LastOn(seen: seq<Seen>, day: int) { IsOn(seen, |seen| - 1, day) }

  /** How one more observation changes the verdict on a day. */
  predicate Continues(seen: seq<Seen>, s: Seen, day: int, gap: int, before: bool) {
    var close := seen == [] || s.stamp - seen[|seen| - 1].stamp <= gap;
    if DayOf(s.stamp) == day then
      if LastOn(seen, day) then before && Good(s, false) && close && s.names == seen[|seen| - 1].names
      else Good(s, true) && close
    else if LastOn(seen, day) then before && s.ready && close
    else before
  }

  lemma OrderedGrows(seen: seq<Seen>, s: Seen)
    requires Ordered(seen) && (seen != [] ==> seen[|seen| - 1].stamp <= s.stamp)
    ensures Ordered(seen + [s])
  {
    forall i | 0 <= i < |seen| ensures seen[i].stamp <= s.stamp {
      assert seen[i].stamp <= seen[|seen| - 1].stamp;
    }
  }

  lemma OneMore(seen: seq<Seen>, s: Seen, day: int)
    ensures forall i :: 0 <= i < |seen| ==> (seen + [s])[i] == seen[i]
    ensures forall i :: i < |seen| ==> (IsOn(seen + [s], i, day) <==> IsOn(seen, i, day))
    ensures IsOn(seen + [s], |seen|, day) <==> DayOf(s.stamp) == day
    ensures (seen + [s])[..|seen|] == seen
  {
  }

  lemma NoneBefore(seen: seq<Seen>, s: Seen, day: int)
    requires Ordered(seen + [s]) && DayOf(s.stamp) == day && !LastOn(seen, day)
    ensures forall i :: !IsOn(seen, i, day)
  {
    var more := seen + [s];
    assert more[|seen|] == s;
    forall i | 0 <= i < |seen| ensures seen[i].stamp <= seen[|seen| - 1].stamp <= s.stamp {
      assert more[i] == seen[i] && more[|seen| - 1] == seen[|seen| - 1];
    }
  }

  lemma ContinuousBefore(seen: seq<Seen>, s: Seen, day: int, gap: int)
    requires Continuous(seen + [s], day, gap) && (DayOf(s.stamp) != day || LastOn(seen, day))
    ensures Continuous(seen, day, gap)
  {
    var more := seen + [s];
    OneMore(seen, s, day);
    var i :| IsOn(more, i, day);
    assert IsOn(seen, if i == |seen| then |seen| - 1 else i, day);
    forall i | Touches(seen, i, day) ensures Linked(seen, i, day, gap) {
      assert Touches(more, i, day);
      assert Linked(more, i, day, gap);
    }
  }

  lemma ContinuousAfter(seen: seq<Seen>, s: Seen, day: int, gap: int)
    requires Continuous(seen, day, gap)
    requires DayOf(s.stamp) == day || LastOn(seen, day) ==> Linked(seen + [s], |seen|, day, gap)
    requires DayOf(s.stamp) == day ==> LastOn(seen, day) && Good(s, false)
    ensures Continuous(seen + [s], day, gap)
  {
    var more := seen + [s];
    OneMore(seen, s, day);
    var i :| IsOn(seen, i, day);
    assert IsOn(more, i, day);
    forall i | Touches(more, i, day) ensures Linked(more, i, day, gap) {
      if i < |seen| {
        assert Touches(seen, i, day);
        assert Linked(seen, i, day, gap);
      }
    }
  }

  /** The first look at a day decides alone. */
  lemma ContinuousFirst(seen: seq<Seen>, s: Seen, day: int, gap: int)
    requires Ordered(seen + [s]) && DayOf(s.stamp) == day && !LastOn(seen, day)
    ensures Continuous(seen + [s], day, gap) <==> Continues(seen, s, day, gap, Continuous(seen, day, gap))
  {
    var more := seen + [s];
    OneMore(seen, s, day);
    NoneBefore(seen, s, day);
    assert IsOn(more, |seen|, day) && !IsOn(more, |seen| - 1, day);
    if seen != [] && Continuous(more, day, gap) { assert Touches(more, |seen|, day); }
    hide DayOf, Ordered;
  }

  /** The verdict on a day can be kept up to date one observation at a time. */
  lemma ContinuousStep(seen: seq<Seen>, s: Seen, day: int, gap: int)
    requires Ordered(seen + [s])
    ensures Continuous(seen + [s], day, gap) <==> Continues(seen, s, day, gap, Continuous(seen, day, gap))
  {
    var more := seen + [s];
    if DayOf(s.stamp) == day && !LastOn(seen, day) {
      ContinuousFirst(seen, s, day, gap);
    } else {
      OneMore(seen, s, day);
      hide DayOf, Ordered;
      if Continuous(more, day, gap) {
        ContinuousBefore(seen, s, day, gap);
        if LastOn(seen, day) { assert Touches(more, |seen|, day) && IsOn(more, |seen| - 1, day); }
        if DayOf(s.stamp) == day { assert IsOn(more, |seen|, day); }
      }
      if Continues(seen, s, day, gap, Continuous(seen, day, gap)) {
        ContinuousAfter(seen, s, day, gap);
      }
    }
  }

  lemma FoldsStep(seen: seq<Seen>, s: Seen, day: int)
    ensures var on := DayOf(s.stamp) == day;
      && Names(seen + [s], day) == Names(seen, day) + (if on then s.names else {})
      && LongestWait(seen + [s], day) ==
           (if on && LongestWait(seen, day) < s.wait then s.wait else LongestWait(seen, day))
      && (ClosedEmpty(seen + [s], day) <==> if on then s.empty else ClosedEmpty(seen, day))
  {
    OneMore(seen, s, day);
  }

  /** The last look means what it says. */
  lemma {:induction false} LastLookHolds(seen: seq<Seen>, day: int, i: int)
    requires Ordered(seen) && IsOn(seen, i, day) && !IsOn(seen, i + 1, day)
    ensures ClosedEmpty(seen, day) <==> seen[i].empty
  {
    var init := seen[..|seen| - 1];
    if i < |init| {
      assert seen[i].stamp <= seen[i + 1].stamp <= seen[|init|].stamp;
      DaysInOrder(seen[i].stamp, seen[i + 1].stamp);
      DaysInOrder(seen[i + 1].stamp, seen[|init|].stamp);
      hide DayOf;
      LastLookHolds(init, day, i);
    }
  }

  lemma LastLook(seen: seq<Seen>, day: int, gap: int) returns (init: seq<Seen>, s: Seen)
    requires Ordered(seen) && seen != []
    ensures init == seen[..|seen| - 1] && s == seen[|seen| - 1] && seen == init + [s] && Ordered(init)
    ensures Continuous(seen, day, gap) <==> Continues(init, s, day, gap, Continuous(init, day, gap))
    ensures Names(seen, day) == Names(init, day) + (if DayOf(s.stamp) == day then s.names else {})
  {
    init, s := seen[..|seen| - 1], seen[|seen| - 1];
    assert seen == init + [s];
    ContinuousStep(init, s, day, gap);
    FoldsStep(init, s, day);
  }

  /** On a continuous day every observation saw the same queues: all those of the day. */
  lemma {:induction false} NamesAreConstant(seen: seq<Seen>, day: int, gap: int, i: int)
    requires Ordered(seen) && Continuous(seen, day, gap) && IsOn(seen, i, day)
    ensures seen[i].names == Names(seen, day)
  {
    hide Names, LongestWait, ClosedEmpty, Continuous, DayOf, Ordered, SecondOfDay;
    var init, s := LastLook(seen, day, gap);
    if DayOf(s.stamp) == day && !LastOn(init, day) {
      NoneBefore(init, s, day);
      NoNames(init, day);
      assert i == |init| by { assert i < |init| ==> IsOn(init, i, day); }
    } else {
      var j := if i == |init| then i - 1 else i;
      assert IsOn(init, j, day);
      NamesAreConstant(init, day, gap, j);
      if LastOn(init, day) { NamesAreConstant(init, day, gap, |init| - 1); }
    }
  }

  lemma {:induction false} NoNames(seen: seq<Seen>, day: int)
    requires forall i :: !IsOn(seen, i, day)
    ensures Names(seen, day) == {} && LongestWait(seen, day) == 0 && !ClosedEmpty(seen, day)
  {
    if seen != [] {
      var init := seen[..|seen| - 1];
      assert !IsOn(seen, |init|, day);
      forall i ensures !IsOn(init, i, day) { assert !IsOn(seen, i, day); }
      NoNames(init, day);
    }
  }

  // ---------------------------------------------------------------- a day that met its target

  /**
   The day was watched from its first minute to past its midnight, waits were short and it closed with
   every queue empty.
   */
  ghost predicate FinishedWithinTarget(seen: seq<Seen>, day: int, gap: int) {
    && Continuous(seen, day, gap)
    && (forall i :: IsOn(seen, i, day) ==> seen[i].wait <= 60)
    && (forall i :: IsOn(seen, i, day) && !IsOn(seen, i + 1, day) ==> seen[i].empty && seen[i].names != {})
  }

  lemma {:induction false} WaitsWithin(seen: seq<Seen>, day: int)
    ensures LongestWait(seen, day) <= WAIT_TARGET <==> forall i :: IsOn(seen, i, day) ==> seen[i].wait <= WAIT_TARGET
  {
    if seen != [] {
      var init := seen[..|seen| - 1];
      WaitsWithin(init, day);
      hide DayOf;
      forall i | IsOn(init, i, day) ensures IsOn(seen, i, day) && init[i] == seen[i] {}
      forall i | IsOn(seen, i, day) && i < |init| ensures IsOn(init, i, day) && init[i] == seen[i] {}
    }
  }

  lemma {:induction false} LastLookOf(seen: seq<Seen>, day: int, i: int) returns (last: int)
    requires IsOn(seen, i, day)
    ensures IsOn(seen, last, day) && !IsOn(seen, last + 1, day)
    decreases |seen| - i
  {
    last := i;
    if IsOn(seen, i + 1, day) {
      last := LastLookOf(seen, day, i + 1);
    }
  }
}
