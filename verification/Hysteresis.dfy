/**
 What it means, over a whole history of samples of one phone, that a confirmed
 outage stands: the reference both availability trackers are proved against.
 */
module Hysteresis {
  /** What one sample says about a phone. */
  datatype Reading = Missing | Unclear | Gone | Reachable

  /** A sample: its reading, whether the configuration changed the phone's role, and its time. */
  datatype Tick = Tick(reading: Reading, reset: bool, at: int)

  /** How long a run confirms an outage or a recovery, and whether a recovery takes two samples. */
  datatype Rules = Rules(outage: int, recovery: int, twoSamples: bool)

  type Ticks = seq<Tick>

  ghost predicate Chronological(t: Ticks) {
    forall i, j :: 0 <= i < j < |t| ==> t[i].at <= t[j].at
  }

  /** Nothing but one reading from `i` to `j`, without a reset in between, for at least `length`. */
  ghost predicate Span(t: Ticks, r: Reading, length: int, i: nat, j: nat) {
    && i <= j < |t|
    && (forall k :: i <= k <= j ==> t[k].reading == r)
    && (forall k :: i < k <= j ==> !t[k].reset)
    && t[j].at - t[i].at >= length
  }

  /** Sample `j` completes an unbroken unavailable run long enough to confirm an outage. */
  ghost predicate OutageAt(r: Rules, t: Ticks, j: nat) {
    exists i: nat :: Span(t, Gone, r.outage, i, j)
  }

  /** Sample `j` completes an unbroken reachable run long enough to confirm a recovery. */
  ghost predicate RecoveryAt(r: Rules, t: Ticks, j: nat) {
    exists i: nat :: Span(t, Reachable, r.recovery, i, j) && (r.twoSamples ==> i < j)
  }

  ghost predicate Ended(r: Rules, t: Ticks, j: nat)
    requires j < |t|
  {
    t[j].reset || RecoveryAt(r, t, j)
  }

  ghost predicate Stands(r: Rules, t: Ticks, c: nat) {
    c < |t| && OutageAt(r, t, c) && forall j :: c < j < |t| ==> !Ended(r, t, j)
  }

  /** An outage was confirmed, and since then neither a recovery nor a change of role. */
  ghost predicate Standing(r: Rules, t: Ticks) {
    exists c :: Stands(r, t, c)
  }

  /** The first sample of the unbroken run that ends the history. */
  function Since(t: Ticks): (i: nat)
    requires t != []
    ensures i < |t| && forall k :: i <= k < |t| ==> t[k].reading == t[|t| - 1].reading
    ensures forall k :: i < k < |t| ==> !t[k].reset
    ensures i == 0 || t[i].reset || t[i - 1].reading != t[i].reading
  {
    var n := |t| - 1;
    if t[n].reset || n == 0 || t[n - 1].reading != t[n].reading then n
    else
      var i := Since(t[..n]);
      assert forall k :: 0 <= k < n ==> t[..n][k] == t[k];
      i
  }

  lemma PrefixSpans(r: Rules, t: Ticks, n: nat, j: nat)
    requires j < n <= |t|
    ensures OutageAt(r, t[..n], j) <==> OutageAt(r, t, j)
    ensures RecoveryAt(r, t[..n], j) <==> RecoveryAt(r, t, j)
    ensures t[..n][j] == t[j]
  {
    assert forall k :: 0 <= k < n ==> t[..n][k] == t[k];
    assert forall x, l, i: nat :: Span(t[..n], x, l, i, j) <==> Span(t, x, l, i, j);
  }

  /** One more sample: it confirms an outage, or it leaves an earlier one standing. */
  lemma StandingStep(r: Rules, t: Ticks)
    requires t != []
    ensures var n := |t| - 1;
      Standing(r, t) <==> OutageAt(r, t, n) || (Standing(r, t[..n]) && !Ended(r, t, n))
  {
    var n := |t| - 1;
    forall j: nat | j < n
      ensures OutageAt(r, t[..n], j) <==> OutageAt(r, t, j)
      ensures Ended(r, t[..n], j) <==> Ended(r, t, j)
    {
      PrefixSpans(r, t, n, j);
    }
    hide OutageAt, Ended;
    assert OutageAt(r, t, n) ==> Stands(r, t, n);
    forall c: nat | c < n ensures Stands(r, t, c) <==> Stands(r, t[..n], c) && !Ended(r, t, n) {
    }
  }

  /** Some run of this reading ending here is long enough exactly when the longest one is. */
  lemma LongestSpan(t: Ticks, x: Reading, length: int, i: nat)
    requires t != [] && Chronological(t) && Span(t, x, length, i, |t| - 1)
    ensures Since(t) <= i && Span(t, x, length, Since(t), |t| - 1)
  {
    var s := Since(t);
    assert s > 0 ==> t[s].reset || t[s - 1].reading != x;
  }

  ghost predicate OutageNow(r: Rules, t: Ticks)
    requires t != []
  {
    t[|t| - 1].reading.Gone? && t[|t| - 1].at - t[Since(t)].at >= r.outage
  }

  ghost predicate RecoveryNow(r: Rules, t: Ticks)
    requires t != []
  {
    && t[|t| - 1].reading.Reachable? && t[|t| - 1].at - t[Since(t)].at >= r.recovery
    && (r.twoSamples ==> Since(t) < |t| - 1)
  }

  /** What the last sample decides, in terms of the run that ends with it. */
  ghost predicate Judged(r: Rules, t: Ticks)
    requires t != []
  {
    var n := |t| - 1;
    && (OutageAt(r, t, n) <==> OutageNow(r, t))
    && (RecoveryAt(r, t, n) <==> RecoveryNow(r, t))
    && (Standing(r, t) <==> OutageNow(r, t) || (Standing(r, t[..n]) && !t[n].reset && !RecoveryNow(r, t)))
  }

  lemma JudgeLast(r: Rules, t: Ticks)
    requires t != [] && Chronological(t)
    ensures Judged(r, t)
  {
    var n := |t| - 1;
    StandingStep(r, t);
    forall i: nat | Span(t, Gone, r.outage, i, n) ensures OutageNow(r, t) {
      LongestSpan(t, Gone, r.outage, i);
    }
    forall i: nat | Span(t, Reachable, r.recovery, i, n) && (r.twoSamples ==> i < n) ensures RecoveryNow(r, t) {
      LongestSpan(t, Reachable, r.recovery, i);
    }
    assert OutageNow(r, t) ==> Span(t, Gone, r.outage, Since(t), n);
    assert RecoveryNow(r, t) ==> Span(t, Reachable, r.recovery, Since(t), n);
  }

  // ---------------------------------------------------------------- endpoints whose silence proves nothing

  /** The endpoint has been missing for so long that it is given up. */
  ghost predicate Lapsed(t: Ticks, limit: int) {
    exists i: nat :: LastSpan(t, Missing, limit, i)
  }

  ghost predicate LastSpan(t: Ticks, r: Reading, length: int, i: nat) {
    t != [] && Span(t, r, length, i, |t| - 1)
  }

  /**
   What the samples of a trunk say for certain: unavailable or reachable, since the last change of role
   or lapse. Missing and unclear samples in between say nothing either way.
   */
  ghost function Decisive(t: Ticks, limit: int): Ticks {
    if t == [] then []
    else
      var last := t[|t| - 1];
      var before := if last.reset || Lapsed(t, limit) then [] else Decisive(t[..|t| - 1], limit);
      if last.reading.Gone? || last.reading.Reachable? then before + [Tick(last.reading, false, last.at)] else before
  }

  lemma {:induction false} DecisiveInOrder(t: Ticks, limit: int)
    requires Chronological(t)
    ensures var d := Decisive(t, limit); Chronological(d) && (d != [] ==> d[|d| - 1].at <= t[|t| - 1].at)
    ensures forall k :: 0 <= k < |Decisive(t, limit)| ==> Says(Decisive(t, limit)[k])
    ensures Decisive(t, limit) != [] ==> t != []
  {
    if t != [] {
      DecisiveInOrder(t[..|t| - 1], limit);
      var before := Decisive(t[..|t| - 1], limit);
      assert forall k :: 0 <= k < |before| ==> before[k].at <= t[|t| - 1].at;
    }
  }

  predicate Says(x: Tick) { !x.reset && (x.reading.Gone? || x.reading.Reachable?) }

  lemma LapsedNow(t: Ticks, limit: int)
    requires t != [] && Chronological(t)
    ensures Lapsed(t, limit) <==> t[|t| - 1].reading.Missing? && t[|t| - 1].at - t[Since(t)].at >= limit
  {
    if i: nat :| LastSpan(t, Missing, limit, i) {
      LongestSpan(t, Missing, limit, i);
    }
    assert t[|t| - 1].reading.Missing? && t[|t| - 1].at - t[Since(t)].at >= limit ==>
      LastSpan(t, Missing, limit, Since(t));
  }

  function Certain(t: Ticks): Ticks {
    if t == [] then []
    else
      var last := t[|t| - 1];
      Certain(t[..|t| - 1]) +
      if last.reading.Gone? || last.reading.Reachable? then [Tick(last.reading, false, last.at)] else []
  }

  ghost predicate Breaks(t: Ticks, k: nat, limit: int) { k < |t| && (t[k].reset || Lapsed(t[..k + 1], limit)) }

  /** The decisive samples are the certain ones from the last change of role or lapse on. */
  lemma {:induction false} DecisiveIsRest(t: Ticks, limit: int) returns (c: nat)
    ensures c == 0 || Breaks(t, c, limit)
    ensures c <= |t| && (forall k: nat :: c < k < |t| ==> !Breaks(t, k, limit))
    ensures Decisive(t, limit) == Certain(t[c..])
  {
    c := 0;
    if t != [] {
      var n := |t| - 1;
      var m := DecisiveIsRest(t[..n], limit);
      forall k: nat | k < n ensures Breaks(t[..n], k, limit) <==> Breaks(t, k, limit) {
        assert t[..n][..k + 1] == t[..k + 1];
      }
      assert t[..n + 1] == t;
      hide Lapsed;
      if Breaks(t, n, limit) {
        c := n;
        assert t[n..] == [t[n]] && [t[n]][..0] == [];
      } else {
        c := m;
        hide Breaks;
        assert t[m..][..n - m] == t[m..n] == t[..n][m..] && t[m..][n - m] == t[n];
      }
    }
  }

  // ---------------------------------------------------------------- the same, sample by sample

  predicate Neutral(x: Reading) { x.Missing? || x.Unclear? }

  /** From `i` to `j` nothing certain but one reading, at both ends too, and no break, for at least `length`. */
  ghost predicate CertainSpan(t: Ticks, r: Reading, length: int, limit: int, i: nat, j: nat) {
    && i <= j < |t| && t[i].reading == r && t[j].reading == r
    && (forall k :: i <= k <= j ==> t[k].reading == r || Neutral(t[k].reading))
    && (forall k :: i < k <= j ==> !Breaks(t, k, limit))
    && t[j].at - t[i].at >= length
  }

  ghost predicate CertainOutageAt(r: Rules, t: Ticks, j: nat) {
    exists i: nat :: CertainSpan(t, Gone, r.outage, r.recovery, i, j)
  }

  ghost predicate CertainRecoveryAt(r: Rules, t: Ticks, j: nat) {
    exists i: nat :: CertainSpan(t, Reachable, r.recovery, r.recovery, i, j) && (r.twoSamples ==> i < j)
  }

  ghost predicate CertainStands(r: Rules, t: Ticks, c: nat) {
    && c < |t| && CertainOutageAt(r, t, c)
    && forall j :: c < j < |t| ==> !Breaks(t, j, r.recovery) && !CertainRecoveryAt(r, t, j)
  }

  /** An outage was confirmed by certain samples, and since then neither a recovery nor a break. */
  ghost predicate CertainStanding(r: Rules, t: Ticks) {
    exists c :: CertainStands(r, t, c)
  }

  /** Where the decisive samples are. */
  ghost function Places(t: Ticks, limit: int): (p: seq<nat>)
    ensures |p| == |Decisive(t, limit)|
  {
    if t == [] then []
    else
      var n := |t| - 1;
      var before := if t[n].reset || Lapsed(t, limit) then [] else Places(t[..n], limit);
      if t[n].reading.Gone? || t[n].reading.Reachable? then before + [n] else before
  }

  lemma PrefixBreaks(t: Ticks, n: nat, k: nat, limit: int)
    requires k < n <= |t|
    ensures Breaks(t[..n], k, limit) <==> Breaks(t, k, limit)
  {
    assert t[..n][..k + 1] == t[..k + 1];
  }

  predicate InTurn(p: seq<nat>, n: nat) {
    (forall a, b :: 0 <= a < b < |p| ==> p[a] < p[b]) && forall a :: 0 <= a < |p| ==> p[a] < n
  }

  /** The places are in order, hold what is there, and no break comes after the first. */
  ghost predicate RightPlaces(p: seq<nat>, d: Ticks, t: Ticks, limit: int) {
    && |p| == |d| && InTurn(p, |t|)
    && (forall a :: 0 <= a < |p| ==> d[a] == Tick(t[p[a]].reading, false, t[p[a]].at) && !Neutral(d[a].reading))
    && (forall a, k: nat :: 0 <= a < |p| && p[a] < k < |t| ==> !Breaks(t, k, limit))
  }

  /** Nothing certain since the last break is left out. */
  ghost predicate Complete(p: seq<nat>, t: Ticks, limit: int) {
    forall i: nat :: i < |t| && !Neutral(t[i].reading) && NoBreakAfter(t, i, limit) ==> i in p
  }

  ghost predicate NoBreakAfter(t: Ticks, i: nat, limit: int) {
    forall k: nat :: i < k < |t| ==> !Breaks(t, k, limit)
  }

  predicate IsCertain(x: Tick) { x.reading.Gone? || x.reading.Reachable? }

  function Plainly(x: Tick): Tick { Tick(x.reading, false, x.at) }

  lemma OneMoreTick(init: Ticks, last: Tick, limit: int)
    ensures var t, n := init + [last], |init|;
      && (forall k: nat :: k < n ==> (Breaks(init, k, limit) <==> Breaks(t, k, limit)))
      && Places(t, limit) ==
           (if Breaks(t, n, limit) then [] else Places(init, limit)) + (if IsCertain(last) then [n] else [])
      && Decisive(t, limit) ==
           (if Breaks(t, n, limit) then [] else Decisive(init, limit)) +
             (if IsCertain(last) then [Plainly(last)] else [])
  {
    var t, n := init + [last], |init|;
    assert t[..n] == init && t[..n + 1] == t && t[n] == last;
    forall k: nat | k < n ensures Breaks(init, k, limit) <==> Breaks(t, k, limit) {
      PrefixBreaks(t, n, k, limit);
    }
    hide Lapsed;
  }

  lemma {:induction false} PlacesAreRight(t: Ticks, limit: int)
    ensures RightPlaces(Places(t, limit), Decisive(t, limit), t, limit) && Complete(Places(t, limit), t, limit)
  {
    if t != [] {
      var init, last := t[..|t| - 1], t[|t| - 1];
      assert t == init + [last];
      PlacesAreRight(init, limit);
      PlacesStep(init, last, limit);
      hide RightPlaces, Complete, Places, Decisive;
    }
  }

  lemma PlacesStep(init: Ticks, last: Tick, limit: int)
    requires RightPlaces(Places(init, limit), Decisive(init, limit), init, limit)
    requires Complete(Places(init, limit), init, limit)
    ensures var t := init + [last];
      RightPlaces(Places(t, limit), Decisive(t, limit), t, limit) && Complete(Places(t, limit), t, limit)
  {
    var p, d, n, t := Places(init, limit), Decisive(init, limit), |init|, init + [last];
    var breaks := Breaks(t, n, limit);
    OneMoreTick(init, last, limit);
    hide Places, Decisive, Breaks, Lapsed, RightPlaces, Complete;
    StaysComplete(p, init, last, limit, breaks);
    if breaks {
      PlacesStart(init, last, limit);
      assert [] + [n] == [n] && [] + [Plainly(last)] == [Plainly(last)];
    } else {
      PlacesStay(p, d, init, last, limit);
      PlacesInTurn(p, d, init, limit);
      if IsCertain(last) { PlacesGrow(p, d, t, limit); }
      assert p + [] == p && d + [] == d;
    }
  }

  lemma PlacesInTurn(p: seq<nat>, d: Ticks, t: Ticks, limit: int)
    requires RightPlaces(p, d, t, limit)
    ensures InTurn(p, |t|)
  {
  }

  /** After a break only the last sample counts. */
  lemma PlacesStart(init: Ticks, last: Tick, limit: int)
    ensures RightPlaces([], [], init + [last], limit)
    ensures IsCertain(last) ==> RightPlaces([|init|], [Plainly(last)], init + [last], limit)
  {
    hide Breaks;
  }

  lemma PlacesStay(p: seq<nat>, d: Ticks, init: Ticks, last: Tick, limit: int)
    requires RightPlaces(p, d, init, limit) && !Breaks(init + [last], |init|, limit)
    requires forall k: nat :: k < |init| ==> (Breaks(init, k, limit) <==> Breaks(init + [last], k, limit))
    ensures RightPlaces(p, d, init + [last], limit)
  {
    hide Breaks;
    assert forall k :: 0 <= k < |init| ==> (init + [last])[k] == init[k];
  }

  lemma PlacesGrow(p: seq<nat>, d: Ticks, t: Ticks, limit: int)
    requires t != [] && RightPlaces(p, d, t, limit) && InTurn(p, |t| - 1) && IsCertain(t[|t| - 1])
    ensures RightPlaces(p + [|t| - 1], d + [Plainly(t[|t| - 1])], t, limit)
  {
    hide Breaks;
  }

  lemma StaysComplete(p: seq<nat>, init: Ticks, last: Tick, limit: int, breaks: bool)
    requires Complete(p, init, limit) && breaks == Breaks(init + [last], |init|, limit)
    requires forall k: nat :: k < |init| ==> (Breaks(init, k, limit) <==> Breaks(init + [last], k, limit))
    ensures var q := if breaks then [] else p; Complete(if IsCertain(last) then q + [|init|] else q, init + [last],
                                                        limit)
  {
    var n, t := |init|, init + [last];
    hide Breaks;
    var q := if breaks then [] else p;
    forall i: nat | i < |t| && !Neutral(t[i].reading) && NoBreakAfter(t, i, limit)
      ensures i in if IsCertain(last) then q + [n] else q
    {
      if i < n {
        assert !Breaks(t, n, limit) && t[i] == init[i];
        assert forall k: nat :: i < k < n ==> !Breaks(init, k, limit);
        assert NoBreakAfter(init, i, limit);
      }
    }
  }

  lemma LastPlace(p: seq<nat>, n: nat, a: nat)
    requires InTurn(p, n) && a < |p| && p[a] == n - 1
    ensures a == |p| - 1
  {
    assert p[a] < p[|p| - 1] || a == |p| - 1;
  }

  lemma PlaceOf(p: seq<nat>, i: nat) returns (a: nat)
    requires i in p
    ensures a < |p| && p[a] == i
  {
    a :| 0 <= a < |p| && p[a] == i;
  }

  lemma SpanInPlaces(t: Ticks, x: Reading, length: int, limit: int, a: nat)
    requires t != [] && !Neutral(x) && t[|t| - 1].reading == x && LastSpan(Decisive(t, limit), x, length, a)
    ensures a < |Places(t, limit)| && CertainSpan(t, x, length, limit, Places(t, limit)[a], |t| - 1)
  {
    PlacesAreRight(t, limit);
    var p, d, n := Places(t, limit), Decisive(t, limit), |t| - 1;
    hide Decisive, Places, Breaks;
    assert NoBreakAfter(t, n, limit) && n in p;
    var last := PlaceOf(p, n);
    LastPlace(p, |t|, last);
    forall k: nat | p[a] <= k <= n ensures t[k].reading == x || Neutral(t[k].reading) {
      if !Neutral(t[k].reading) {
        assert NoBreakAfter(t, k, limit) && k in p;
        var b := PlaceOf(p, k);
        assert a <= b && d[b].reading == x;
      }
    }
  }

  lemma SpanFromPlaces(t: Ticks, x: Reading, length: int, limit: int, i: nat) returns (a: nat)
    requires t != [] && !Neutral(x) && CertainSpan(t, x, length, limit, i, |t| - 1)
    ensures a < |Places(t, limit)| && Places(t, limit)[a] == i && LastSpan(Decisive(t, limit), x, length, a)
  {
    PlacesAreRight(t, limit);
    var p, d, n := Places(t, limit), Decisive(t, limit), |t| - 1;
    hide Decisive, Places, Breaks;
    assert NoBreakAfter(t, n, limit) && NoBreakAfter(t, i, limit);
    a := PlaceOf(p, i);
    var last := PlaceOf(p, n);
    LastPlace(p, |t|, last);
    forall b | a <= b < |d| ensures d[b].reading == x {
      assert i <= p[b] <= n && !Neutral(t[p[b]].reading);
    }
  }

  /** The last sample confirms an outage, or a recovery, exactly if the last decisive one does. */
  lemma CertainIsDecisive(r: Rules, t: Ticks)
    requires t != [] && !Neutral(t[|t| - 1].reading)
    ensures var d := Decisive(t, r.recovery);
      && d != []
      && (CertainOutageAt(r, t, |t| - 1) <==> OutageAt(r, d, |d| - 1))
      && (CertainRecoveryAt(r, t, |t| - 1) <==> RecoveryAt(r, d, |d| - 1))
  {
    var d, p, n := Decisive(t, r.recovery), Places(t, r.recovery), |t| - 1;
    PlacesAreRight(t, r.recovery);
    hide Decisive, Places, Breaks;
    assert NoBreakAfter(t, n, r.recovery) && n in p;
    var last := PlaceOf(p, n);
    LastPlace(p, |t|, last);
    if OutageAt(r, d, |d| - 1) {
      var a: nat :| Span(d, Gone, r.outage, a, |d| - 1);
      assert LastSpan(d, Gone, r.outage, a);
      SpanInPlaces(t, Gone, r.outage, r.recovery, a);
    }
    if RecoveryAt(r, d, |d| - 1) {
      var a: nat :| Span(d, Reachable, r.recovery, a, |d| - 1) && (r.twoSamples ==> a < |d| - 1);
      assert LastSpan(d, Reachable, r.recovery, a);
      SpanInPlaces(t, Reachable, r.recovery, r.recovery, a);
    }
    if CertainOutageAt(r, t, n) {
      var i: nat :| CertainSpan(t, Gone, r.outage, r.recovery, i, n);
      var a := SpanFromPlaces(t, Gone, r.outage, r.recovery, i);
    }
    if CertainRecoveryAt(r, t, n) {
      var i: nat :| CertainSpan(t, Reachable, r.recovery, r.recovery, i, n) && (r.twoSamples ==> i < n);
      var a := SpanFromPlaces(t, Reachable, r.recovery, r.recovery, i);
    }
  }

  lemma PrefixCertain(r: Rules, t: Ticks, n: nat, j: nat)
    requires j < n <= |t|
    ensures CertainOutageAt(r, t[..n], j) <==> CertainOutageAt(r, t, j)
    ensures CertainRecoveryAt(r, t[..n], j) <==> CertainRecoveryAt(r, t, j)
  {
    forall k: nat | k < n ensures Breaks(t[..n], k, r.recovery) <==> Breaks(t, k, r.recovery) {
      PrefixBreaks(t, n, k, r.recovery);
    }
    hide Breaks;
    forall x, l, i: nat
      ensures CertainSpan(t[..n], x, l, r.recovery, i, j) <==> CertainSpan(t, x, l, r.recovery, i, j)
    {
    }
  }

  lemma CertainStep(r: Rules, t: Ticks)
    requires t != []
    ensures var n := |t| - 1;
      CertainStanding(r, t) <==>
        CertainOutageAt(r, t, n) ||
        (CertainStanding(r, t[..n]) && !Breaks(t, n, r.recovery) && !CertainRecoveryAt(r, t, n))
  {
    var n := |t| - 1;
    forall j: nat | j < n
      ensures CertainOutageAt(r, t[..n], j) <==> CertainOutageAt(r, t, j)
      ensures CertainRecoveryAt(r, t[..n], j) <==> CertainRecoveryAt(r, t, j)
      ensures Breaks(t[..n], j, r.recovery) <==> Breaks(t, j, r.recovery)
    {
      PrefixCertain(r, t, n, j);
      PrefixBreaks(t, n, j, r.recovery);
    }
    hide CertainOutageAt, CertainRecoveryAt, Breaks;
    assert CertainOutageAt(r, t, n) ==> CertainStands(r, t, n);
    forall c: nat | c < n
      ensures CertainStands(r, t, c) <==>
        CertainStands(r, t[..n], c) && !Breaks(t, n, r.recovery) && !CertainRecoveryAt(r, t, n)
    {
    }
  }

  /** An outage stands over the decisive samples exactly if it stands, sample by sample, over all of them. */
  lemma {:induction false} CertainIffDecisive(r: Rules, t: Ticks)
    ensures CertainStanding(r, t) <==> Standing(r, Decisive(t, r.recovery))
  {
    if t != [] {
      var n := |t| - 1;
      var d := Decisive(t, r.recovery);
      CertainIffDecisive(r, t[..n]);
      CertainStep(r, t);
      assert t[..n + 1] == t && (Breaks(t, n, r.recovery) <==> t[n].reset || Lapsed(t, r.recovery));
      if Neutral(t[n].reading) {
        assert !CertainOutageAt(r, t, n) && !CertainRecoveryAt(r, t, n);
        hide CertainOutageAt, CertainRecoveryAt, CertainStanding;
      } else {
        CertainIsDecisive(r, t);
        StandingStep(r, d);
        hide CertainOutageAt, CertainRecoveryAt, CertainStanding, Standing, OutageAt, RecoveryAt, Lapsed;
        assert d[..|d| - 1] == if Breaks(t, n, r.recovery) then [] else Decisive(t[..n], r.recovery);
        assert !Standing(r, []) by { NoneStanding(r); }
      }
    }
  }

  lemma NoneStanding(r: Rules)
    ensures !Standing(r, [])
  {
  }

  /** Sample `j` is the one that ends a standing outage by a confirmed recovery. */
  ghost predicate RecoveredAt(r: Rules, t: Ticks, j: nat) {
    j < |t| && Standing(r, t[..j]) && !t[j].reset && RecoveryAt(r, t, j)
  }

  /** An outage and a recovery are never confirmed by the same sample. */
  lemma NotBoth(r: Rules, t: Ticks, j: nat)
    ensures !(OutageAt(r, t, j) && RecoveryAt(r, t, j))
  {
    assert OutageAt(r, t, j) ==> j < |t| && t[j].reading.Gone?;
    assert RecoveryAt(r, t, j) ==> j < |t| && t[j].reading.Reachable?;
  }

  /** Two recoveries of one phone are separated by a freshly confirmed outage. */
  lemma FreshOutageBetween(r: Rules, t: Ticks, i: nat, j: nat)
    requires i < j && RecoveredAt(r, t, i) && RecoveredAt(r, t, j)
    ensures exists c :: i < c < j && OutageAt(r, t, c)
  {
    var c: nat :| Stands(r, t[..j], c);
    PrefixSpans(r, t, j, c);
    PrefixSpans(r, t, j, i);
    NotBoth(r, t, i);
    assert c < i ==> !Ended(r, t[..j], i);
  }
}
