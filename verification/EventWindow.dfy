/**
 The Relay's in-memory limit on an Agent's publishes: at most so many requests in a sliding window.
 A request is counted before its event is looked at, so repetitions of one event use it up like any other.
 */
module EventWindow {
  /** Admissions later than the cutoff. */
  function Since(times: seq<int>, cutoff: int): (r: seq<int>)
    ensures |r| <= |times|
  {
    if times == [] then [] else if times[0] <= cutoff then Since(times[1..], cutoff) else times
  }

  predicate Ascending(times: seq<int>) { forall i, j :: 0 <= i < j < |times| ==> times[i] <= times[j] }

  /** In a list in order, what comes after the cutoff is a suffix, and all of it. */
  lemma {:induction false} SinceIsExact(times: seq<int>, cutoff: int)
    requires Ascending(times)
    ensures Since(times, cutoff) == times[|times| - |Since(times, cutoff)|..]
    ensures forall i :: 0 <= i < |times| ==> (times[i] > cutoff <==> |times| - |Since(times, cutoff)| <= i)
  {
    if times != [] && times[0] <= cutoff {
      SinceIsExact(times[1..], cutoff);
      forall i | 0 <= i < |times| ensures times[i] > cutoff <==> |times| - |Since(times, cutoff)| <= i {
        if i > 0 { assert times[i] == times[1..][i - 1]; }
      }
    }
  }

  lemma {:induction false} SinceTwice(times: seq<int>, early: int, late: int)
    requires early <= late
    ensures Since(Since(times, early), late) == Since(times, late)
  {
    if times != [] && times[0] <= early { SinceTwice(times[1..], early, late); }
  }

  lemma {:induction false} SinceAppends(times: seq<int>, t: int, cutoff: int)
    requires t > cutoff
    ensures Since(times + [t], cutoff) == Since(times, cutoff) + [t]
  {
    if times != [] && times[0] <= cutoff {
      assert (times + [t])[1..] == times[1..] + [t];
      SinceAppends(times[1..], t, cutoff);
    } else {
      assert times == [] ==> times + [t] == [t];
    }
  }

  lemma DropsFirst(times: seq<int>, cutoff: int)
    requires times != [] && times[0] <= cutoff
    ensures Since(times[1..], cutoff) == Since(times, cutoff)
  {
  }

  lemma KeepsAll(times: seq<int>, cutoff: int)
    requires times != [] ==> times[0] > cutoff
    ensures Since(times, cutoff) == times
  {
  }

  lemma StaysAscending(times: seq<int>, t: int)
    requires Ascending(times) && (times != [] ==> times[|times| - 1] <= t)
    ensures Ascending(times + [t])
  {
    assert forall i :: 0 <= i < |times| ==> times[i] <= times[|times| - 1];
  }

  /** The admissions after a moment. */
  ghost function Later(times: seq<int>, cutoff: int): set<int> { set i | 0 <= i < |times| && times[i] > cutoff }

  /** How many are kept is how many there are. */
  lemma SinceCounts(times: seq<int>, cutoff: int)
    requires Ascending(times)
    ensures |Since(times, cutoff)| == |Later(times, cutoff)|
  {
    SinceIsExact(times, cutoff);
    var n, k := |times|, |Since(times, cutoff)|;
    hide Since;
    StretchSize(n - k, n);
    assert Later(times, cutoff) == Stretch(n - k, n);
  }

  ghost function Stretch(lo: int, hi: int): set<int>
    decreases hi - lo
  {
    if lo < hi then Stretch(lo, hi - 1) + {hi - 1} else {}
  }

  lemma {:induction false} StretchSize(lo: int, hi: int)
    requires lo <= hi
    ensures |Stretch(lo, hi)| == hi - lo && forall i :: i in Stretch(lo, hi) <==> lo <= i < hi
    decreases hi - lo
  {
    if lo < hi { StretchSize(lo, hi - 1); }
  }

  class Window {
    const limit: nat
    const seconds: int
    var times: seq<int>
    ghost var admitted: seq<int>   // every admission ever
    ghost var clock: int
    ghost var dropped: int         // admissions up to here are forgotten

    ghost predicate Valid()
      reads this
    {
      && 0 < seconds && Ascending(admitted) && (admitted != [] ==> admitted[|admitted| - 1] <= clock)
      && dropped <= clock - seconds && times == Since(admitted, dropped)
    }

    constructor (limit: nat, seconds: int, now: int)
      requires 0 < seconds
      ensures Valid() && admitted == [] && clock == now && this.limit == limit && this.seconds == seconds
    {
      this.limit, this.seconds, times, admitted, clock, dropped := limit, seconds, [], [], now, now - seconds;
    }

    /** Drops what has left the window, oldest first. */
    method Forget(cutoff: int)
      modifies `times
      ensures times == Since(old(times), cutoff)
    {
      hide Since;
      while times != [] && times[0] <= cutoff
        invariant Since(times, cutoff) == Since(old(times), cutoff)
        decreases |times|
      {
        DropsFirst(times, cutoff);
        times := times[1..];
      }
      KeepsAll(times, cutoff);
    }

    /** Admits a request exactly when fewer than `limit` were admitted in the last `seconds`. */
    method Consume(now: int) returns (ok: bool)
      requires Valid() && clock <= now
      modifies this
      ensures Valid() && clock == now
      ensures ok <==> |set i | 0 <= i < |old(admitted)| && now - old(admitted)[i] < seconds| < limit
      ensures admitted == old(admitted) + if ok then [now] else []
    {
      SinceCounts(admitted, now - seconds);
      assert Later(admitted, now - seconds) == set i | 0 <= i < |admitted| && now - admitted[i] < seconds;
      hide Ascending, Since, Later;
      Forget(now - seconds);
      SinceTwice(admitted, dropped, now - seconds);
      clock, dropped := now, now - seconds;
      if |times| >= limit {
        return false;
      }
      SinceAppends(admitted, now, now - seconds);
      StaysAscending(admitted, now);
      times, admitted, ok := times + [now], admitted + [now], true;
    }
  }

  function Cadence(start: int, step: nat, n: nat): seq<int> { seq(n, i requires 0 <= i < n => start + i * step) }

  /**
   Requests at a fixed pace faster than the limit per window use it up: after `limit` of them every
   request is refused until the first falls out of the window, whatever it would publish.
   */
  lemma CadenceExhausts(start: int, step: nat, limit: nat, seconds: int, now: int)
    requires 0 < limit && start + (limit - 1) * step <= now < start + seconds
    ensures |Since(Cadence(start, step, limit), now - seconds)| == limit
  {
    var times := Cadence(start, step, limit);
    assert times[0] == start + 0 * step == start;
  }

  /** The program's own figures: one standing signal every five seconds, sixty requests an hour. */
  lemma StandingOutageBlocksTheHour(start: int, now: int)
    requires start + 295 <= now < start + 3600
    ensures |Since(Cadence(start, 5, 60), now - 3600)| == 60
    ensures |set i | 0 <= i < 60 && now - (start + 5 * i) < 3600| == 60
  {
    CadenceExhausts(start, 5, 60, 3600, now);
    StretchSize(0, 60);
    assert (set i | 0 <= i < 60 && now - (start + 5 * i) < 3600) == Stretch(0, 60);
  }
}
