/**
 When a day's count of calls, or of voicemails, can be vouched for, read off the whole history of
 observations: from the day's first minute on, and up to the first read after it, the call history was
 readable and recent, and what was read was counted. For calls each batch reached back to the one before,
 and no call was in progress over midnight; for voicemails their source was ready.
 */
module CallDay {
  import opened Options
  import opened CallLedger
  import opened QueueDay

  /** The two counts that the same reads serve. */
  datatype Kind = OfCalls | OfVoicemail

  /** The days that a fault noticed now puts in doubt start with that of the previous good reading. */
  predicate Doubtful(day: int, previous: Option<Stamp>, now: Stamp) {
    day <= DayOf(now) && (day == DayOf(now) || (previous.Some? && DayOf(previous.value) <= day))
  }

  function ReadTime(s: Seen): Stamp { s.stamp - s.check.age.GetOr(0) }

  predicate Readable(c: Check, gap: int) { c.ready && (c.age.None? || c.age.value <= gap) }

  /** When the newest batch in the history was read. */
  function LastRead(seen: seq<Seen>): Option<Stamp> {
    if seen == [] then None
    else if seen[|seen| - 1].check.read.Some? then Some(ReadTime(seen[|seen| - 1]))
    else LastRead(seen[..|seen| - 1])
  }

  /** The history was readable and in time, and a batch that was read reached back to the last one and was counted. */
  predicate ReadsOn(kind: Kind, last: Option<Stamp>, s: Seen, gap: int) {
    && Readable(s.check, gap) && (last.Some? ==> 0 <= ReadTime(s) - last.value <= gap)
    && (s.check.read.Some? ==> (kind.OfCalls? ==> s.check.read.value.anchored) && !s.check.read.value.crowded)
  }

  /** What a look on the day itself has to be, `opening` or not. */
  predicate Sound(kind: Kind, s: Seen, opening: bool) {
    Clear(kind, s) && (opening ==> s.stamp % 86_400_000_000 / 1_000_000 <= 60)
  }

  /** It was stored, and everything it showed of the count had a date. */
  predicate Clear(kind: Kind, s: Seen) {
    && s.stored
    && match kind
       case OfCalls => s.check.read.Some? ==> !s.check.read.value.undated
       case OfVoicemail => s.check.voice && (s.check.read.Some? ==> !s.check.read.value.vague)
  }

  /** Look `i` casts no doubt on the day's count. */
  predicate Fine(kind: Kind, seen: seq<Seen>, i: int, day: int, gap: int)
    requires 0 <= i < |seen|
  {
    var s, last := seen[i], LastRead(seen[..i]);
    && (IsOn(seen, i, day) ==> Sound(kind, s, !IsOn(seen, i - 1, day)))
    && (Doubtful(day, last, s.stamp) ==> ReadsOn(kind, last, s, gap))
    && (kind.OfCalls? && 0 < i && DayOf(seen[i - 1].stamp) != DayOf(s.stamp) && Doubtful(day, Some(seen[i - 1].stamp),
                                                                                         s.stamp) ==>
          !s.check.calling)
  }

  /** The day was observed and no look casts doubt on its count. */
  ghost predicate Covered(kind: Kind, seen: seq<Seen>, day: int, gap: int) {
    (exists i :: IsOn(seen, i, day)) && forall i :: 0 <= i < |seen| ==> Fine(kind, seen, i, day, gap)
  }

  // ---------------------------------------------------------------- coverage, look by look

  /** Look `j` is the newest before look `i` that read a batch. */
  predicate IsLastRead(seen: seq<Seen>, i: int, j: int) {
    0 <= j < i <= |seen| && seen[j].check.read.Some? && forall k :: j < k < i ==> seen[k].check.read.None?
  }

  /** When what look `j` knows of the history was current. */
  function AsOf(seen: seq<Seen>, j: int): Stamp
    requires 0 <= j < |seen|
  {
    seen[j].stamp - if seen[j].check.age.Some? then seen[j].check.age.value else 0
  }

  /** On the day a look has to be stored, the first within a minute, and all it showed of the count dated. */
  predicate VouchesFor(kind: Kind, s: Seen, first: bool) {
    && s.stored && (first ==> s.stamp % 86_400_000_000 / 1_000_000 <= 60)
    && (kind == OfCalls && s.check.read.Some? ==> !s.check.read.value.undated)
    && (kind == OfVoicemail ==> s.check.voice && (s.check.read.Some? ==> !s.check.read.value.vague))
  }

  /** The history is ready, recent, no older than the last read and not too much newer, and read in full. */
  ghost predicate KeepsUp(kind: Kind, seen: seq<Seen>, i: int, gap: int)
    requires 0 <= i < |seen|
  {
    var c := seen[i].check;
    && c.ready && (c.age.Some? ==> c.age.value <= gap)
    && (forall j :: IsLastRead(seen, i, j) ==> 0 <= AsOf(seen, i) - AsOf(seen, j) <= gap)
    && (c.read.Some? ==> !c.read.value.crowded && (kind == OfCalls ==> c.read.value.anchored))
  }

  /** What coverage asks of look `i`: on the day, and later up to the first read after it. */
  ghost predicate Watches(kind: Kind, seen: seq<Seen>, i: int, day: int, gap: int)
    requires 0 <= i < |seen|
  {
    var today := seen[i].stamp / 86_400_000_000;
    && (today == day ==> VouchesFor(kind, seen[i], i == 0 || seen[i - 1].stamp / 86_400_000_000 != day))
    && (today == day || (day < today && ReadUpTo(seen, i, day)) ==> KeepsUp(kind, seen, i, gap))
    && (kind == OfCalls && CrossesMidnight(seen, i, day) ==> !seen[i].check.calling)
  }

  /** What was read last goes up to the day or ends before it. */
  ghost predicate ReadUpTo(seen: seq<Seen>, i: int, day: int) {
    exists j :: IsLastRead(seen, i, j) && AsOf(seen, j) / 86_400_000_000 <= day
  }

  /** The look is the first on the day, or the first after it. */
  predicate CrossesMidnight(seen: seq<Seen>, i: int, day: int)
    requires 0 <= i < |seen|
  {
    && 0 < i && seen[i - 1].stamp / 86_400_000_000 != seen[i].stamp / 86_400_000_000
    && (seen[i].stamp / 86_400_000_000 == day ||
        (day < seen[i].stamp / 86_400_000_000 && seen[i - 1].stamp / 86_400_000_000 <= day))
  }

  lemma {:induction false} LastReadIsSaid(seen: seq<Seen>, i: nat)
    requires i <= |seen|
    ensures LastRead(seen[..i]).Some? <==> exists j :: IsLastRead(seen, i, j)
    ensures forall j :: IsLastRead(seen, i, j) ==> LastRead(seen[..i]) == Some(AsOf(seen, j))
  {
    if i > 0 {
      assert seen[..i][..i - 1] == seen[..i - 1];
      if seen[i - 1].check.read.Some? {
        assert IsLastRead(seen, i, i - 1);
      } else {
        LastReadIsSaid(seen, i - 1);
        assert LastRead(seen[..i]) == LastRead(seen[..i - 1]);
        forall j ensures IsLastRead(seen, i, j) <==> IsLastRead(seen, i - 1, j) {
        }
        hide IsLastRead, LastRead;
        var n := i - 1;
        if j :| IsLastRead(seen, n, j) { assert IsLastRead(seen, i, j); }
        if j :| IsLastRead(seen, i, j) { assert IsLastRead(seen, n, j); }
      }
    }
  }

  lemma FineIsSaid(kind: Kind, seen: seq<Seen>, i: int, day: int, gap: int)
    requires 0 <= i < |seen|
    ensures DayOf(seen[i].stamp) == seen[i].stamp / 86_400_000_000
    ensures Fine(kind, seen, i, day, gap) <==> Watches(kind, seen, i, day, gap)
  {
    LastReadIsSaid(seen, i);
    var last := LastRead(seen[..i]);
    hide LastRead, IsLastRead;
    assert ReadTime(seen[i]) == AsOf(seen, i);
    if last.Some? {
      var j :| IsLastRead(seen, i, j);
      assert ReadUpTo(seen, i, day) <==> DayOf(AsOf(seen, j)) <= day;
    }
    assert Doubtful(day, last, seen[i].stamp) <==>
      DayOf(seen[i].stamp) == day || (day < DayOf(seen[i].stamp) && ReadUpTo(seen, i, day));
    assert ReadsOn(kind, last, seen[i], gap) <==> KeepsUp(kind, seen, i, gap);
  }

  /** A day's count is covered exactly when it was looked at and every look there was watched it. */
  lemma CoveredIffWatched(kind: Kind, seen: seq<Seen>, day: int, gap: int)
    ensures Covered(kind, seen, day, gap) <==>
      && (exists i :: 0 <= i < |seen| && seen[i].stamp / 86_400_000_000 == day)
      && forall i :: 0 <= i < |seen| ==> Watches(kind, seen, i, day, gap)
  {
    forall i | 0 <= i < |seen| ensures Fine(kind, seen, i, day, gap) <==> Watches(kind, seen, i, day, gap) {
      FineIsSaid(kind, seen, i, day, gap);
    }
    forall i ensures IsOn(seen, i, day) <==> 0 <= i < |seen| && seen[i].stamp / 86_400_000_000 == day {
    }
    hide Fine, Watches, IsOn;
    if exists i :: 0 <= i < |seen| && seen[i].stamp / 86_400_000_000 == day {
      var i :| 0 <= i < |seen| && seen[i].stamp / 86_400_000_000 == day;
      assert IsOn(seen, i, day);
    }
  }

  lemma FinePrefix(kind: Kind, seen: seq<Seen>, s: Seen, i: int, day: int, gap: int)
    requires 0 <= i < |seen|
    ensures Fine(kind, seen + [s], i, day, gap) <==> Fine(kind, seen, i, day, gap)
  {
    assert (seen + [s])[..i] == seen[..i];
  }

  lemma FineBefore(kind: Kind, seen: seq<Seen>, s: Seen, i: int, gap: int)
    requires Ordered(seen + [s]) && !LastOn(seen, DayOf(s.stamp)) && 0 <= i < |seen|
    ensures Fine(kind, seen, i, DayOf(s.stamp), gap)
  {
    var day := DayOf(s.stamp);
    NoneBefore(seen, s, day);
    assert (seen + [s])[i] == seen[i] && (seen + [s])[|seen|] == s;
    DaysInOrder(seen[i].stamp, s.stamp);
    assert !IsOn(seen, i, day);
    hide Sound, ReadsOn, LastRead;
  }

  /** The verdict can be kept up to date one look at a time. */
  lemma CoveredStep(kind: Kind, seen: seq<Seen>, s: Seen, day: int, gap: int)
    requires Ordered(seen + [s])
    ensures Covered(kind, seen + [s], day, gap) <==>
      ((DayOf(s.stamp) == day && !LastOn(seen, day)) || Covered(kind, seen, day, gap)) && Fine(kind, seen + [s],
                                                                                               |seen|, day, gap)
  {
    var more := seen + [s];
    OneMore(seen, s, day);
    hide Fine;
    forall i | 0 <= i < |seen| ensures Fine(kind, more, i, day, gap) <==> Fine(kind, seen, i, day, gap) {
      FinePrefix(kind, seen, s, i, day, gap);
    }
    if DayOf(s.stamp) == day && !LastOn(seen, day) {
      assert IsOn(more, |seen|, day);
      forall i | 0 <= i < |seen| ensures Fine(kind, seen, i, day, gap) { FineBefore(kind, seen, s, i, gap); }
    } else if exists i :: IsOn(more, i, day) {
      var i :| IsOn(more, i, day);
      assert IsOn(seen, if i == |seen| then |seen| - 1 else i, day);
    }
    if exists i :: IsOn(seen, i, day) {
      var i :| IsOn(seen, i, day);
      assert IsOn(more, i, day);
    }
  }

  /**
   What is saved now and what comes later: the flag of a day that was complete in the saved history
   is still up exactly when none of the later looks casts doubt on the day.
   */
  lemma {:induction false} StillCoveredIff(kind: Kind, saved: seq<Seen>, seen: seq<Seen>, day: int, gap: int)
    requires saved <= seen && Ordered(seen) && Covered(kind, saved, day, gap)
    ensures Covered(kind, seen, day, gap) <==> forall i :: |saved| <= i < |seen| ==> Fine(kind, seen, i, day, gap)
  {
    forall i | 0 <= i < |saved| ensures Fine(kind, seen, i, day, gap) {
      assert seen[..i] == saved[..i];
      assert Fine(kind, saved, i, day, gap);
    }
    var i :| IsOn(saved, i, day);
    assert IsOn(seen, i, day);
  }
}
