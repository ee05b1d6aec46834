/**
 That a refresh refreshes, over every run: what a refresh that is over has done in between, why a call
 ended without success, and that no call is ever stuck.
 */
module SnapshotRefresh {
  import opened Options
  import opened SnapshotRuntime

  /** Generation `g` was current after `i` steps. */
  ghost predicate SeenAt(steps: seq<Step>, i: nat, g: nat) {
    i <= |steps| && Run(EMPTY, steps[..i]).generation == g
  }

  /** The `i`-th step is one of `t`; it raises the generation by one, to `g`, and empties the cache. */
  ghost predicate PublishedAt(steps: seq<Step>, i: nat, t: Thread, g: nat) {
    && 0 < i <= |steps| && steps[i - 1].thread == t
    && Run(EMPTY, steps[..i - 1]).generation + 1 == g == Run(EMPTY, steps[..i]).generation
    && Run(EMPTY, steps[..i]).payloads == map[]
  }

  /** In the `i`-th step what `t` was collecting, or building, failed. */
  ghost predicate FailedAt(steps: seq<Step>, i: nat, t: Thread, building: bool) {
    && 0 < i <= |steps| && steps[i - 1] == Move(t, false)
    && var w := Run(EMPTY, steps[..i - 1]);
       t in w.threads && (w.threads[t].Collecting? || (building && w.threads[t].Building?))
  }

  ghost predicate SawWithin(steps: seq<Step>, from: nat, to: nat, g: nat) {
    exists i :: from <= i <= to && SeenAt(steps, i, g)
  }

  ghost predicate PublishedWithin(steps: seq<Step>, from: nat, to: nat, t: Thread, g: nat) {
    exists i :: from < i <= to && PublishedAt(steps, i, t, g)
  }

  ghost predicate FailedWithin(steps: seq<Step>, from: nat, to: nat, t: Thread, building: bool) {
    exists i :: from < i <= to && FailedAt(steps, i, t, building)
  }

  /** A refresh for a read, or one that asks for it, is content with what there is. */
  predicate Contented(c: Call) { c.Home? || c.onlyIfMissing }

  /** What a refresh did between its beginning and its end. */
  ghost predicate Explained(steps: seq<Step>, r: Refreshed) {
    && r.call.begun <= r.ended <= |steps| && SawWithin(steps, r.call.begun, r.ended, r.seen)
    && match r.outcome
       case Found => Contented(r.call) && r.seen > 0
       case Published(g) =>
         && (Contented(r.call) ==> r.seen == 0) && g == r.seen + 1
         && PublishedWithin(steps, r.call.begun, r.ended, r.thread, g)
       case Failed =>
         && (Contented(r.call) ==> r.seen == 0) && FailedWithin(steps, r.call.begun, r.ended, r.thread, false)
  }

  /** A read without an answer ended with, or after, a failure of its own. */
  ghost predicate Accounted(steps: seq<Step>, u: Unanswered) {
    u.begun <= u.ended < |steps| && FailedWithin(steps, u.begun, u.ended + 1, u.thread, true)
  }

  /** What a refresh has done so far. */
  ghost predicate Underway(steps: seq<Step>, t: Thread, pc: Pc) {
    pc.Collecting? || pc.Publishing? || pc.Closing? ==>
      && pc.call.begun <= |steps| && SawWithin(steps, pc.call.begun, |steps|, pc.seen)
      && (Contented(pc.call) ==> pc.seen == 0)
      && (pc.Closing? ==>
            if pc.published.Some?
            then pc.published.value == pc.seen + 1 &&
                 PublishedWithin(steps, pc.call.begun, |steps|, t, pc.published.value)
            else FailedWithin(steps, pc.call.begun, |steps|, t, false))
  }

  lemma {:induction false} RunLast(w: World, steps: seq<Step>)
    requires steps != []
    ensures Run(w, steps) == Next(Run(w, steps[..|steps| - 1]), steps[|steps| - 1])
    decreases |steps|
  {
    var n := |steps| - 1;
    hide Next;
    if n == 0 {
      assert Run(w, steps) == Run(Next(w, steps[0]), []);
    } else {
      assert steps[..n][0] == steps[0] && steps[..n][1..] == steps[1..][..n - 1];
      RunLast(Next(w, steps[0]), steps[1..]);
    }
  }

  // ---------------------------------------------------------------- what was seen stays seen

  lemma SawStays(steps: seq<Step>, s: Step, from: nat, to: nat, later: nat, g: nat)
    requires SawWithin(steps, from, to, g) && to <= |steps| && to <= later
    ensures SawWithin(steps + [s], from, later, g)
  {
    var i :| from <= i <= to && SeenAt(steps, i, g);
    assert (steps + [s])[..i] == steps[..i];
    assert SeenAt(steps + [s], i, g);
  }

  lemma PublishedStays(steps: seq<Step>, s: Step, from: nat, to: nat, later: nat, t: Thread, g: nat)
    requires PublishedWithin(steps, from, to, t, g) && to <= later
    ensures PublishedWithin(steps + [s], from, later, t, g)
  {
    var i :| from < i <= to && PublishedAt(steps, i, t, g);
    assert (steps + [s])[..i] == steps[..i] && (steps + [s])[..i - 1] == steps[..i - 1];
    assert PublishedAt(steps + [s], i, t, g);
  }

  lemma FailedStays(steps: seq<Step>, s: Step, from: nat, to: nat, later: nat, t: Thread, building: bool, more: bool)
    requires FailedWithin(steps, from, to, t, building) && to <= later && (building ==> more)
    ensures FailedWithin(steps + [s], from, later, t, more)
  {
    var i :| from < i <= to && FailedAt(steps, i, t, building);
    assert (steps + [s])[..i - 1] == steps[..i - 1];
    assert FailedAt(steps + [s], i, t, more);
  }

  lemma ExplainedStays(steps: seq<Step>, s: Step, r: Refreshed)
    requires Explained(steps, r)
    ensures Explained(steps + [s], r)
  {
    SawStays(steps, s, r.call.begun, r.ended, r.ended, r.seen);
    match r.outcome {
      case Found =>
      case Published(g) => PublishedStays(steps, s, r.call.begun, r.ended, r.ended, r.thread, g);
      case Failed => FailedStays(steps, s, r.call.begun, r.ended, r.ended, r.thread, false, false);
    }
    hide SawWithin, PublishedWithin, FailedWithin;
  }

  lemma UnderwayStays(steps: seq<Step>, s: Step, t: Thread, pc: Pc)
    requires Underway(steps, t, pc)
    ensures Underway(steps + [s], t, pc)
  {
    var n := |steps|;
    if pc.Collecting? || pc.Publishing? || pc.Closing? {
      SawStays(steps, s, pc.call.begun, n, n + 1, pc.seen);
      if pc.Closing? {
        if pc.published.Some? {
          PublishedStays(steps, s, pc.call.begun, n, n + 1, t, pc.published.value);
        } else {
          FailedStays(steps, s, pc.call.begun, n, n + 1, t, false, false);
        }
      }
    }
    hide SawWithin, PublishedWithin, FailedWithin;
  }

  // ---------------------------------------------------------------- one step

  ghost predicate AllTold(steps: seq<Step>) {
    var w := Run(EMPTY, steps);
    && Inv(w) && Recorded(w) && Now(w) == |steps|
    && (forall k :: 0 <= k < |w.refreshes| ==> Explained(steps, w.refreshes[k]))
    && (forall k :: 0 <= k < |w.unanswered| ==> Accounted(steps, w.unanswered[k]))
    && (forall t :: t in w.threads ==> Underway(steps, t, w.threads[t]))
  }

  /** The step of a thread that looks, collects, publishes or fails. */
  lemma OwnUnderway(steps: seq<Step>, t: Thread, ok: bool)
    requires AllTold(steps) && t in Run(EMPTY, steps).threads
    ensures var w' := Run(EMPTY, steps + [Move(t, ok)]); t in w'.threads ==>
      Underway(steps + [Move(t, ok)], t, w'.threads[t])
  {
    var s, n, w := Move(t, ok), |steps|, Run(EMPTY, steps);
    var more := steps + [s];
    var pc := w.threads[t];
    assert more[..n] == steps && more[n] == s && more[..n + 1] == more;
    RunLast(EMPTY, more);
    assert ThreadInv(w, t) && Underway(steps, t, pc);
    UnderwayStays(steps, s, t, pc);
    var w' := Run(EMPTY, more);
    hide Inv, Run, Underway, ThreadInv;
    if t in w'.threads { OwnUnderwayCase(steps, t, ok, w, w'); }
  }

  /** What `t` does in the step after `steps`. */
  ghost predicate Moves(steps: seq<Step>, t: Thread, ok: bool, w: World, w': World) {
    && w == Run(EMPTY, steps) && w' == Run(EMPTY, steps + [Move(t, ok)]) == Next(w, Move(t, ok))
    && t in w.threads && Now(w) == |steps|
  }

  lemma Slices(steps: seq<Step>, s: Step)
    ensures (steps + [s])[..|steps|] == steps && (steps + [s])[|steps|] == s
    ensures (steps + [s])[..|steps| + 1] == steps + [s]
  {
  }

  lemma CheckUnderway(steps: seq<Step>, t: Thread, ok: bool, w: World, w': World)
    requires Moves(steps, t, ok, w, w') && t in w'.threads && w.threads[t].Check? && w.threads[t].call.begun <= |steps|
    ensures Underway(steps + [Move(t, ok)], t, w'.threads[t])
  {
    Slices(steps, Move(t, ok));
    assert SeenAt(steps + [Move(t, ok)], |steps|, w.generation);
    hide Run;
  }

  lemma CollectingUnderway(steps: seq<Step>, t: Thread, ok: bool, w: World, w': World)
    requires Moves(steps, t, ok, w, w') && t in w'.threads && w.threads[t].Collecting?
    requires w.threads[t].call.begun <= |steps|
    requires Underway(steps + [Move(t, ok)], t, w.threads[t])
    ensures Underway(steps + [Move(t, ok)], t, w'.threads[t])
  {
    Slices(steps, Move(t, ok));
    if !ok { assert FailedAt(steps + [Move(t, ok)], |steps| + 1, t, false); }
    hide Run, SawWithin;
  }

  lemma PublishingUnderway(steps: seq<Step>, t: Thread, ok: bool, w: World, w': World)
    requires Moves(steps, t, ok, w, w') && t in w'.threads && w.threads[t].Publishing?
    requires w.threads[t].seen == w.generation
    requires Underway(steps + [Move(t, ok)], t, w.threads[t])
    ensures Underway(steps + [Move(t, ok)], t, w'.threads[t])
  {
    Slices(steps, Move(t, ok));
    assert PublishedAt(steps + [Move(t, ok)], |steps| + 1, t, w.generation + 1);
    hide Run, SawWithin;
  }

  lemma MoveIs(w: World, t: Thread, ok: bool)
    requires t in w.threads
    ensures var pc := w.threads[t];
      Next(w, Move(t, ok)) == Record(if Refreshes(pc) then AdvanceRefresh(w, t, pc, ok)
                                     else if pc.call.Home? then AdvanceRead(w, t, pc, ok) else w)
  {
    hide AdvanceRead, AdvanceRefresh;
  }

  lemma NothingUnderway(w: World, t: Thread, ok: bool)
    requires t in w.threads
    requires var pc := w.threads[t]; !pc.Check? && !pc.Collecting? && !pc.Publishing?
    ensures var w' := Next(w, Move(t, ok));
      t in w'.threads ==> var pc := w'.threads[t]; !pc.Collecting? && !pc.Publishing? && !pc.Closing?
  {
    MoveIs(w, t, ok);
    hide Next;
    if Refreshes(w.threads[t]) { hide AdvanceRead; } else { hide AdvanceRefresh; }
  }

  lemma OwnUnderwayCase(steps: seq<Step>, t: Thread, ok: bool, w: World, w': World)
    requires Moves(steps, t, ok, w, w') && t in w'.threads && ThreadInv(w, t)
    requires Underway(steps + [Move(t, ok)], t, w.threads[t])
    ensures Underway(steps + [Move(t, ok)], t, w'.threads[t])
  {
    var pc := w.threads[t];
    if pc.Check? {
      CheckUnderway(steps, t, ok, w, w');
    } else if pc.Collecting? {
      CollectingUnderway(steps, t, ok, w, w');
    } else if pc.Publishing? {
      PublishingUnderway(steps, t, ok, w, w');
    } else {
      NothingUnderway(w, t, ok);
      hide Run, Next, ThreadInv, SawWithin, PublishedWithin, FailedWithin;
    }
  }

  // ---------------------------------------------------------------- what is over

  /** A step of `t` logs at most one refresh, and that is explained. */
  /** What a step of `t` adds to the record of refreshes. */
  function Logged(w: World, t: Thread): seq<Refreshed>
    requires t in w.threads
  {
    var pc := w.threads[t];
    if pc.Check? && OnlyIfMissing(pc.call) && w.generation != 0 then [Refreshed(t, pc.call, w.generation, Found,
                                                                                Now(w))]
    else if pc.Closing? then [Refreshed(t, pc.call, pc.seen, OutcomeOf(pc), Now(w))]
    else []
  }

  function OutcomeOf(pc: Pc): Outcome
    requires pc.Closing?
  {
    if pc.published.Some? then Published(pc.published.value) else Failed
  }

  lemma LogsRefreshes(w: World, t: Thread, ok: bool)
    requires t in w.threads
    ensures Next(w, Move(t, ok)).refreshes == w.refreshes + Logged(w, t)
  {
    MoveIs(w, t, ok);
    hide Next;
    if Refreshes(w.threads[t]) { hide AdvanceRead; } else { hide AdvanceRefresh; }
  }

  /** And to that of reads without an answer. */
  function LoggedUnanswered(w: World, t: Thread, ok: bool): seq<Unanswered>
    requires t in w.threads
  {
    var pc := w.threads[t];
    if pc.call.Home? && ((pc.Closing? && pc.published.None?) ||
                         (pc.Look? && pc.call.hours !in w.payloads && w.generation == 0)
                         || (pc.Building? && !ok))
    then [Unanswered(t, pc.call.begun, Now(w))] else []
  }

  lemma LogsUnanswered(w: World, t: Thread, ok: bool)
    requires t in w.threads
    ensures Next(w, Move(t, ok)).unanswered == w.unanswered + LoggedUnanswered(w, t, ok)
  {
    MoveIs(w, t, ok);
    hide Next;
    if Refreshes(w.threads[t]) { hide AdvanceRead; } else { hide AdvanceRefresh; }
  }

  lemma RefreshTold(steps: seq<Step>, t: Thread, ok: bool, w: World, w': World)
    requires Moves(steps, t, ok, w, w') && ThreadInv(w, t) && Underway(steps, t, w.threads[t])
    ensures w'.refreshes == w.refreshes + Logged(w, t) && forall r :: r in Logged(w, t) ==> Explained(steps, r)
  {
    LogsRefreshes(w, t, ok);
    var pc := w.threads[t];
    assert pc.call.begun <= |steps|;
    hide Run, Next, ThreadInv;
    if pc.Check? && OnlyIfMissing(pc.call) && w.generation != 0 {
      FoundTold(steps, t, w, pc.call);
    } else if pc.Closing? {
      ClosingTold(steps, t, w);
    }
    hide Explained, Underway;
  }

  lemma FoundTold(steps: seq<Step>, t: Thread, w: World, c: Call)
    requires w == Run(EMPTY, steps) && Contented(c) && w.generation > 0 && c.begun <= |steps|
    ensures Explained(steps, Refreshed(t, c, w.generation, Found, |steps|))
  {
    assert steps[..|steps|] == steps;
    assert SeenAt(steps, |steps|, w.generation);
  }

  lemma ClosingTold(steps: seq<Step>, t: Thread, w: World)
    requires t in w.threads && w.threads[t].Closing? && Underway(steps, t, w.threads[t])
    ensures var pc := w.threads[t];
      Explained(steps, Refreshed(t, pc.call, pc.seen, OutcomeOf(pc), |steps|))
  {
    hide SawWithin, PublishedWithin, FailedWithin;
  }

  lemma UnansweredTold(steps: seq<Step>, t: Thread, ok: bool, w: World, w': World)
    requires Moves(steps, t, ok, w, w') && ThreadInv(w, t) && Underway(steps, t, w.threads[t])
    ensures w'.unanswered == w.unanswered + LoggedUnanswered(w, t, ok)
    ensures forall u :: u in LoggedUnanswered(w, t, ok) ==> Accounted(steps + [Move(t, ok)], u)
  {
    var s, pc := Move(t, ok), w.threads[t];
    LogsUnanswered(w, t, ok);
    Slices(steps, s);
    assert pc.call.begun <= |steps| && (pc.Look? ==> w.generation > 0);
    hide Next, ThreadInv;
    if pc.Building? && !ok {
      assert FailedAt(steps + [s], |steps| + 1, t, true);
    } else if pc.Closing? && pc.published.None? {
      FailedStays(steps, s, pc.call.begun, |steps|, |steps| + 1, t, false, true);
    }
    hide Run, SawWithin;
  }

  lemma OthersKeepRecords(w: World, s: Step)
    requires s.Start? || s.thread !in w.threads
    ensures Next(w, s).refreshes == w.refreshes && Next(w, s).unanswered == w.unanswered
    ensures forall t :: t in Next(w, s).threads && t !in w.threads ==>
      Next(w, s).threads[t].WaitCollect? || Next(w, s).threads[t].WaitBuild?
    ensures forall t :: t in w.threads ==> t in Next(w, s).threads && Next(w, s).threads[t] == w.threads[t]
  {
  }

  /** Every thread but the one that moves is where it was. */
  lemma OthersStay(w: World, s: Step, u: Thread)
    requires Inv(w) && u != s.thread
    ensures u in Next(w, s).threads <==> u in w.threads
    ensures u in w.threads ==> Next(w, s).threads[u] == w.threads[u]
  {
    match s {
      case Start(t, c) => if t !in w.threads { BeginFrame(w, t, c); }
      case Move(t, ok) => if t in w.threads { assert ThreadInv(w, t); StepFrame(w, t, ok); }
    }
    hide Begin, Advance, LockInv, CacheInv, BuildInv, ThreadInv;
  }

  lemma TellThreads(steps: seq<Step>, s: Step)
    requires AllTold(steps)
    ensures var w' := Run(EMPTY, steps + [s]); forall t :: t in w'.threads ==> Underway(steps + [s], t, w'.threads[t])
  {
    var w, w' := Run(EMPTY, steps), Run(EMPTY, steps + [s]);
    Slices(steps, s);
    RunLast(EMPTY, steps + [s]);
    forall t | t in w'.threads ensures Underway(steps + [s], t, w'.threads[t]) {
      if t != s.thread {
        hide Run, Next, Underway;
        OthersStay(w, s, t);
        UnderwayStays(steps, s, t, w.threads[t]);
      } else if s.Move? && t in w.threads {
        hide Underway;
        OwnUnderway(steps, t, s.ok);
      } else {
        OthersKeepRecords(w, s);
        hide Run, Next;
        if t in w.threads { UnderwayStays(steps, s, t, w.threads[t]); }
      }
    }
  }

  lemma TellRefreshes(steps: seq<Step>, s: Step)
    requires AllTold(steps)
    ensures var w' := Run(EMPTY, steps + [s]); forall k :: 0 <= k < |w'.refreshes| ==>
      Explained(steps + [s], w'.refreshes[k])
  {
    var w, w' := Run(EMPTY, steps), Run(EMPTY, steps + [s]);
    Slices(steps, s);
    RunLast(EMPTY, steps + [s]);
    hide Run, Explained, Underway;
    if s.Move? && s.thread in w.threads {
      assert ThreadInv(w, s.thread);
      hide Inv, ThreadInv, Next;
      RefreshTold(steps, s.thread, s.ok, w, w');
    } else {
      OthersKeepRecords(w, s);
    }
    hide Inv, Next;
    forall k | 0 <= k < |w'.refreshes| ensures Explained(steps + [s], w'.refreshes[k]) {
      assert k < |w.refreshes| ==> w'.refreshes[k] == w.refreshes[k];
      ExplainedStays(steps, s, w'.refreshes[k]);
    }
  }

  lemma TellUnanswered(steps: seq<Step>, s: Step)
    requires AllTold(steps)
    ensures var w' := Run(EMPTY, steps + [s]); forall k :: 0 <= k < |w'.unanswered| ==>
      Accounted(steps + [s], w'.unanswered[k])
  {
    var w, w' := Run(EMPTY, steps), Run(EMPTY, steps + [s]);
    Slices(steps, s);
    RunLast(EMPTY, steps + [s]);
    hide Run, Underway, FailedWithin;
    if s.Move? && s.thread in w.threads {
      assert ThreadInv(w, s.thread);
      hide Inv, ThreadInv, Next;
      UnansweredTold(steps, s.thread, s.ok, w, w');
    } else {
      OthersKeepRecords(w, s);
    }
    hide Inv, Next;
    forall k | 0 <= k < |w'.unanswered| ensures Accounted(steps + [s], w'.unanswered[k]) {
      if k < |w.unanswered| {
        var u := w.unanswered[k];
        assert w'.unanswered[k] == u;
        FailedStays(steps, s, u.begun, u.ended + 1, u.ended + 1, u.thread, true, true);
      }
    }
  }

  lemma {:induction false} AllIsTold(steps: seq<Step>)
    ensures AllTold(steps)
    decreases |steps|
  {
    InvAtAll(steps);
    hide Inv, Recorded, Explained, Accounted, Underway;
    if steps != [] {
      var n := |steps| - 1;
      assert steps == steps[..n] + [steps[n]];
      AllIsTold(steps[..n]);
      TellThreads(steps[..n], steps[n]);
      TellRefreshes(steps[..n], steps[n]);
      TellUnanswered(steps[..n], steps[n]);
      hide Run;
    }
  }

  lemma InvAtAll(steps: seq<Step>)
    ensures var w := Run(EMPTY, steps); Inv(w) && Recorded(w) && Now(w) == |steps|
  {
    RunInv(EMPTY, steps);
    hide Run;
  }

  // ---------------------------------------------------------------- the theorems

  /**
   A refresh that asks for a new publication, and does not fail, publishes one itself between its
   beginning and its end: the next generation after the one it found, with an empty cache.
   */
  lemma RefreshesRefresh(steps: seq<Step>, k: nat)
    requires k < |Run(EMPTY, steps).refreshes|
    requires var c := Run(EMPTY, steps).refreshes[k].call; c.Refresh? && !c.onlyIfMissing
    ensures var r := Run(EMPTY, steps).refreshes[k];
      if r.outcome.Failed? then FailedWithin(steps, r.call.begun, r.ended, r.thread, false)
      else r.outcome == Published(r.seen + 1) &&
           PublishedWithin(steps, r.call.begun, r.ended, r.thread, r.seen + 1)
    ensures var r := Run(EMPTY, steps).refreshes[k]; SawWithin(steps, r.call.begun, r.ended, r.seen)
  {
    AllIsTold(steps);
    var r := Run(EMPTY, steps).refreshes[k];
    assert Explained(steps, r);
    hide Run, SawWithin, PublishedWithin, FailedWithin;
  }

  /** One that is content with what there is collects exactly if it found nothing under the lock. */
  lemma ContentedCollectsIffMissing(steps: seq<Step>, k: nat)
    requires k < |Run(EMPTY, steps).refreshes|
    requires var c := Run(EMPTY, steps).refreshes[k].call; c.Home? || c.onlyIfMissing
    ensures var r := Run(EMPTY, steps).refreshes[k];
      && SawWithin(steps, r.call.begun, r.ended, r.seen)
      && (r.seen > 0 <==> r.outcome == Found)
      && (r.outcome.Published? ==>
            r.outcome == Published(1) &&
            PublishedWithin(steps, r.call.begun, r.ended, r.thread, 1))
      && (r.outcome.Failed? ==> FailedWithin(steps, r.call.begun, r.ended, r.thread, false))
  {
    AllIsTold(steps);
    var r := Run(EMPTY, steps).refreshes[k];
    assert Explained(steps, r);
    hide Run, SawWithin, PublishedWithin, FailedWithin;
  }

  /** A read ends without an answer only if its own collection or its own rendering failed. */
  lemma UnansweredHasFailed(steps: seq<Step>, k: nat)
    requires k < |Run(EMPTY, steps).unanswered|
    ensures var u := Run(EMPTY, steps).unanswered[k];
      FailedWithin(steps, u.begun, u.ended + 1, u.thread, true)
  {
    AllIsTold(steps);
    assert Accounted(steps, Run(EMPTY, steps).unanswered[k]);
    hide Run, FailedWithin;
  }

  // ---------------------------------------------------------------- nobody is stuck

  /** How many steps of its own a call has still to make at most. */
  function Left(pc: Pc): nat {
    match pc
    case WaitCollect(_) => 9
    case Check(_) => 8
    case Collecting(_, _) => 7
    case Publishing(_, _) => 6
    case Closing(_, _, _) => 5
    case WaitBuild(_) => 4
    case Look(_) => 3
    case Building(_, _) => 2
    case Storing(_, _) => 1
  }

  /** The call waits for a lock that another one holds. */
  predicate Waiting(w: World, t: Thread)
    requires t in w.threads
  {
    (w.threads[t].WaitCollect? && w.collector.Some?) || (w.threads[t].WaitBuild? && w.builder.Some?)
  }

  /**
   Every step of a call that does not wait brings it nearer to its end, whether what it does succeeds or
   fails; and if calls are running, one of them does not wait.
   */
  lemma CallsEnd(steps: seq<Step>, t: Thread, ok: bool)
    requires t in Run(EMPTY, steps).threads
    ensures var w := Run(EMPTY, steps); var w' := Next(w, Move(t, ok));
      !Waiting(w, t) ==> t !in w'.threads || Left(w'.threads[t]) < Left(w.threads[t])
    ensures var w := Run(EMPTY, steps); exists u :: u in w.threads && !Waiting(w, u)
  {
    AllIsTold(steps);
    var w := Run(EMPTY, steps);
    if !Waiting(w, t) { StepEnds(w, t, ok); }
    SomeoneMoves(w, t);
    hide Run, AllTold, Waiting, Next, Left;
  }

  lemma StepEnds(w: World, t: Thread, ok: bool)
    requires Inv(w) && t in w.threads && !Waiting(w, t)
    ensures var w' := Next(w, Move(t, ok)); t !in w'.threads || Left(w'.threads[t]) < Left(w.threads[t])
  {
    assert ThreadInv(w, t);
    MoveIs(w, t, ok);
    if Refreshes(w.threads[t]) { RefreshEnds(w, t, ok); } else { ReadEnds(w, t, ok); }
    hide Inv, Next, AdvanceRead, AdvanceRefresh, CurrentWithin, Left, ThreadInv;
  }

  lemma RefreshEnds(w: World, t: Thread, ok: bool)
    requires t in w.threads && !Waiting(w, t) && Refreshes(w.threads[t])
    ensures var w' := AdvanceRefresh(w, t, w.threads[t], ok);
      t !in w'.threads || Left(w'.threads[t]) < Left(w.threads[t])
  {
  }

  lemma ReadEnds(w: World, t: Thread, ok: bool)
    requires t in w.threads && ThreadInv(w, t) && !Waiting(w, t) && !Refreshes(w.threads[t])
    ensures w.threads[t].call.Home?
    ensures var w' := AdvanceRead(w, t, w.threads[t], ok);
      t !in w'.threads || Left(w'.threads[t]) < Left(w.threads[t])
  {
    hide CurrentWithin;
  }

  lemma SomeoneMoves(w: World, t: Thread)
    requires Inv(w) && t in w.threads
    ensures exists u :: u in w.threads && !Waiting(w, u)
  {
    if Waiting(w, t) {
      var u := if w.threads[t].WaitCollect? then w.collector.value else w.builder.value;
      assert ThreadInv(w, t) && ThreadInv(w, u);
      assert !Waiting(w, u);
    }
  }
}
