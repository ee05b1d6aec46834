/**
 Generation-aware snapshot publication: any number of threads refresh and read,
 one collects at a time, one renders at a time, and every region guarded by the
 state lock is one atomic step.

 Publications are numbered; generation 0 means that none exists yet. A payload
 is identified by the generation it was built from.
 */
module SnapshotRuntime {
  import opened Options

  type Thread = nat
  type Hours = int

  /** A running call; it remembers after how many steps it began. */
  datatype Call = Refresh(onlyIfMissing: bool, begun: nat) | Home(hours: Hours, begun: nat)

  datatype Pc =
    | WaitCollect(call: Call)                  // before the collection lock
    | Check(call: Call)                        // holds it; about to look for a publication
    | Collecting(call: Call, seen: nat)        // `seen` is the generation it found when it looked
    | Publishing(call: Call, seen: nat)
    | Closing(call: Call, seen: nat, published: Option<nat>)   // about to reset the status and release the lock
    | WaitBuild(call: Call)                    // before the payload lock
    | Look(call: Call)                         // holds it; about to look for a cached payload
    | Building(call: Call, generation: nat)
    | Storing(call: Call, generation: nat)

  /** A read that returned: the generation of its payload, and the steps at which it began and ended. */
  datatype Result = Result(hours: Hours, generation: nat, begun: nat, ended: nat)

  /** How a refresh ended: with a publication it found, with one of its own, or without success. */
  datatype Outcome = Found | Published(generation: nat) | Failed

  /** A refresh that is over: what it found when it looked, its outcome, and the step at which it ended. */
  datatype Refreshed = Refreshed(thread: Thread, call: Call, seen: nat, outcome: Outcome, ended: nat)

  /** A read that ended without an answer. */
  datatype Unanswered = Unanswered(thread: Thread, begun: nat, ended: nat)

  /**
   The last six fields are records: `first` counts publications made for callers that found
   none, and `current[i]` is the generation that was current after `i` steps.
   */
  datatype World = World(
    generation: nat, payloads: map<Hours, nat>, collectionStarted: bool,
    collector: Option<Thread>, builder: Option<Thread>, threads: map<Thread, Pc>,
    results: seq<Result>, builds: multiset<(nat, Hours)>, first: nat, current: seq<nat>,
    refreshes: seq<Refreshed>, unanswered: seq<Unanswered>)

  datatype Step = Start(thread: Thread, call: Call) | Move(thread: Thread, ok: bool)

  const EMPTY := World(0, map[], false, None, None, map[], [], multiset{}, 0, [0], [], [])

  function Put(w: World, t: Thread, pc: Pc): World { w.(threads := w.threads[t := pc]) }

  function Leave(w: World, t: Thread): World { w.(threads := w.threads - {t}) }

  function Now(w: World): nat { if w.current == [] then 0 else |w.current| - 1 }

  function Return(w: World, t: Thread, call: Call, generation: nat): World
    requires call.Home?
  {
    Leave(w.(results := w.results + [Result(call.hours, generation, call.begun, Now(w))]), t)
  }

  /** The first step of a call. A read that finds a cached payload is done. */
  function Begin(w: World, t: Thread, c: Call): World {
    match c
    case Refresh(missing, _) => Put(w, t, WaitCollect(Refresh(missing, Now(w))))
    case Home(hours, _) =>
      var call := Home(hours, Now(w));
      if hours in w.payloads then Return(w, t, call, w.payloads[hours])
      else if w.generation == 0 then Put(w, t, WaitCollect(call))
      else Put(w, t, WaitBuild(call))
  }

  predicate OnlyIfMissing(c: Call) { c.Home? || c.onlyIfMissing }

  /** Where a call goes once its refresh is over. */
  function AfterRefresh(w: World, t: Thread, c: Call, seen: nat, outcome: Outcome): World {
    var free := w.(collector := None, refreshes := w.refreshes + [Refreshed(t, c, seen, outcome, Now(w))]);
    if c.Refresh? then Leave(free, t)
    else if outcome.Failed? then Unanswer(free, t, c)
    else Put(free, t, WaitBuild(c))
  }

  function Unanswer(w: World, t: Thread, c: Call): World {
    Leave(w.(unanswered := w.unanswered + [Unanswered(t, c.begun, Now(w))]), t)
  }

  predicate Collects(pc: Pc) { pc.Check? || pc.Collecting? || pc.Publishing? || pc.Closing? }
  predicate Builds(pc: Pc) { pc.Look? || pc.Building? || pc.Storing? }
  predicate Refreshes(pc: Pc) { pc.WaitCollect? || Collects(pc) }

  /** One step of a refresh. */
  function AdvanceRefresh(w: World, t: Thread, pc: Pc, ok: bool): World
    requires Refreshes(pc)
  {
    match pc
    case WaitCollect(c) => if w.collector.None? then Put(w.(collector := Some(t)), t, Check(c)) else w
    case Check(c) =>
      if OnlyIfMissing(c) && w.generation != 0 then AfterRefresh(w, t, c, w.generation, Found)
      else Put(w.(collectionStarted := true), t, Collecting(c, w.generation))
    case Collecting(c, seen) =>
      if ok then Put(w, t, Publishing(c, seen)) else Put(w, t, Closing(c, seen, None))
    case Publishing(c, seen) =>
      Put(w.(generation := w.generation + 1, payloads := map[], first := w.first + if OnlyIfMissing(c) then 1 else 0),
          t, Closing(c, seen, Some(w.generation + 1)))
    case Closing(c, seen, published) =>
      AfterRefresh(w.(collectionStarted := false), t, c, seen,
                   if published.Some? then Published(published.value) else Failed)
  }

  /** One step of a read that has a publication to render. */
  function AdvanceRead(w: World, t: Thread, pc: Pc, ok: bool): World
    requires !Refreshes(pc) && pc.call.Home?
  {
    var c := pc.call;
    var free := w.(builder := None);
    match pc
    case WaitBuild(_) => if w.builder.None? then Put(w.(builder := Some(t)), t, Look(c)) else w
    case Look(_) =>
      if c.hours in w.payloads then Return(free, t, c, w.payloads[c.hours])
      else if w.generation == 0 then Unanswer(free, t, c)
      else Put(w, t, Building(c, w.generation))
    case Building(_, g) =>
      if ok then Put(w.(builds := w.builds + multiset{(g, c.hours)}), t, Storing(c, g)) else Unanswer(free, t, c)
    case Storing(_, g) =>
      Return(if g == w.generation then free.(payloads := w.payloads[c.hours := g]) else free, t, c, g)
  }

  function Advance(w: World, t: Thread, ok: bool): World
    requires t in w.threads
  {
    var pc := w.threads[t];
    if Refreshes(pc) then AdvanceRefresh(w, t, pc, ok)
    else if pc.call.Home? then AdvanceRead(w, t, pc, ok)
    else w
  }

  function Act(w: World, s: Step): World {
    match s
    case Start(t, c) => if t in w.threads then w else Begin(w, t, c)
    case Move(t, ok) => if t in w.threads then Advance(w, t, ok) else w
  }

  function Record(w: World): World { w.(current := w.current + [w.generation]) }

  function Next(w: World, s: Step): World { Record(Act(w, s)) }

  function Run(w: World, steps: seq<Step>): World
    decreases |steps|
  {
    if steps == [] then w else Run(Next(w, steps[0]), steps[1..])
  }

  // ---------------------------------------------------------------- the invariant

  /** Generation `g` was current after some number of steps from `from` to `to`. */
  ghost predicate CurrentWithin(current: seq<nat>, from: nat, to: nat, g: nat) {
    exists i :: from <= i <= to && i < |current| && current[i] == g
  }

  /** What a thread knows at its place in the program. */
  ghost predicate ThreadInv(w: World, t: Thread)
    requires t in w.threads
  {
    var pc := w.threads[t];
    && (Collects(pc) <==> w.collector == Some(t))
    && (Builds(pc) <==> w.builder == Some(t))
    && (Builds(pc) || pc.WaitBuild? ==> pc.call.Home?)
    && pc.call.begun <= Now(w)
    && (pc.Collecting? || pc.Publishing? ==> pc.seen == w.generation)
    && (pc.Closing? && pc.published.Some? ==> pc.published.value == pc.seen + 1 == w.generation)
    && (pc.Closing? && pc.published.None? ==> pc.seen == w.generation)
    && (Builds(pc) || pc.WaitBuild? || (pc.Closing? && pc.published.Some?) ==> 0 < w.generation)
    && ((pc.Collecting? || pc.Publishing?) && OnlyIfMissing(pc.call) ==> w.generation == 0)
    && (pc.Building? || pc.Storing? ==>
          0 < pc.generation <= w.generation && CurrentWithin(w.current, pc.call.begun, Now(w), pc.generation))
    && (pc.Building? ==> w.builds[(pc.generation, pc.call.hours)] == 0)
    && (pc.Storing? ==> w.builds[(pc.generation, pc.call.hours)] > 0)
    && (pc.Building? && pc.generation == w.generation ==> pc.call.hours !in w.payloads)
  }

  /** A payload that was built is cached, about to be cached, or outdated. */
  ghost predicate BuildInv(w: World) {
    forall g, h :: w.builds[(g, h)] > 0 ==>
      && w.builds[(g, h)] == 1 && g <= w.generation
      && (g == w.generation ==> h in w.payloads || BeingStored(w, g, h))
  }

  ghost predicate BeingStored(w: World, g: nat, h: Hours) {
    w.builder.Some? && w.builder.value in w.threads && w.threads[w.builder.value].Storing? &&
    w.threads[w.builder.value].generation == g && w.threads[w.builder.value].call.Home? &&
    w.threads[w.builder.value].call.hours == h
  }

  ghost predicate LockInv(w: World) {
    && (w.collector.Some? ==> w.collector.value in w.threads)
    && (w.builder.Some? ==> w.builder.value in w.threads)
    && (w.collectionStarted <==> w.collector.Some? && !w.threads[w.collector.value].Check?)
  }

  ghost predicate CacheInv(w: World) {
    && (forall h :: h in w.payloads ==> w.payloads[h] == w.generation > 0)
    && w.first <= 1 && (w.generation == 0 ==> w.first == 0)
    && (forall k :: 0 <= k < |w.results| ==> Timely(w.current, w.results[k]))
    && (forall h :: h in w.payloads ==> w.builds[(w.payloads[h], h)] > 0)
    && (forall k :: 0 <= k < |w.results| ==> w.builds[(w.results[k].generation, w.results[k].hours)] > 0)
  }

  ghost predicate Timely(current: seq<nat>, r: Result) {
    0 < r.generation && r.begun <= r.ended && CurrentWithin(current, r.begun, r.ended, r.generation)
  }

  ghost predicate Recorded(w: World) { w.current != [] && w.current[Now(w)] == w.generation }

  ghost predicate Inv(w: World) {
    LockInv(w) && CacheInv(w) && BuildInv(w) && forall t :: t in w.threads ==> ThreadInv(w, t)
  }

  lemma BeginFrame(w: World, t: Thread, c: Call)
    requires LockInv(w) && t !in w.threads
    ensures Framed(w, Begin(w, t, c), t) && LockInv(Begin(w, t, c))
  {
  }

  lemma BeginOwn(w: World, t: Thread, c: Call)
    requires LockInv(w) && t !in w.threads
    ensures t in Begin(w, t, c).threads ==> ThreadInv(Begin(w, t, c), t)
  {
  }

  lemma BeginCache(w: World, t: Thread, c: Call)
    requires LockInv(w) && CacheInv(w) && BuildInv(w) && Recorded(w) && t !in w.threads
    ensures CacheInv(Begin(w, t, c)) && BuildInv(Begin(w, t, c))
  {
    if c.Home? && c.hours in w.payloads {
      hide LockInv;
      var call := Home(c.hours, Now(w));
      assert Timely(w.current, Result(c.hours, w.payloads[c.hours], Now(w), Now(w)));
      ReturnCache(w, t, call, w.payloads[c.hours]);
      BeginBuilds(w, t, c);
      hide CacheInv, BuildInv, Timely, Return;
    } else {
      BeginBuilds(w, t, c);
      hide Timely, BuildInv;
    }
  }

  lemma BeginBuilds(w: World, t: Thread, c: Call)
    requires LockInv(w) && BuildInv(w) && t !in w.threads
    ensures BuildInv(Begin(w, t, c))
  {
  }

  lemma BeginInv(w: World, t: Thread, c: Call)
    requires Inv(w) && Recorded(w) && t !in w.threads
    ensures Inv(Begin(w, t, c)) && Begin(w, t, c).current == w.current
  {
    BeginFrame(w, t, c);
    BeginOwn(w, t, c);
    BeginCache(w, t, c);
    hide Begin, ThreadInv, BuildInv, LockInv, CacheInv;
    var w' := Begin(w, t, c);
    forall u | u in w'.threads ensures ThreadInv(w', u) {
      if u != t { OtherInv(w, w', t, u); }
    }
  }

  /** What a step of `t` can change for the others. */
  ghost predicate Framed(w: World, w': World, t: Thread) {
    && w.generation <= w'.generation && w.current == w'.current
    && (w.generation != w'.generation ==> w.collector == Some(t) && w'.payloads == map[])
    && (w.builds != w'.builds ==> w.builder == Some(t))
    && (w.payloads != w'.payloads && w'.payloads != map[] ==> w.builder == Some(t))
    && forall u :: u != t ==>
         && (u in w.threads <==> u in w'.threads) && (u in w.threads ==> w'.threads[u] == w.threads[u])
         && (w.collector == Some(u) <==> w'.collector == Some(u))
         && (w.builder == Some(u) <==> w'.builder == Some(u))
  }

  lemma StepFrame(w: World, t: Thread, ok: bool)
    requires t in w.threads && ThreadInv(w, t)
    ensures Framed(w, Advance(w, t, ok), t)
  {
    if Refreshes(w.threads[t]) { RefreshFrame(w, t, ok); } else { ReadFrame(w, t, ok); }
  }

  lemma RefreshFrame(w: World, t: Thread, ok: bool)
    requires t in w.threads && ThreadInv(w, t) && Refreshes(w.threads[t])
    ensures Framed(w, AdvanceRefresh(w, t, w.threads[t], ok), t)
  {
  }

  lemma ReadFrame(w: World, t: Thread, ok: bool)
    requires t in w.threads && ThreadInv(w, t) && !Refreshes(w.threads[t])
    ensures Framed(w, AdvanceRead(w, t, w.threads[t], ok), t)
  {
  }

  lemma OtherInv(w: World, w': World, t: Thread, u: Thread)
    requires Framed(w, w', t) && u != t && u in w.threads && ThreadInv(w, u)
    ensures ThreadInv(w', u)
  {
  }

  lemma RefreshLocks(w: World, t: Thread, ok: bool)
    requires Inv(w) && t in w.threads && Refreshes(w.threads[t])
    ensures LockInv(AdvanceRefresh(w, t, w.threads[t], ok)) && CacheInv(AdvanceRefresh(w, t, w.threads[t], ok))
  {
    hide BuildInv;
    assert ThreadInv(w, t);
  }

  lemma ReadLocks(w: World, t: Thread, ok: bool)
    requires LockInv(w) && t in w.threads && ThreadInv(w, t) && !Refreshes(w.threads[t])
    ensures LockInv(AdvanceRead(w, t, w.threads[t], ok))
  {
  }

  lemma ReturnCache(w: World, t: Thread, c: Call, g: nat)
    requires CacheInv(w) && c.Home? && Timely(w.current, Result(c.hours, g, c.begun, Now(w)))
    requires w.builds[(g, c.hours)] > 0
    ensures CacheInv(Return(w, t, c, g))
  {
    hide Timely;
  }

  lemma ReadCache(w: World, t: Thread, ok: bool)
    requires CacheInv(w) && Recorded(w) && t in w.threads && ThreadInv(w, t) && !Refreshes(w.threads[t])
    ensures CacheInv(AdvanceRead(w, t, w.threads[t], ok))
  {
    if w.threads[t].Look? {
      LookCache(w, t, ok);
    } else if w.threads[t].Storing? {
      StoreCache(w, t, ok);
    }
    hide Timely, ThreadInv, Recorded, Return;
  }

  lemma LookCache(w: World, t: Thread, ok: bool)
    requires CacheInv(w) && Recorded(w) && t in w.threads && ThreadInv(w, t) && w.threads[t].Look?
    ensures CacheInv(AdvanceRead(w, t, w.threads[t], ok))
  {
    var c, free := w.threads[t].call, w.(builder := None);
    if c.hours in w.payloads {
      assert Timely(w.current, Result(c.hours, w.payloads[c.hours], c.begun, Now(w)));
      ReturnCache(free, t, c, w.payloads[c.hours]);
    }
    hide Timely, ThreadInv, Recorded, Return;
  }

  lemma StoreCache(w: World, t: Thread, ok: bool)
    requires CacheInv(w) && Recorded(w) && t in w.threads && ThreadInv(w, t) && w.threads[t].Storing?
    ensures CacheInv(AdvanceRead(w, t, w.threads[t], ok))
  {
    var c, g, free := w.threads[t].call, w.threads[t].generation, w.(builder := None);
    assert Timely(w.current, Result(c.hours, g, c.begun, Now(w)));
    ReturnCache(if g == w.generation then free.(payloads := w.payloads[c.hours := g]) else free, t, c, g);
    hide Timely, ThreadInv, Recorded, Return;
  }

  lemma RefreshBuilds(w: World, t: Thread, ok: bool)
    requires LockInv(w) && BuildInv(w) && t in w.threads && ThreadInv(w, t) && Refreshes(w.threads[t])
    ensures BuildInv(AdvanceRefresh(w, t, w.threads[t], ok))
  {
  }

  lemma ReadBuilds(w: World, t: Thread, ok: bool)
    requires LockInv(w) && BuildInv(w) && t in w.threads && ThreadInv(w, t) && !Refreshes(w.threads[t])
    ensures BuildInv(AdvanceRead(w, t, w.threads[t], ok))
  {
  }

  lemma RefreshOwn(w: World, t: Thread, ok: bool)
    requires LockInv(w) && t in w.threads && ThreadInv(w, t) && Refreshes(w.threads[t])
    ensures var w' := AdvanceRefresh(w, t, w.threads[t], ok); t in w'.threads ==> ThreadInv(w', t)
  {
  }

  lemma ReadOwn(w: World, t: Thread, ok: bool)
    requires Recorded(w) && LockInv(w) && BuildInv(w) && t in w.threads && ThreadInv(w, t) && !Refreshes(w.threads[t])
    ensures var w' := AdvanceRead(w, t, w.threads[t], ok); t in w'.threads ==> ThreadInv(w', t)
  {
  }

  lemma StepInv(w: World, t: Thread, ok: bool)
    requires Inv(w) && Recorded(w) && t in w.threads
    ensures Inv(Advance(w, t, ok)) && Advance(w, t, ok).current == w.current
  {
    assert ThreadInv(w, t);
    StepFrame(w, t, ok);
    if Refreshes(w.threads[t]) {
      RefreshLocks(w, t, ok); RefreshBuilds(w, t, ok); RefreshOwn(w, t, ok);
    } else {
      ReadLocks(w, t, ok); ReadCache(w, t, ok); ReadBuilds(w, t, ok); ReadOwn(w, t, ok);
    }
    hide AdvanceRefresh, AdvanceRead, ThreadInv, BuildInv, LockInv, CacheInv;
    var w' := Advance(w, t, ok);
    forall u | u in w'.threads ensures ThreadInv(w', u) {
      if u != t { OtherInv(w, w', t, u); }
    }
  }

  lemma RecordInv(w: World)
    requires Inv(w) && w.current != []
    ensures Inv(Record(w)) && Recorded(Record(w))
  {
    var w' := Record(w);
    assert LockInv(w') && BuildInv(w') by { hide ThreadInv, CacheInv; }
    forall t | t in w'.threads ensures ThreadInv(w', t) {
      hide BuildInv, CacheInv, LockInv;
      assert ThreadInv(w, t);
      var pc := w.threads[t];
      if pc.Building? || pc.Storing? {
        LaterStillCurrent(w.current, pc.call.begun, Now(w), pc.generation, w.generation);
      }
    }
    hide ThreadInv, BuildInv, LockInv;
    forall k | 0 <= k < |w'.results| ensures Timely(w'.current, w'.results[k]) {
      var r := w.results[k];
      assert Timely(w.current, r);
      LaterStillCurrent(w.current, r.begun, r.ended, r.generation, w.generation);
    }
  }

  lemma LaterStillCurrent(current: seq<nat>, from: nat, to: nat, g: nat, next: nat)
    requires CurrentWithin(current, from, to, g)
    ensures CurrentWithin(current + [next], from, to, g) && CurrentWithin(current + [next], from, to + 1, g)
  {
    var i :| from <= i <= to && i < |current| && current[i] == g;
    assert (current + [next])[i] == g;
  }

  lemma NextInv(w: World, s: Step)
    requires Inv(w) && Recorded(w)
    ensures Inv(Next(w, s)) && Recorded(Next(w, s)) && Next(w, s).current == w.current + [Next(w, s).generation]
  {
    hide Inv, Begin, Advance;
    match s {
      case Start(t, c) => if t !in w.threads { BeginInv(w, t, c); }
      case Move(t, ok) => if t in w.threads { StepInv(w, t, ok); }
    }
    RecordInv(Act(w, s));
  }

  lemma {:induction false} RunInv(w: World, steps: seq<Step>)
    requires Inv(w) && Recorded(w)
    ensures Inv(Run(w, steps)) && Recorded(Run(w, steps))
    ensures |Run(w, steps).current| == |w.current| + |steps|
    ensures forall i :: 0 <= i <= |steps| ==>
      Run(w, steps).current[|w.current| - 1 + i] == Run(w, steps[..i]).generation
    decreases |steps|
  {
    hide Inv, Next;
    if steps != [] {
      NextInv(w, steps[0]);
      var w' := Next(w, steps[0]);
      RunInv(w', steps[1..]);
      assert Run(w, steps) == Run(w', steps[1..]);
      forall i | 0 <= i <= |steps| ensures Run(w, steps).current[|w.current| - 1 + i] == Run(w, steps[..i]).generation {
        if i == 0 {
          RunKeepsRecord(w, steps);
        } else {
          assert steps[..i][0] == steps[0] && steps[..i][1..] == steps[1..][..i - 1];
          assert Run(w, steps[..i]) == Run(w', steps[1..][..i - 1]);
        }
      }
    }
  }

  lemma {:induction false} RunKeepsRecord(w: World, steps: seq<Step>)
    requires Inv(w) && Recorded(w)
    ensures w.current <= Run(w, steps).current
    decreases |steps|
  {
    hide Inv, Next;
    if steps != [] {
      NextInv(w, steps[0]);
      RunKeepsRecord(Next(w, steps[0]), steps[1..]);
    }
  }

  // ---------------------------------------------------------------- the theorems

  /**
   Every read, by any number of readers and refreshers, answers with a generation that was current during
   the call.
   */
  lemma ReadsAreTimely(steps: seq<Step>, k: nat)
    requires k < |Run(EMPTY, steps).results|
    ensures var r := Run(EMPTY, steps).results[k];
      exists i :: r.begun <= i <= r.ended && i <= |steps| && Run(EMPTY, steps[..i]).generation == r.generation > 0
  {
    RunInv(EMPTY, steps);
    var w := Run(EMPTY, steps);
    var r := w.results[k];
    assert Timely(w.current, r);
    var i :| r.begun <= i <= r.ended && i < |w.current| && w.current[i] == r.generation;
    assert Run(EMPTY, steps[..i]).generation == r.generation;
  }

  /** A read that finds a cached payload answers with it at once, and takes no lock; any other waits for one. */
  lemma CachedReadsReturnAtOnce(steps: seq<Step>, t: Thread, hours: Hours, b: nat)
    requires t !in Run(EMPTY, steps).threads
    ensures var w := Run(EMPTY, steps); var w' := Next(w, Start(t, Home(hours, b)));
      && w'.collector == w.collector && w'.builder == w.builder
      && if hours in w.payloads then
           w'.threads == w.threads && w'.results == w.results + [Result(hours, w.generation, |steps|, |steps|)]
         else
           && w'.results == w.results
           && w'.threads == w.threads[t := if w.generation == 0 then WaitCollect(Home(hours, |steps|))
                                           else WaitBuild(Home(hours, |steps|))]
  {
    hide Run, Inv, Next;
    var w := Run(EMPTY, steps);
    NowIsSteps(steps);
    CacheIsCurrentAndBuiltOnce(steps, hours, 0);
    BeginsAtOnce(w, t, hours, b);
  }

  lemma NowIsSteps(steps: seq<Step>)
    ensures Now(Run(EMPTY, steps)) == |steps|
  {
    hide Run, Next, Inv;
    EmptyInv();
    RunInv(EMPTY, steps);
  }

  lemma EmptyInv()
    ensures Inv(EMPTY) && Recorded(EMPTY)
  {
  }

  lemma BeginsAtOnce(w: World, t: Thread, hours: Hours, b: nat)
    requires t !in w.threads
    ensures var w' := Next(w, Start(t, Home(hours, b)));
      && w'.collector == w.collector && w'.builder == w.builder
      && if hours in w.payloads then
           w'.threads == w.threads && w'.results == w.results + [Result(hours, w.payloads[hours], Now(w), Now(w))]
         else
           && w'.results == w.results
           && w'.threads == w.threads[t := if w.generation == 0 then WaitCollect(Home(hours, Now(w)))
                                           else WaitBuild(Home(hours, Now(w)))]
  {
  }

  /** What a read answers with was rendered from its generation for its own window. */
  lemma ReadsAreRendered(steps: seq<Step>, k: nat)
    requires k < |Run(EMPTY, steps).results|
    ensures var w := Run(EMPTY, steps); w.builds[(w.results[k].generation, w.results[k].hours)] == 1
  {
    RunInv(EMPTY, steps);
  }

  /** Nothing outdated stays cached, and no payload is rendered twice. */
  lemma CacheIsCurrentAndBuiltOnce(steps: seq<Step>, hours: Hours, generation: nat)
    ensures var w := Run(EMPTY, steps);
      && (hours in w.payloads ==> w.payloads[hours] == w.generation > 0)
      && w.builds[(generation, hours)] <= 1
  {
    RunInv(EMPTY, steps);
  }

  /** However many readers find nothing, they cause one successful collection between them. */
  lemma OneFirstCollection(steps: seq<Step>)
    ensures Run(EMPTY, steps).first <= 1
  {
    RunInv(EMPTY, steps);
  }

  /** A read that has got past its refresh always has a publication to render: the error branch is dead. */
  lemma ReadersAlwaysFindAPublication(steps: seq<Step>, t: Thread)
    requires t in Run(EMPTY, steps).threads && Run(EMPTY, steps).threads[t].Look?
    ensures Run(EMPTY, steps).generation > 0
  {
    RunInv(EMPTY, steps);
    assert ThreadInv(Run(EMPTY, steps), t);
  }

  /** Collection is reported exactly while some thread is inside one, and at most one is. */
  lemma StatusFollowsTheCollector(steps: seq<Step>, t: Thread, u: Thread)
    requires var w := Run(EMPTY, steps); t in w.threads && u in w.threads
    ensures var w := Run(EMPTY, steps);
      && (Collects(w.threads[t]) && Collects(w.threads[u]) ==> t == u)
      && (Collects(w.threads[t]) && !w.threads[t].Check? ==> w.collectionStarted)
      && (w.collectionStarted ==> exists v :: v in w.threads && Collects(w.threads[v]) && !w.threads[v].Check?)
  {
    RunInv(EMPTY, steps);
    var w := Run(EMPTY, steps);
    assert ThreadInv(w, t) && ThreadInv(w, u);
    if w.collectionStarted { assert ThreadInv(w, w.collector.value); }
  }

  /** No step of `steps` is thread `t`'s own. */
  predicate Waits(steps: seq<Step>, t: Thread) { forall s :: s in steps ==> s.thread != t }

  /** While a thread holds the collection lock, nobody else's step changes the publication or that thread. */
  lemma OthersKeepPublication(w: World, s: Step, t: Thread)
    requires Inv(w) && Recorded(w) && t in w.threads && Collects(w.threads[t]) && s.thread != t
    ensures var w' := Next(w, s);
      && w'.generation == w.generation && w'.collector == Some(t) && w'.collectionStarted == w.collectionStarted
      && t in w'.threads && w'.threads[t] == w.threads[t]
  {
    assert ThreadInv(w, t) && w.collector == Some(t);
    NextInv(w, s);
    match s {
      case Start(u, c) => if u !in w.threads { BeginFrame(w, u, c); }
      case Move(u, ok) => if u in w.threads { assert ThreadInv(w, u); StepFrame(w, u, ok); }
    }
    hide Begin, Advance, BuildInv, CacheInv, ThreadInv;
  }

  lemma {:induction false} RunKeepsPublication(w: World, steps: seq<Step>, t: Thread)
    requires Inv(w) && Recorded(w) && t in w.threads && Collects(w.threads[t]) && Waits(steps, t)
    ensures var w' := Run(w, steps);
      && w'.generation == w.generation && w'.collector == Some(t) && w'.collectionStarted == w.collectionStarted
      && t in w'.threads && w'.threads[t] == w.threads[t]
    decreases |steps|
  {
    hide Inv, Next;
    if steps == [] {
      CollectorHolds(w, t);
    } else {
      OthersKeepPublication(w, steps[0], t);
      NextInv(w, steps[0]);
      RunKeepsPublication(Next(w, steps[0]), steps[1..], t);
    }
  }

  lemma CollectorHolds(w: World, t: Thread)
    requires Inv(w) && t in w.threads && Collects(w.threads[t])
    ensures w.collector == Some(t)
  {
    assert ThreadInv(w, t);
  }

  /**
   A collection that fails leaves no trace, whatever other threads do before and after it gives up the
   lock: the publication is the one from before the failure, and then the status is reset and the lock free.
   */
  lemma FailedCollectionLeavesNoTrace(w: World, t: Thread, between: seq<Step>, ok: bool)
    requires Inv(w) && Recorded(w) && t in w.threads && w.threads[t].Collecting? && Waits(between, t)
    ensures var failed := Next(w, Move(t, false));
      var waited := Run(failed, between);
      var released := Next(waited, Move(t, ok));
      && failed.generation == w.generation && failed.payloads == w.payloads
      && waited.generation == w.generation
      && released.generation == w.generation && released.payloads == waited.payloads
      && !released.collectionStarted && released.collector.None? && t !in released.threads
  {
    var failed := Next(w, Move(t, false));
    NextInv(w, Move(t, false));
    assert failed.threads[t] == Closing(w.threads[t].call, w.threads[t].seen, None);
    hide Inv;
    RunKeepsPublication(failed, between, t);
  }
}
