/**
 What the notification policy guarantees over every run of observations with a
 positive clock that never goes back: the grammar and timing of each incident
 episode, and the quiet of signals that did not change.
 */
module IncidentHistory {
  import opened Options
  import opened IncidentPolicy

  type Run = seq<Observation>

  /** Episode tokens are fresh; a run numbers them by the observation that begins them. */
  function After(h: Run): State {
    if h == [] then EMPTY else Step(After(h[..|h| - 1]), h[|h| - 1], |h| - 1)
  }

  ghost predicate Clocked(h: Run) {
    && (forall k :: 0 <= k < |h| ==> h[k].now > 0.0)
    && (forall i, j :: 0 <= i < j < |h| ==> h[i].now <= h[j].now)
  }

  // ---------------------------------------------------------------- the events of an episode

  function Of(log: seq<Emission>, episode: nat): seq<Emission> {
    if log == [] then []
    else
      var n := |log| - 1;
      Of(log[..n], episode) +
      if log[n].event.ForIncident? && log[n].event.episode == episode then [log[n]] else []
  }

  lemma {:induction false} OfAppend(log: seq<Emission>, more: seq<Emission>, episode: nat)
    ensures Of(log + more, episode) == Of(log, episode) + Of(more, episode)
  {
    if more == [] {
      assert log + more == log;
    } else {
      var n := |more| - 1;
      assert (log + more)[..|log| + n] == log + more[..n];
      OfAppend(log, more[..n], episode);
    }
  }

  ghost predicate AllOf(l: seq<Emission>) {
    forall k :: 0 <= k < |l| ==> l[k].event.ForIncident?
  }

  /**
   An episode is (outage+ recovery)*, cut anywhere: revisions count from 1, the
   first revision is an outage of at least two phones, every outage names a
   phone, no two recoveries follow each other, and outages in a row are spaced.
   */
  ghost predicate WellFormed(l: seq<Emission>) {
    && AllOf(l)
    && (forall k :: 0 <= k < |l| ==> l[k].event.revision == k + 1)
    && (forall k :: 0 <= k < |l| ==> (l[k].event.recovered <==> l[k].event.count == 0))
    && (l != [] ==> l[0].event.count >= MINIMUM_PHONES)
    && (forall k :: 0 < k < |l| && l[k].event.recovered ==> !l[k - 1].event.recovered)
    && (forall k :: 0 < k < |l| && !l[k].event.recovered && !l[k - 1].event.recovered ==>
          l[k].at - l[k - 1].at >= UPDATE)
  }

  /** An incident knows its episode's last event. */
  ghost predicate Knows(i: Incident, l: seq<Emission>) {
    && WellFormed(l) && i.revision == |l| && l != []
    && (i.active <==> !l[|l| - 1].event.recovered)
    && i.notifiedAt == l[|l| - 1].at > 0.0
    && (!i.active ==> i.notified == {})
  }

  ghost predicate LogInv(st: State, turns: nat) {
    && (forall e: nat :: WellFormed(Of(st.log, e)))
    && (forall e: nat :: e >= turns ==> Of(st.log, e) == [])
    && (st.incident.Some? ==>
          st.incident.value.episode < turns && Knows(st.incident.value, Of(st.log, st.incident.value.episode)))
  }

  lemma {:induction false} RelayKeepsIncidents(st: State, signals: seq<Signal>, suppressed: set<string>, now: real)
    ensures var st' := Relay(st, signals, suppressed, now);
      && st'.incident == st.incident && st'.firstSeen == st.firstSeen && st'.quietUntil == st.quietUntil
      && forall e: nat :: Of(st'.log, e) == Of(st.log, e)
  {
    if signals != [] {
      var n := |signals| - 1;
      RelayKeepsIncidents(st, signals[..n], suppressed, now);
      var st1 := Relay(st, signals[..n], suppressed, now);
      forall e: nat ensures Of(RelayOne(st1, signals[n], suppressed, now).log, e) == Of(st1.log, e) {
        OfAppend(st1.log, [Emission(ForSignal(signals[n]), now)], e);
      }
    }
  }

  /** A fresh incident already holds the phones it begins with. */
  ghost predicate Begun(i: Incident, phones: set<string>, seen: map<string, real>, episode: nat, now: real) {
    && Timed(phones, seen)
    && i.affected <= phones && |i.affected| >= MINIMUM_PHONES
    && i == NewIncident(i.affected, episode, now)
  }

  /** The event an advance emits continues the episode, and the incident knows it. */
  lemma AdvanceEpisode(i: Incident, l: seq<Emission>, phones: set<string>, seen: map<string, real>, total: nat,
                       now: real)
    requires Timed(phones, seen) && now > 0.0
    requires Knows(i, l) || (l == [] && Begun(i, phones, seen, i.episode, now))
    ensures var a := Advance(i, phones, seen, total, now);
      var l' := l + if a.event.Some? then [Emission(a.event.value, now)] else [];
      && WellFormed(l')
      && (a.event.Some? ==> a.event.value.ForIncident? && a.event.value.episode == i.episode)
      && (a.incident.Some? ==> a.incident.value.episode == i.episode && Knows(a.incident.value, l'))
  {
    var a := Advance(i, phones, seen, total, now);
    if l == [] {
      assert i.affected <= a.current;
      SubsetSize(i.affected, a.current);
    }
    assert a.current == {} <==> |a.current| == 0;
    assert WellFormed(l);
    if a.event.Some? { EpisodeGrows(l, Emission(a.event.value, now)); }
    assert l + [] == l;
    hide WellFormed;
  }

  /** What may follow an episode's events. */
  lemma EpisodeGrows(l: seq<Emission>, e: Emission)
    requires WellFormed(l) && e.event.ForIncident? && e.event.revision == |l| + 1
    requires (e.event.recovered <==> e.event.count == 0) && (l == [] ==> e.event.count >= MINIMUM_PHONES)
    requires e.event.recovered ==> l != [] && !l[|l| - 1].event.recovered
    requires !e.event.recovered && l != [] && !l[|l| - 1].event.recovered ==> e.at - l[|l| - 1].at >= UPDATE
    ensures WellFormed(l + [e])
  {
  }

  lemma JudgeBegins(phones: set<string>, seen: map<string, real>, total: nat, now: real)
    requires Timed(phones, seen) && Judge(phones, seen, total, now).Begin?
    ensures Judge(phones, seen, total, now).ids <= phones && |Judge(phones, seen, total, now).ids| >= MINIMUM_PHONES
  {
  }

  /** The incident an observation works on continues an episode, or begins one nobody has used. */
  lemma WorkingEpisode(st: State, o: Observation, turns: nat)
    requires LogInv(st, turns) && Working(st, o, turns).Some?
    ensures var i := Working(st, o, turns).value; var l := Of(st.log, i.episode);
      i.episode <= turns && (Knows(i, l) || (l == [] && Begun(i, o.Phones(), SeenSince(st, o), i.episode, o.now)))
  {
    if st.incident.None? {
      JudgeBegins(o.Phones(), SeenSince(st, o), o.TotalPhones(), o.now);
    }
  }

  lemma OfSingle(x: Emission, e: nat)
    requires x.event.ForIncident?
    ensures Of([x], e) == if x.event.episode == e then [x] else []
  {
    assert [x][..0] == [];
  }

  ghost function Emitted(a: Advanced, now: real): seq<Emission> {
    if a.event.Some? then [Emission(a.event.value, now)] else []
  }

  ghost function AdvanceOf(st: State, o: Observation, turns: nat): Advanced
    requires Working(st, o, turns).Some?
  {
    Advance(Working(st, o, turns).value, o.Phones(), SeenSince(st, o), o.TotalPhones(), o.now)
  }

  lemma CorrelateShape(st: State, o: Observation, turns: nat)
    ensures var st' := Correlate(st, o, turns).state;
      if o.connected && Working(st, o, turns).Some? then
        st'.incident == AdvanceOf(st, o, turns).incident && st'.log == st.log + Emitted(AdvanceOf(st, o, turns), o.now)
      else st'.incident == st.incident && st'.log == st.log
  {
  }

  /** Events of one episode extend the log of that episode and of no other. */
  lemma LogExtends(st: State, st': State, turns: nat, episode: nat, a: Advanced, now: real)
    requires LogInv(st, turns) && episode <= turns
    requires a.event.Some? ==> a.event.value.ForIncident? && a.event.value.episode == episode
    requires st'.log == st.log + Emitted(a, now) && st'.incident == a.incident
    requires WellFormed(Of(st.log, episode) + Emitted(a, now))
    requires a.incident.Some? ==>
      a.incident.value.episode == episode && Knows(a.incident.value, Of(st.log, episode) + Emitted(a, now))
    ensures LogInv(st', turns + 1)
  {
    hide WellFormed, Knows;
    var more := Emitted(a, now);
    forall e: nat ensures Of(st'.log, e) == if e == episode then Of(st.log, e) + more else Of(st.log, e) {
      OfAppend(st.log, more, e);
      if a.event.Some? { OfSingle(more[0], e); } else { OfNone(e); }
      assert Of(st.log, e) + [] == Of(st.log, e);
    }
  }

  lemma CorrelateEpisode(st: State, o: Observation, turns: nat)
    requires LogInv(st, turns) && o.now > 0.0
    ensures LogInv(Correlate(st, o, turns).state, turns + 1)
  {
    hide WellFormed, Knows, Begun, Of, Correlate, Working, Advance, Judge;
    CorrelateShape(st, o, turns);
    if o.connected && Working(st, o, turns).Some? {
      var i := Working(st, o, turns).value;
      WorkingEpisode(st, o, turns);
      AdvanceEpisode(i, Of(st.log, i.episode), o.Phones(), SeenSince(st, o), o.TotalPhones(), o.now);
      LogExtends(st, Correlate(st, o, turns).state, turns, i.episode, AdvanceOf(st, o, turns), o.now);
    }
  }

  lemma OfNone(e: nat)
    ensures Of([], e) == []
  {
  }

  lemma StepEpisode(st: State, o: Observation, turns: nat)
    requires LogInv(st, turns) && o.now > 0.0
    ensures LogInv(Step(st, o, turns), turns + 1)
  {
    CorrelateEpisode(st, o, turns);
    var c := Correlate(st, o, turns);
    RelayKeepsIncidents(c.state.(delivered := Surviving(c.state.delivered, o)), o.signals, c.suppressed, o.now);
  }

  lemma {:induction false} RunEpisodes(h: Run)
    requires Clocked(h)
    ensures LogInv(After(h), |h|)
  {
    if h != [] {
      RunEpisodes(h[..|h| - 1]);
      StepEpisode(After(h[..|h| - 1]), h[|h| - 1], |h| - 1);
    }
  }

  /** On every run, every episode is well formed. */
  lemma EpisodesAreWellFormed(h: Run, episode: nat)
    requires Clocked(h)
    ensures WellFormed(Of(After(h).log, episode))
  {
    RunEpisodes(h);
  }

  // ---------------------------------------------------------------- when recovery is announced

  /** A connected observation that shows an affected phone. */
  predicate Hits(o: Observation, affected: set<string>) {
    o.connected && o.Phones() * affected != {}
  }

  /** The first connected observation of the stretch, ending the run, in which no affected phone shows. */
  function ClearSince(h: Run, affected: set<string>): (c: Option<nat>)
    ensures c.Some? ==> c.value < |h| && h[c.value].connected
    ensures c.Some? ==> forall k :: c.value <= k < |h| ==> !Hits(h[k], affected)
  {
    if h == [] then None
    else
      var n := |h| - 1;
      var before := ClearSince(h[..n], affected);
      if !h[n].connected then before
      else if Hits(h[n], affected) then None
      else if before.Some? then before
      else Some(n)
  }

  /** Since observation `c` at the latest, connected observations show no affected phone. */
  ghost predicate ClearFrom(h: Run, affected: set<string>, c: nat) {
    c < |h| && h[c].connected && forall k :: c <= k < |h| ==> !Hits(h[k], affected)
  }

  lemma {:induction false} ClearSinceIsFirst(h: Run, affected: set<string>, c: nat)
    requires ClearFrom(h, affected, c)
    ensures ClearSince(h, affected).Some? && ClearSince(h, affected).value <= c
  {
    var n := |h| - 1;
    assert !Hits(h[n], affected);
    if c < n {
      assert ClearFrom(h[..n], affected, c);
      ClearSinceIsFirst(h[..n], affected, c);
    }
  }

  /** While the incident is active its recovery timer is the start of the current clear stretch. */
  ghost predicate TimerInv(h: Run, st: State) {
    st.incident.Some? && st.incident.value.active ==>
      var c := ClearSince(h, st.incident.value.affected);
      st.incident.value.recoveryAt == if c.Some? then h[c.value].now else 0.0
  }

  lemma ClearSinceStep(h: Run, o: Observation, affected: set<string>)
    ensures ClearSince(h + [o], affected) ==
      if !o.connected then ClearSince(h, affected)
      else if Hits(o, affected) then None
      else if ClearSince(h, affected).Some? then ClearSince(h, affected)
      else Some(|h|)
  {
    assert (h + [o])[..|h|] == h;
  }

  /** An advance that leaves the incident active: either it hit, or membership and phase stay. */
  lemma AdvanceTimer(i: Incident, phones: set<string>, seen: map<string, real>, total: nat, now: real)
    requires Timed(phones, seen)
    ensures var a := Advance(i, phones, seen, total, now);
      a.incident.Some? && a.incident.value.active ==>
        var j := a.incident.value;
        if phones * j.affected != {} then j.recoveryAt == 0.0
        else i.active && j.affected == i.affected && j.recoveryAt == if i.recoveryAt == 0.0 then now else i.recoveryAt
  {
    var joined := set id | id in phones && seen[id] >= i.startedAt;
    assert joined <= phones * Joined(i, phones, seen);
  }

  lemma StepIncident(st: State, o: Observation, episode: nat)
    ensures Step(st, o, episode).incident == Correlate(st, o, episode).state.incident
  {
    var c := Correlate(st, o, episode);
    RelayKeepsIncidents(c.state.(delivered := Surviving(c.state.delivered, o)), o.signals, c.suppressed, o.now);
  }

  lemma StepTimer(h: Run, st: State, o: Observation)
    requires TimerInv(h, st) && (forall k :: 0 <= k < |h| ==> h[k].now > 0.0) && o.now > 0.0
    ensures TimerInv(h + [o], Step(st, o, |h|))
  {
    StepIncident(st, o, |h|);
    var st' := Step(st, o, |h|);
    if st'.incident.Some? && st'.incident.value.active {
      ClearSinceStep(h, o, st'.incident.value.affected);
      if o.connected {
        AdvanceTimer(Working(st, o, |h|).value, o.Phones(), SeenSince(st, o), o.TotalPhones(), o.now);
        if st.incident.None? {
          JudgeBegins(o.Phones(), SeenSince(st, o), o.TotalPhones(), o.now);
        }
      }
    }
  }

  lemma {:induction false} RunTimers(h: Run)
    requires Clocked(h)
    ensures TimerInv(h, After(h))
  {
    if h != [] {
      var n := |h| - 1;
      RunTimers(h[..n]);
      StepTimer(h[..n], After(h[..n]), h[n]);
      assert h[..n] + [h[n]] == h;
    }
  }

  /** Observation `o` announces the recovery of an incident. */
  ghost predicate Announces(h: Run, o: Observation) {
    var more := After(h + [o]).log; var n := |After(h).log|;
    n < |more| && more[n].event.ForIncident? && more[n].event.recovered
  }

  lemma AdvanceAnnounces(i: Incident, phones: set<string>, seen: map<string, real>, total: nat, now: real)
    requires Timed(phones, seen)
    ensures var a := Advance(i, phones, seen, total, now);
      (a.event.Some? ==> a.event.value.ForIncident?) &&
      (a.event.Some? && a.event.value.recovered <==>
        i.active && phones * i.affected == {} && phones * Joined(i, phones, seen) == {} &&
        i.recoveryAt != 0.0 && now - i.recoveryAt >= RECOVERY)
  {
    assert i.affected <= Joined(i, phones, seen);
  }

  lemma {:induction false} RelayLog(st: State, signals: seq<Signal>, suppressed: set<string>, now: real)
    ensures var st' := Relay(st, signals, suppressed, now);
      |st.log| <= |st'.log| && st'.log[..|st.log|] == st.log
      && forall k :: |st.log| <= k < |st'.log| ==> st'.log[k].event.ForSignal? && st'.log[k].event.signal in signals
  {
    if signals != [] {
      RelayLog(st, signals[..|signals| - 1], suppressed, now);
    }
  }

  lemma StepLog(st: State, o: Observation, episode: nat)
    ensures var log := Correlate(st, o, episode).state.log; var log' := Step(st, o, episode).log;
      |log| <= |log'| && log'[..|log|] == log
      && forall k :: |log| <= k < |log'| ==> log'[k].event.ForSignal?
  {
    var c := Correlate(st, o, episode);
    RelayLog(c.state.(delivered := Surviving(c.state.delivered, o)), o.signals, c.suppressed, o.now);
  }

  lemma AnnouncesIff(st: State, o: Observation, episode: nat)
    ensures var log := Step(st, o, episode).log; var n := |st.log|;
      (n < |log| && log[n].event.ForIncident? && log[n].event.recovered) <==>
        st.incident.Some? && st.incident.value.active && o.connected &&
        !Hits(o, st.incident.value.affected) &&
        o.Phones() * Joined(st.incident.value, o.Phones(), SeenSince(st, o)) == {} &&
        st.incident.value.recoveryAt != 0.0 && o.now - st.incident.value.recoveryAt >= RECOVERY
  {
    StepLog(st, o, episode);
    CorrelateShape(st, o, episode);
    hide Step, Correlate, Advance;
    if o.connected && Working(st, o, episode).Some? {
      AdvanceAnnounces(Working(st, o, episode).value, o.Phones(), SeenSince(st, o), o.TotalPhones(), o.now);
    }
  }

  /** The phones of the running incident once observation `o` is taken in. */
  function AffectedAfter(h: Run, o: Observation): set<string>
    requires After(h).incident.Some?
  {
    Joined(After(h).incident.value, o.Phones(), SeenSince(After(h), o))
  }

  lemma ClearPrefix(h: Run, o: Observation, affected: set<string>, larger: set<string>, c: nat)
    requires c < |h| && affected <= larger && ClearFrom(h + [o], larger, c)
    ensures ClearFrom(h, affected, c)
  {
    forall k | c <= k < |h| ensures !Hits(h[k], affected) {
      assert (h + [o])[k] == h[k] && !Hits((h + [o])[k], larger);
    }
  }

  /** The program's own test for announcing, in terms of its timer. */
  ghost predicate TimerRanOut(h: Run, o: Observation) {
    After(h).incident.Some? &&
    var i := After(h).incident.value;
    && i.active && o.connected && !Hits(o, i.affected)
    && o.Phones() * AffectedAfter(h, o) == {}
    && i.recoveryAt != 0.0 && o.now - i.recoveryAt >= RECOVERY
  }

  lemma AnnouncesWhenTimerRanOut(h: Run, o: Observation)
    ensures Announces(h, o) <==> TimerRanOut(h, o)
  {
    assert (h + [o])[..|h|] == h;
    AnnouncesIff(After(h), o, |h|);
  }

  /** The stretch the timer measures is a clear one for everything in the incident. */
  lemma TimerMeasuresClear(h: Run, o: Observation) returns (c: nat)
    requires Clocked(h) && TimerRanOut(h, o)
    ensures c < |h| && ClearFrom(h + [o], AffectedAfter(h, o), c) && o.now - h[c].now >= RECOVERY
  {
    RunTimers(h);
    var i := After(h).incident.value;
    var joined := set id | id in o.Phones() && SeenSince(After(h), o)[id] >= i.startedAt;
    assert joined <= o.Phones() * AffectedAfter(h, o);
    assert AffectedAfter(h, o) == i.affected;
    c := ClearSince(h, i.affected).value;
    forall k | c <= k < |h + [o]| ensures !Hits((h + [o])[k], i.affected) {
      assert (h + [o])[k] == if k < |h| then h[k] else o;
    }
  }

  lemma ClearRunsTheTimerOut(h: Run, o: Observation, c: nat)
    requires Clocked(h) && After(h).incident.Some? && After(h).incident.value.active && o.connected
    requires c < |h| && ClearFrom(h + [o], AffectedAfter(h, o), c) && o.now - h[c].now >= RECOVERY
    ensures TimerRanOut(h, o)
  {
    RunTimers(h);
    var i := After(h).incident.value;
    assert (h + [o])[|h|] == o && !Hits((h + [o])[|h|], AffectedAfter(h, o));
    assert i.affected <= AffectedAfter(h, o);
    ClearPrefix(h, o, i.affected, AffectedAfter(h, o), c);
    ClearSinceIsFirst(h, i.affected, c);
  }

  /**
   A recovery is announced exactly when an incident is active and a connected
   observation finds no affected phone, as every connected one has since another
   at least the recovery time ago.
   */
  lemma RecoveryNeedsStableClear(h: Run, o: Observation)
    requires Clocked(h)
    ensures Announces(h, o) <==>
      After(h).incident.Some? && After(h).incident.value.active && o.connected &&
      exists c :: 0 <= c < |h| && ClearFrom(h + [o], AffectedAfter(h, o), c) && o.now - h[c].now >= RECOVERY
  {
    AnnouncesWhenTimerRanOut(h, o);
    hide AffectedAfter, After, ClearFrom, Announces;
    if TimerRanOut(h, o) {
      var c := TimerMeasuresClear(h, o);
    }
    if After(h).incident.Some? && After(h).incident.value.active && o.connected {
      forall c: nat | c < |h| && ClearFrom(h + [o], AffectedAfter(h, o), c) && o.now - h[c].now >= RECOVERY
        ensures TimerRanOut(h, o)
      {
        ClearRunsTheTimerOut(h, o, c);
      }
    }
  }
}
