/**
 Individual signals next to incidents: a phone that belongs to an incident is never announced on its
 own; and when exactly a delivered signal is announced again. Deduplication compares the check time
 too, so a signal without one is announced once, and one that was checked again is announced again.
 */
module SignalQuiet {
  import opened Options
  import opened IncidentPolicy
  import opened IncidentHistory

  /** What an observation adds to the log after the incident event, if any. */
  ghost function NewEvents(st: State, o: Observation, episode: nat): seq<Emission> {
    StepLog(st, o, episode);
    Step(st, o, episode).log[|Correlate(st, o, episode).state.log|..]
  }

  ghost predicate Announced(st: State, o: Observation, episode: nat, s: Signal) {
    Emission(ForSignal(s), o.now) in NewEvents(st, o, episode)
  }

  lemma {:induction false} RelaySuppresses(st: State, signals: seq<Signal>, suppressed: set<string>, now: real, k: nat)
    requires |st.log| <= k < |Relay(st, signals, suppressed, now).log|
    ensures var e := Relay(st, signals, suppressed, now).log[k];
      && e.event.ForSignal? && e.at == now && e.event.signal in signals
      && e.event.signal.id !in suppressed && e.event.signal.Relayable()
  {
    if signals != [] {
      var n := |signals| - 1;
      var st1 := Relay(st, signals[..n], suppressed, now);
      RelayLog(st, signals[..n], suppressed, now);
      if k < |st1.log| {
        RelaySuppresses(st, signals[..n], suppressed, now, k);
      }
    }
  }

  lemma NewEventsAreAllowed(st: State, o: Observation, episode: nat, e: Emission)
    requires e in NewEvents(st, o, episode)
    ensures && e.event.ForSignal? && e.at == o.now && e.event.signal in o.signals
            && e.event.signal.id !in Correlate(st, o, episode).suppressed && e.event.signal.Relayable()
  {
    var c := Correlate(st, o, episode);
    var start := c.state.(delivered := Surviving(c.state.delivered, o));
    var k :| 0 <= k < |NewEvents(st, o, episode)| && NewEvents(st, o, episode)[k] == e;
    RelaySuppresses(start, o.signals, c.suppressed, o.now, |c.state.log| + k);
  }

  /** While there is an incident, none of its phones is announced individually. */
  lemma NoIndividualEventForAffected(st: State, o: Observation, episode: nat, s: Signal)
    requires Step(st, o, episode).incident.Some? && s.kind.PhoneUnavailable?
    requires s.id in Step(st, o, episode).incident.value.affected
    ensures !Announced(st, o, episode, s)
  {
    StepIncident(st, o, episode);
    CorrelateShape(st, o, episode);
    assert s in o.signals && s.active ==> s.id in o.Phones();
    if Announced(st, o, episode, s) {
      NewEventsAreAllowed(st, o, episode, Emission(ForSignal(s), o.now));
    }
  }

  /** A disconnected observation announces nothing about phones, and leaves the incident and its timers alone. */
  lemma DisconnectedIsSilent(st: State, o: Observation, episode: nat, e: Emission)
    requires !o.connected
    ensures e in NewEvents(st, o, episode) ==>
      e.event.ForSignal? && !e.event.signal.kind.PhoneUnavailable? && !e.event.signal.kind.PhoneRecovered?
    ensures Correlate(st, o, episode).state == st && Step(st, o, episode).incident == st.incident
  {
    StepIncident(st, o, episode);
    if e in NewEvents(st, o, episode) {
      NewEventsAreAllowed(st, o, episode, e);
    }
  }

  // ---------------------------------------------------------------- deduplication

  /** The record the relayable signals of this id leave: that of the last one. */
  function LastRelayed(signals: seq<Signal>, id: string): Option<Signal> {
    if signals == [] then None
    else
      var s := signals[|signals| - 1];
      if s.id == id && s.Relayable() then Some(s.Fingerprint()) else LastRelayed(signals[..|signals| - 1], id)
  }

  /** The record the `k`-th signal is compared with: an earlier one of the same id, or the delivered one. */
  function Record(delivered: map<string, Signal>, signals: seq<Signal>, k: nat): Option<Signal>
    requires k < |signals|
  {
    var last := LastRelayed(signals[..k], signals[k].id);
    if last.Some? then last else Get(delivered, signals[k].id)
  }

  /** The `k`-th signal differs from its record. */
  predicate Changed(delivered: map<string, Signal>, signals: seq<Signal>, suppressed: set<string>, k: nat)
    requires k < |signals|
  {
    var s := signals[k];
    s.id !in suppressed && s.Relayable() && Record(delivered, signals, k) != Some(s.Fingerprint())
  }

  lemma {:induction false} RelayRecords(st: State, signals: seq<Signal>, suppressed: set<string>, now: real, id: string)
    ensures var last := LastRelayed(signals, id);
      Get(Relay(st, signals, suppressed, now).delivered, id) ==
        if id !in suppressed && last.Some? then last else Get(st.delivered, id)
  {
    if signals != [] {
      RelayRecords(st, signals[..|signals| - 1], suppressed, now, id);
    }
  }

  ghost predicate ChangedAt(delivered: map<string, Signal>, signals: seq<Signal>, suppressed: set<string>, k: nat,
                            s: Signal)
  {
    k < |signals| && signals[k] == s && Changed(delivered, signals, suppressed, k)
  }

  lemma EarlierChange(delivered: map<string, Signal>, signals: seq<Signal>, suppressed: set<string>, k: nat, s: Signal)
    requires k < |signals| - 1
    ensures ChangedAt(delivered, signals[..|signals| - 1], suppressed, k, s) <==>
      ChangedAt(delivered, signals, suppressed, k, s)
  {
    assert signals[..|signals| - 1][..k] == signals[..k];
  }

  /** The events one pass over the signals adds are exactly those of signals that differ from their record. */
  lemma {:induction false} RelayAnnounces(st: State, signals: seq<Signal>, suppressed: set<string>, now: real,
                                          s: Signal)
    ensures var st' := Relay(st, signals, suppressed, now);
      && |st.log| <= |st'.log| && st'.log[..|st.log|] == st.log
      && (Emission(ForSignal(s), now) in st'.log[|st.log|..] <==>
            exists k: nat :: ChangedAt(st.delivered, signals, suppressed, k, s))
  {
    if signals != [] {
      var n := |signals| - 1;
      var st1 := Relay(st, signals[..n], suppressed, now);
      RelayAnnounces(st, signals[..n], suppressed, now, s);
      RelayRecords(st, signals[..n], suppressed, now, signals[n].id);
      forall k: nat | k < n
        ensures ChangedAt(st.delivered, signals[..n], suppressed, k, s) <==>
          ChangedAt(st.delivered, signals, suppressed, k, s)
      {
        EarlierChange(st.delivered, signals, suppressed, k, s);
      }
      assert Emits(st1, signals[n], suppressed) <==> Changed(st.delivered, signals, suppressed, n);
      var st' := Relay(st, signals, suppressed, now);
      if Emits(st1, signals[n], suppressed) {
        assert st'.log[|st.log|..] == st1.log[|st.log|..] + [Emission(ForSignal(signals[n]), now)];
        assert signals[n] == s ==> ChangedAt(st.delivered, signals, suppressed, n, s);
      }
    }
  }

  lemma ActiveSurvives(st: State, o: Observation, episode: nat, k: nat)
    requires k < |o.signals| && o.signals[k].Relayable()
    ensures Get(Surviving(Correlate(st, o, episode).state.delivered, o), o.signals[k].id) ==
      Get(st.delivered, o.signals[k].id)
  {
    CorrelateShape(st, o, episode);
    assert o.signals[k] in o.signals && o.signals[k].id in o.ActiveIds();
  }

  /**
   A signal is announced exactly when, at some place in the observation, it is relayable, not
   suppressed, and differs from its record: the last relayable signal of its id before it, or else
   what was delivered. An id may occur any number of times.
   */
  lemma AnnouncedIffChanged(st: State, o: Observation, episode: nat, s: Signal)
    ensures Announced(st, o, episode, s) <==>
      exists k: nat :: ChangedAt(st.delivered, o.signals, Correlate(st, o, episode).suppressed, k, s)
  {
    var c := Correlate(st, o, episode);
    var kept := Surviving(c.state.delivered, o);
    RelayAnnounces(c.state.(delivered := kept), o.signals, c.suppressed, o.now, s);
    forall k: nat | k < |o.signals|
      ensures ChangedAt(kept, o.signals, c.suppressed, k, s) <==> ChangedAt(st.delivered, o.signals, c.suppressed, k, s)
    {
      if o.signals[k].Relayable() { ActiveSurvives(st, o, episode, k); }
    }
    hide Correlate, Surviving, Relay;
  }

  /** The observation shows the id in no other way than by `s`. */
  predicate OnlyAs(signals: seq<Signal>, s: Signal) { forall x :: x in signals && x.id == s.id ==> x == s }

  lemma {:induction false} OnlyItself(signals: seq<Signal>, s: Signal)
    requires OnlyAs(signals, s)
    ensures LastRelayed(signals, s.id) in {None, Some(s.Fingerprint())}
    ensures s in signals && s.Relayable() ==> LastRelayed(signals, s.id) == Some(s.Fingerprint())
  {
    if signals != [] {
      var n := |signals| - 1;
      assert signals == signals[..n] + [signals[n]];
      OnlyItself(signals[..n], s);
    }
  }

  lemma FirstPlace(signals: seq<Signal>, s: Signal) returns (k: nat)
    requires s in signals && OnlyAs(signals, s)
    ensures k < |signals| && signals[k] == s && LastRelayed(signals[..k], s.id).None?
    decreases |signals|
  {
    var n := |signals| - 1;
    assert signals == signals[..n] + [signals[n]];
    if s in signals[..n] {
      k := FirstPlace(signals[..n], s);
      assert signals[..n][..k] == signals[..k];
    } else {
      k := n;
      NoneRelayed(signals[..n], s.id);
    }
  }

  lemma {:induction false} NoneRelayed(signals: seq<Signal>, id: string)
    requires forall x :: x in signals ==> x.id != id
    ensures LastRelayed(signals, id).None?
  {
    if signals != [] {
      assert signals[|signals| - 1] in signals;
      NoneRelayed(signals[..|signals| - 1], id);
    }
  }

  /**
   A signal that differs from what was delivered in its check time at most is announced again
   exactly when it was checked at another time: standing outages repeat with every new collection.
   */
  lemma RestampedIsAnnouncedAgain(st: State, o: Observation, episode: nat, s: Signal)
    requires s in o.signals && OnlyAs(o.signals, s) && s.Relayable()
    requires s.id !in Correlate(st, o, episode).suppressed && s.id in st.delivered
    requires s.Fingerprint() == st.delivered[s.id].(checkedAt := s.checkedAt)
    ensures Announced(st, o, episode, s) <==> s.checkedAt != st.delivered[s.id].checkedAt
  {
    var suppressed := Correlate(st, o, episode).suppressed;
    AnnouncedIffChanged(st, o, episode, s);
    var first := FirstPlace(o.signals, s);
    assert ChangedAt(st.delivered, o.signals, suppressed, first, s) <==> s.Fingerprint() != st.delivered[s.id];
    forall k: nat | ChangedAt(st.delivered, o.signals, suppressed, k, s) ensures s.Fingerprint() != st.delivered[s.id] {
      OnlyItself(o.signals[..k], s);
    }
  }

  // ---------------------------------------------------------------- quiet over a run

  /** The record of the id survives the observation. */
  predicate Survives(o: Observation, id: string) { id in o.ActiveIds() || (!o.connected && IsPhoneId(id)) }

  /** Whatever of this id the observation could announce is what was delivered. */
  ghost predicate Unchanged(st: State, o: Observation, episode: nat, id: string, mark: Signal) {
    forall s :: s in o.signals && s.id == id && s.Relayable() && id !in Correlate(st, o, episode).suppressed ==>
      s.Fingerprint() == mark
  }

  ghost predicate SilentFrom(log: seq<Emission>, from: nat, id: string) {
    forall k :: from <= k < |log| && log[k].event.ForSignal? ==> log[k].event.signal.id != id
  }

  lemma {:induction false} RelayQuiet(st: State, signals: seq<Signal>, suppressed: set<string>, now: real, id: string,
                                      mark: Signal)
    requires Get(st.delivered, id) == Some(mark)
    requires forall s :: s in signals && s.id == id && s.Relayable() && id !in suppressed ==> s.Fingerprint() == mark
    ensures var st' := Relay(st, signals, suppressed, now);
      && Get(st'.delivered, id) == Some(mark)
      && |st.log| <= |st'.log|
      && forall k :: |st.log| <= k < |st'.log| ==> st'.log[k].event.ForSignal? && st'.log[k].event.signal.id != id
  {
    if signals != [] {
      RelayQuiet(st, signals[..|signals| - 1], suppressed, now, id, mark);
    }
  }

  /** The log of one observation: what there was, an incident event perhaps, and the announcements. */
  lemma StepAddsToLog(st: State, o: Observation, episode: nat)
    ensures var log := Step(st, o, episode).log; var n := |Correlate(st, o, episode).state.log|;
      && |st.log| <= n <= |log| && log[..|st.log|] == st.log
      && (forall k :: |st.log| <= k < n ==> log[k].event.ForIncident?)
      && NewEvents(st, o, episode) == log[n..]
  {
    StepLog(st, o, episode);
    CorrelateShape(st, o, episode);
    var log, before := Step(st, o, episode).log, Correlate(st, o, episode).state.log;
    if o.connected && Working(st, o, episode).Some? {
      AdvanceAnnounces(Working(st, o, episode).value, o.Phones(), SeenSince(st, o), o.TotalPhones(), o.now);
    }
    assert forall k :: |st.log| <= k < |before| ==> before[k].event.ForIncident?;
    hide Step, Correlate;
    assert forall k :: 0 <= k < |before| ==> log[..|before|][k] == log[k];
  }

  lemma StepStaysQuiet(st: State, o: Observation, episode: nat, id: string, mark: Signal)
    requires Get(st.delivered, id) == Some(mark) && Survives(o, id) && Unchanged(st, o, episode, id, mark)
    ensures Get(Step(st, o, episode).delivered, id) == Some(mark)
    ensures SilentFrom(Step(st, o, episode).log, |st.log|, id)
  {
    var c := Correlate(st, o, episode);
    StepAddsToLog(st, o, episode);
    CorrelateShape(st, o, episode);
    RelayQuiet(c.state.(delivered := Surviving(c.state.delivered, o)), o.signals, c.suppressed, o.now, id, mark);
  }

  lemma StepSpeaks(st: State, o: Observation, episode: nat, id: string, mark: Signal)
    requires Get(st.delivered, id) == Some(mark) && !Unchanged(st, o, episode, id, mark)
    ensures !SilentFrom(Step(st, o, episode).log, |st.log|, id)
  {
    var suppressed := Correlate(st, o, episode).suppressed;
    var k := FirstChange(o.signals, id, mark);
    var s := o.signals[k];
    assert ChangedAt(st.delivered, o.signals, suppressed, k, s);
    AnnouncedIffChanged(st, o, episode, s);
    StepAddsToLog(st, o, episode);
    var log, n := Step(st, o, episode).log, |Correlate(st, o, episode).state.log|;
    var j :| n <= j < |log| && log[j] == Emission(ForSignal(s), o.now);
  }

  lemma FirstChange(signals: seq<Signal>, id: string, mark: Signal) returns (k: nat)
    requires exists s :: s in signals && s.id == id && s.Relayable() && s.Fingerprint() != mark
    ensures k < |signals| && signals[k].id == id && signals[k].Relayable() && signals[k].Fingerprint() != mark
    ensures LastRelayed(signals[..k], id) in {None, Some(mark)}
    decreases |signals|
  {
    var n := |signals| - 1;
    assert signals == signals[..n] + [signals[n]];
    if exists s :: s in signals[..n] && s.id == id && s.Relayable() && s.Fingerprint() != mark {
      k := FirstChange(signals[..n], id, mark);
      assert signals[..n][..k] == signals[..k];
    } else {
      k := n;
      OnlyTheMark(signals[..n], id, mark);
    }
  }

  lemma {:induction false} OnlyTheMark(signals: seq<Signal>, id: string, mark: Signal)
    requires forall s :: s in signals && s.id == id && s.Relayable() ==> s.Fingerprint() == mark
    ensures LastRelayed(signals, id) in {None, Some(mark)}
  {
    if signals != [] {
      assert signals[|signals| - 1] in signals;
      OnlyTheMark(signals[..|signals| - 1], id, mark);
    }
  }

  /** The `k`-th observation after `h` shows the id as it was delivered. */
  ghost predicate UnchangedAt(h: Run, more: Run, k: nat, id: string, mark: Signal)
    requires k < |more|
  {
    Unchanged(After(h + more[..k]), more[k], |h| + k, id, mark)
  }

  lemma AfterOne(h: Run, o: Observation)
    ensures After(h + [o]) == Step(After(h), o, |h|)
  {
    assert (h + [o])[..|h|] == h;
  }

  /** One more observation keeps a silence exactly when it shows the id as delivered. */
  lemma SilenceStep(st: State, o: Observation, episode: nat, from: nat, id: string, mark: Signal)
    requires from <= |st.log| && Survives(o, id)
    requires SilentFrom(st.log, from, id) ==> Get(st.delivered, id) == Some(mark)
    ensures var st' := Step(st, o, episode);
      && |st.log| <= |st'.log|
      && (SilentFrom(st'.log, from, id) <==> SilentFrom(st.log, from, id) && Unchanged(st, o, episode, id, mark))
      && (SilentFrom(st'.log, from, id) ==> Get(st'.delivered, id) == Some(mark))
  {
    var st' := Step(st, o, episode);
    StepAddsToLog(st, o, episode);
    if SilentFrom(st.log, from, id) {
      hide Step, Unchanged;
      if Unchanged(st, o, episode, id, mark) {
        StepStaysQuiet(st, o, episode, id, mark);
      } else {
        StepSpeaks(st, o, episode, id, mark);
      }
    }
    hide Step, Unchanged;
    assert forall k :: 0 <= k < |st.log| ==> st'.log[k] == st'.log[..|st.log|][k];
  }

  lemma SamePlaces(h: Run, more: Run, id: string, mark: Signal)
    requires more != []
    ensures var init := more[..|more| - 1];
      (forall k: nat :: k < |more| ==> UnchangedAt(h, more, k, id, mark)) <==>
        (forall k: nat :: k < |init| ==> UnchangedAt(h, init, k, id, mark)) && UnchangedAt(h, more, |init|, id, mark)
  {
    var init := more[..|more| - 1];
    forall k: nat | k < |init| ensures UnchangedAt(h, more, k, id, mark) <==> UnchangedAt(h, init, k, id, mark) {
      assert init[..k] == more[..k];
    }
    hide UnchangedAt;
  }

  /**
   Over any continuation of any run in which its record survives, a delivered signal stays silent
   exactly as long as every relayable, unsuppressed showing of it is what was delivered, check time
   included. Disconnections do not disturb the record of a phone.
   */
  lemma {:induction false} QuietIffUnchanged(h: Run, more: Run, id: string, mark: Signal)
    requires Get(After(h).delivered, id) == Some(mark) && forall o :: o in more ==> Survives(o, id)
    ensures |After(h).log| <= |After(h + more).log|
    ensures SilentFrom(After(h + more).log, |After(h).log|, id) <==>
      forall k: nat :: k < |more| ==> UnchangedAt(h, more, k, id, mark)
    ensures SilentFrom(After(h + more).log, |After(h).log|, id) ==> Get(After(h + more).delivered, id) == Some(mark)
  {
    if more == [] {
      assert h + more == h;
    } else {
      var init, o := more[..|more| - 1], more[|more| - 1];
      SamePlaces(h, more, id, mark);
      LastStep(h, more);
      LastUnchanged(h, more, id, mark);
      hide After, Unchanged, UnchangedAt, SilentFrom, Survives;
      assert o in more && forall x :: x in init ==> x in more;
      QuietIffUnchanged(h, init, id, mark);
      SilenceStep(After(h + init), o, |h + init|, |After(h).log|, id, mark);
    }
  }

  lemma LastStep(h: Run, more: Run)
    requires more != []
    ensures var init, o := more[..|more| - 1], more[|more| - 1]; After(h + more) == Step(After(h + init), o, |h + init|)
  {
    var init, o := more[..|more| - 1], more[|more| - 1];
    assert h + more == (h + init) + [o];
    hide Step;
    AfterOne(h + init, o);
  }

  lemma LastUnchanged(h: Run, more: Run, id: string, mark: Signal)
    requires more != []
    ensures var init, o := more[..|more| - 1], more[|more| - 1];
      UnchangedAt(h, more, |init|, id, mark) <==> Unchanged(After(h + init), o, |h + init|, id, mark)
  {
    hide Unchanged, After;
  }

  /** In particular, what shows itself as it was delivered, or is suppressed, stays quiet. */
  lemma UnchangedStaysQuiet(h: Run, more: Run, id: string, mark: Signal)
    requires Get(After(h).delivered, id) == Some(mark) && forall o :: o in more ==> Survives(o, id)
    requires forall o, s :: o in more && s in o.signals && s.id == id ==> s.Fingerprint() == mark
    ensures SilentFrom(After(h + more).log, |After(h).log|, id) && Get(After(h + more).delivered, id) == Some(mark)
  {
    QuietIffUnchanged(h, more, id, mark);
    forall k: nat | k < |more| ensures UnchangedAt(h, more, k, id, mark) {
      assert more[k] in more;
    }
  }

  // ---------------------------------------------------------------- membership

  lemma StepMembership(st: State, o: Observation, episode: nat)
    requires st.incident.Some?
    ensures var i' := Step(st, o, episode).incident;
      i'.Some? ==> i'.value.episode == st.incident.value.episode && st.incident.value.affected <= i'.value.affected
  {
    StepIncident(st, o, episode);
    CorrelateShape(st, o, episode);
  }

  /** As long as an incident record exists its membership only grows. */
  lemma {:induction false} AffectedOnlyGrows(h: Run, more: Run)
    requires Clocked(h + more)
    requires After(h).incident.Some? && After(h + more).incident.Some?
    requires After(h + more).incident.value.episode == After(h).incident.value.episode
    ensures After(h).incident.value.affected <= After(h + more).incident.value.affected
  {
    if more == [] {
      assert h + more == h;
    } else {
      var g := h + more;
      var n := |g| - 1;
      var shorter := h + more[..|more| - 1];
      assert g[..n] == shorter;
      assert forall k :: 0 <= k < |h| ==> g[k] == h[k];
      RunEpisodes(h);
      var st := After(shorter);
      assert After(g) == Step(st, g[n], n);
      hide Step, Correlate, After;
      if st.incident.Some? {
        StepMembership(st, g[n], n);
        AffectedOnlyGrows(h, more[..|more| - 1]);
      } else {
        NewIncidentIsNew(st, g[n], n);
      }
    }
  }

  lemma NewIncidentIsNew(st: State, o: Observation, episode: nat)
    requires st.incident.None? && Step(st, o, episode).incident.Some?
    ensures Step(st, o, episode).incident.value.episode == episode
  {
    StepIncident(st, o, episode);
    CorrelateShape(st, o, episode);
  }
}
