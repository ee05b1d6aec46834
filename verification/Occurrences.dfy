/**
 The notification identity of an outage: assigned with its first unavailable
 sample, constant until the tracker drops the phone, and never used again; and
 the health signals that carry it.
 */
module Occurrences {
  import opened Options
  import opened Hysteresis
  import opened Availability

  function StateAt(cfg: Config, ext: string, h: History, k: nat): Option<SignalState>
    requires k <= |h|
  {
    Run(cfg, ext, h[..k]).state
  }

  function IdAt(cfg: Config, ext: string, h: History, k: nat): Option<Occurrence>
    requires k <= |h|
  {
    var s := StateAt(cfg, ext, h, k);
    if s.None? then None else s.value.id
  }

  /** Sample `k` ends whatever episode was running: a role change, or the phone is dropped. */
  predicate Ends(cfg: Config, ext: string, h: History, k: nat)
    requires k < |h|
  {
    h[k].roleChanged || StateAt(cfg, ext, h, k + 1).None?
  }

  ghost predicate StrictlyLater(h: History) {
    forall i, j :: 0 <= i < j < |h| ==> h[i].at < h[j].at
  }

  lemma OneMore(cfg: Config, ext: string, h: History, k: nat)
    requires k < |h|
    ensures StateAt(cfg, ext, h, k + 1) == Step(cfg, ext, StateAt(cfg, ext, h, k), h[k]).state
  {
    assert h[..k + 1][..k] == h[..k];
  }

  /** A sample keeps the identity, or gives one to an endpoint that has none and is unavailable. */
  lemma StepId(cfg: Config, ext: string, prior: Option<SignalState>, s: Sample)
    requires SoundState(prior)
    ensures var p := if s.roleChanged then None else prior; var r := Step(cfg, ext, prior, s).state;
      r.Some? ==>
        if p.Some? && p.value.id.Some? then r.value.id == p.value.id
        else r.value.id == if Read(cfg.role, s.endpoint).Gone? then Some(Occurrence(ext, s.at)) else None
  {
  }

  /** An identity is the moment of a sample already taken, and not of one before the last end. */
  lemma {:induction false} IdBounds(cfg: Config, ext: string, h: History, k: nat)
    requires StrictlyLater(h) && k <= |h| && IdAt(cfg, ext, h, k).Some?
    ensures k > 0 && IdAt(cfg, ext, h, k).value.at <= h[k - 1].at
    ensures forall r :: 0 <= r < k && Ends(cfg, ext, h, r) ==> h[r].at <= IdAt(cfg, ext, h, k).value.at
    decreases k
  {
    if k > 0 {
      OneMore(cfg, ext, h, k - 1);
      StepId(cfg, ext, StateAt(cfg, ext, h, k - 1), h[k - 1]);
      if !h[k - 1].roleChanged && IdAt(cfg, ext, h, k - 1).Some? {
        IdBounds(cfg, ext, h, k - 1);
      }
    }
  }

  lemma {:induction false} IdPersists(cfg: Config, ext: string, h: History, i: nat, j: nat)
    requires i <= j <= |h| && IdAt(cfg, ext, h, i).Some?
    requires forall k :: i <= k < j ==> !Ends(cfg, ext, h, k)
    ensures IdAt(cfg, ext, h, j) == IdAt(cfg, ext, h, i)
    decreases j - i
  {
    if i < j {
      IdPersists(cfg, ext, h, i, j - 1);
      OneMore(cfg, ext, h, j - 1);
      StepId(cfg, ext, StateAt(cfg, ext, h, j - 1), h[j - 1]);
      assert !Ends(cfg, ext, h, j - 1);
    }
  }

  /**
   What ends an outage by its history: a change of role, the confirmed recovery of an outage that
   stood, or, before any outage stood, a sample that finds the phone reachable or does not list it.
   */
  ghost predicate Over(r: Rules, t: Ticks, k: nat)
    requires k < |t|
  {
    || t[k].reset || RecoveredAt(r, t, k)
    || (!Standing(r, t[..k]) && (t[k].reading.Reachable? || t[k].reading.Missing?))
  }

  ghost predicate PhoneHistory(cfg: Config, h: History) {
    !cfg.role.Trunk? && Chronological(TicksOf(cfg, h))
  }

  lemma TracksAt(cfg: Config, ext: string, h: History, k: nat)
    requires PhoneHistory(cfg, h) && k <= |h|
    ensures Tracks(RulesOf(cfg), TicksOf(cfg, h)[..k], StateAt(cfg, ext, h, k))
  {
    var t := TicksOf(cfg, h);
    assert TicksOf(cfg, h[..k]) == t[..k];
    RunTracks(cfg, ext, h[..k]);
  }

  /** A sample of a phone that is remembered drops it, or keeps its memory, as its reading says. */
  lemma StepKeeps(cfg: Config, ext: string, prior: Option<SignalState>, s: Sample)
    requires SoundState(prior) && prior.Some? && !cfg.role.Trunk? && !s.roleChanged
    ensures var next := Step(cfg, ext, prior, s).state; var reading := Read(cfg.role, s.endpoint);
      && (reading.Unclear? || reading.Gone? ==> next.Some?)
      && (reading.Missing? ==> (next.Some? <==> prior.value.notified))
  {
  }

  /** What one more tick makes of the standing outage. */
  lemma StandingAt(r: Rules, t: Ticks, k: nat)
    requires k < |t|
    ensures Standing(r, t[..k + 1]) <==>
      OutageAt(r, t, k) || (Standing(r, t[..k]) && !t[k].reset && !RecoveryAt(r, t, k))
    ensures OutageAt(r, t, k) ==> t[k].reading.Gone?
    ensures RecoveryAt(r, t, k) ==> t[k].reading.Reachable?
    ensures t[..k + 1][k] == t[k] && t[..k + 1] != []
  {
    assert t[..k + 1][..k] == t[..k];
    StandingStep(r, t[..k + 1]);
    PrefixSpans(r, t, k + 1, k);
    hide Standing;
  }

  /** A sample within an outage drops the phone exactly if the outage is over by its history. */
  lemma DroppedIffOver(r: Rules, t: Ticks, k: nat, prior: SignalState, next: Option<SignalState>)
    requires k < |t| && !t[k].reset && Tracks(r, t[..k], Some(prior)) && Tracks(r, t[..k + 1], next)
    requires t[k].reading.Unclear? || t[k].reading.Gone? ==> next.Some?
    requires t[k].reading.Missing? ==> (next.Some? <==> prior.notified)
    ensures next.None? <==> Over(r, t, k)
  {
    StandingAt(r, t, k);
    hide OutageAt, RecoveryAt, Standing, Since;
  }

  /** The tracker forgets a phone exactly when its history says that the outage is over. */
  lemma EndsIffOver(cfg: Config, ext: string, h: History, k: nat)
    requires PhoneHistory(cfg, h) && k < |h| && StateAt(cfg, ext, h, k).Some?
    ensures Ends(cfg, ext, h, k) <==> Over(RulesOf(cfg), TicksOf(cfg, h), k)
  {
    var prior, next := StateAt(cfg, ext, h, k), StateAt(cfg, ext, h, k + 1);
    if !h[k].roleChanged {
      TracksAt(cfg, ext, h, k);
      TracksAt(cfg, ext, h, k + 1);
      OneMore(cfg, ext, h, k);
      StepKeeps(cfg, ext, StateAt(cfg, ext, h, k), h[k]);
      hide Tracks, Step, Run, PhoneHistory, Over, RulesOf;
      DroppedIffOver(RulesOf(cfg), TicksOf(cfg, h), k, prior.value, next);
    }
  }

  lemma {:induction false} IdLasts(cfg: Config, ext: string, h: History, i: nat, j: nat)
    requires PhoneHistory(cfg, h) && i <= j <= |h| && IdAt(cfg, ext, h, i).Some?
    requires forall k :: i <= k < j ==> !Over(RulesOf(cfg), TicksOf(cfg, h), k)
    ensures IdAt(cfg, ext, h, j) == IdAt(cfg, ext, h, i)
    ensures forall k :: i <= k < j ==> !Ends(cfg, ext, h, k)
    decreases j - i
  {
    if i < j {
      IdLasts(cfg, ext, h, i, j - 1);
      hide Over, Ends;
      EndsIffOver(cfg, ext, h, j - 1);
      IdPersists(cfg, ext, h, i, j);
    }
  }

  /**
   Two moments of a phone carry the same identity exactly when its history does not end the outage
   between them: the identity lasts until the confirmed recovery, and is never used again.
   */
  lemma SameOccurrenceIffSameOutage(cfg: Config, ext: string, h: History, i: nat, j: nat)
    requires PhoneHistory(cfg, h) && StrictlyLater(h) && i <= j <= |h| && IdAt(cfg, ext, h, i).Some?
    ensures IdAt(cfg, ext, h, j) == IdAt(cfg, ext, h, i) <==>
      forall k :: i <= k < j ==> !Over(RulesOf(cfg), TicksOf(cfg, h), k)
  {
    if forall k :: i <= k < j ==> !Over(RulesOf(cfg), TicksOf(cfg, h), k) {
      IdLasts(cfg, ext, h, i, j);
    } else {
      var k := FirstOver(RulesOf(cfg), TicksOf(cfg, h), i, j);
      hide Over, Ends;
      IdLasts(cfg, ext, h, i, k);
      EndsIffOver(cfg, ext, h, k);
      NewIdAfter(cfg, ext, h, i, k, j);
    }
  }

  lemma FirstOver(r: Rules, t: Ticks, i: nat, j: nat) returns (k: nat)
    requires i <= j <= |t| && exists m :: i <= m < j && Over(r, t, m)
    ensures i <= k < j && Over(r, t, k) && forall m :: i <= m < k ==> !Over(r, t, m)
    decreases j - i
  {
    hide Over;
    k := i;
    if !Over(r, t, i) { k := FirstOver(r, t, i + 1, j); }
  }

  lemma NewIdAfter(cfg: Config, ext: string, h: History, i: nat, k: nat, j: nat)
    requires StrictlyLater(h) && i <= k < j <= |h| && IdAt(cfg, ext, h, i).Some? && Ends(cfg, ext, h, k)
    ensures IdAt(cfg, ext, h, j) != IdAt(cfg, ext, h, i)
  {
    if IdAt(cfg, ext, h, j).Some? {
      IdBounds(cfg, ext, h, i);
      IdBounds(cfg, ext, h, j);
    }
  }

  /** The identity is that of the outage's first unavailable sample. */
  lemma {:induction false} IdIsFirstUnavailable(cfg: Config, ext: string, h: History, k: nat) returns (m: nat)
    requires k <= |h| && IdAt(cfg, ext, h, k).Some?
    ensures m < k && Read(cfg.role, h[m].endpoint).Gone? && IdAt(cfg, ext, h, k) == Some(Occurrence(ext, h[m].at))
    ensures h[m].roleChanged || IdAt(cfg, ext, h, m).None?
    ensures forall j :: m < j < k ==> !Ends(cfg, ext, h, j)
    decreases k
  {
    OneMore(cfg, ext, h, k - 1);
    StepId(cfg, ext, StateAt(cfg, ext, h, k - 1), h[k - 1]);
    m := k - 1;
    if !h[k - 1].roleChanged && IdAt(cfg, ext, h, k - 1).Some? {
      m := IdIsFirstUnavailable(cfg, ext, h, k - 1);
    }
  }

  /** An announced outage has an identity and the record of an unavailable sample, and only those are visible. */
  ghost predicate Evident(s: SignalState) {
    && (s.visible ==> s.notified)
    && (s.notified ==> s.id.Some?)
    && (s.id.Some? ==> s.evidence.Some? && s.evidence.value.Unavailable())
  }

  lemma StepEvident(cfg: Config, ext: string, prior: Option<SignalState>, s: Sample)
    requires SoundState(prior) && (prior.Some? ==> Evident(prior.value))
    ensures var r := Step(cfg, ext, prior, s);
      (r.state.Some? ==> Evident(r.state.value)) && (r.shown ==> r.state.Some? && r.state.value.visible)
  {
  }

  lemma {:induction false} ShownHasEvidence(cfg: Config, ext: string, h: History)
    ensures var r := Run(cfg, ext, h);
      (r.state.Some? ==> Evident(r.state.value)) && (r.shown ==> r.state.Some? && r.state.value.visible)
  {
    if h != [] {
      ShownHasEvidence(cfg, ext, h[..|h| - 1]);
      StepEvident(cfg, ext, Run(cfg, ext, h[..|h| - 1]).state, h[|h| - 1]);
    }
  }

  // ---------------------------------------------------------------- the health signals

  /** A health signal: its phone, its notification identity if it has one, and what it was read from. */
  datatype Signal = Signal(extension: string, occurrence: Option<Occurrence>, evidence: Endpoint)

  function Evidence(states: map<string, SignalState>): map<string, Endpoint> {
    map ext | ext in states && states[ext].visible && states[ext].evidence.Some? :: states[ext].evidence.value
  }

  function Ids(states: map<string, SignalState>): map<string, Occurrence> {
    map ext | ext in states && states[ext].visible && states[ext].id.Some? :: states[ext].id.value
  }

  ghost predicate UniquePhones(endpoints: seq<Endpoint>) {
    forall i, j :: 0 <= i < j < |endpoints| && !endpoints[i].role.Trunk? && !endpoints[j].role.Trunk? ==>
      endpoints[i].extension != endpoints[j].extension
  }

  ghost predicate OnePer(signals: seq<Signal>) {
    forall i, j :: 0 <= i < j < |signals| ==> signals[i].extension != signals[j].extension
  }

  /** The record says that the phone is unavailable. */
  predicate IsOut(e: Endpoint) { e.role == Extension && e.health != Unknown && e.phoneDown }

  /** The signal tells one of the first `n` current records, of a visible phone that is out. */
  ghost predicate TellsRecord(endpoints: seq<Endpoint>, n: int, visible: set<string>, ids: map<string, Occurrence>,
                              s: Signal)
  {
    exists k :: 0 <= k < n && k < |endpoints| && IsOut(endpoints[k]) && endpoints[k].extension in visible &&
      s == Signal(endpoints[k].extension, Get(ids, endpoints[k].extension), endpoints[k])
  }

  /** The signal tells what is on record of a visible phone that no current record says to be out. */
  ghost predicate TellsEvidence(endpoints: seq<Endpoint>, visible: set<string>, evidence: map<string, Endpoint>,
                                ids: map<string, Occurrence>, s: Signal)
  {
    && s.extension in visible && s.extension in evidence
    && (forall k :: 0 <= k < |endpoints| && endpoints[k].extension == s.extension ==> !IsOut(endpoints[k]))
    && s == Signal(s.extension, Get(ids, s.extension), evidence[s.extension])
  }

  lemma OneMoreRecord(endpoints: seq<Endpoint>, n: nat, visible: set<string>, ids: map<string, Occurrence>, s: Signal)
    requires n < |endpoints|
    ensures var e := endpoints[n];
      TellsRecord(endpoints, n + 1, visible, ids, s) <==>
        TellsRecord(endpoints, n, visible, ids, s) ||
        (IsOut(e) && e.extension in visible && s == Signal(e.extension, Get(ids, e.extension), e))
  {
  }

  /** Who has no signal yet is not out by any current record. */
  lemma NotEmitted(endpoints: seq<Endpoint>, visible: set<string>, ids: map<string, Occurrence>, emitted: set<string>,
                   ext: string)
    requires ext in visible
    requires ext in emitted <==>
      exists k :: 0 <= k < |endpoints| && IsOut(endpoints[k]) && endpoints[k].extension == ext
    ensures ext !in emitted <==>
      forall k :: 0 <= k < |endpoints| && endpoints[k].extension == ext ==> !IsOut(endpoints[k])
  {
  }

  /** Current records first, in their order, then what is on record of the rest. */
  method BuildSignals(endpoints: seq<Endpoint>, visible: set<string>, evidence: map<string, Endpoint>,
                      ids: map<string, Occurrence>)
      returns (signals: seq<Signal>)
    ensures forall s :: s in signals <==>
      TellsRecord(endpoints, |endpoints|, visible, ids, s) || TellsEvidence(endpoints, visible, evidence, ids, s)
    ensures UniquePhones(endpoints) ==> OnePer(signals)
  {
    hide TellsRecord;
    signals := [];
    var emitted: set<string> := {};
    NoRecords(endpoints, visible, ids);
    for i := 0 to |endpoints|
      invariant UniquePhones(endpoints) ==> OnePer(signals)
      invariant forall s :: s in signals <==> TellsRecord(endpoints, i, visible, ids, s)
      invariant forall s :: s in signals ==> s.extension in emitted
      invariant emitted <= visible
      invariant forall ext :: ext in emitted <==>
        ext in visible && exists k :: 0 <= k < i && IsOut(endpoints[k]) && endpoints[k].extension == ext
    {
      var e := endpoints[i];
      forall s ensures TellsRecord(endpoints, i + 1, visible, ids, s) <==>
        TellsRecord(endpoints, i, visible, ids, s) ||
        (IsOut(e) && e.extension in visible && s == Signal(e.extension, Get(ids, e.extension), e))
      {
        OneMoreRecord(endpoints, i, visible, ids, s);
      }
      if !e.role.Trunk? && e.Unavailable() && e.extension in visible {
        assert UniquePhones(endpoints) ==> e.extension !in emitted;
        signals := Append(signals, Signal(e.extension, Get(ids, e.extension), e));
        emitted := emitted + {e.extension};
      }
    }
    var rest := visible - emitted;
    while rest != {}
      invariant rest <= visible - emitted
      invariant UniquePhones(endpoints) ==> OnePer(signals)
      invariant forall s :: s in signals <==>
        TellsRecord(endpoints, |endpoints|, visible, ids, s) ||
        (s.extension in visible - emitted - rest && s.extension in evidence &&
         s == Signal(s.extension, Get(ids, s.extension), evidence[s.extension]))
      invariant forall s :: s in signals ==> s.extension in visible - rest
      decreases rest
    {
      var ext :| ext in rest;
      rest := rest - {ext};
      if ext in evidence {
        signals := Append(signals, Signal(ext, Get(ids, ext), evidence[ext]));
      }
    }
    forall ext | ext in visible
      ensures ext !in emitted <==>
        forall k :: 0 <= k < |endpoints| && endpoints[k].extension == ext ==> !IsOut(endpoints[k])
    {
      NotEmitted(endpoints, visible, ids, emitted, ext);
    }
  }

  lemma NoRecords(endpoints: seq<Endpoint>, visible: set<string>, ids: map<string, Occurrence>)
    ensures forall s :: !TellsRecord(endpoints, 0, visible, ids, s)
  {
  }

  /**
   The phone part of the signals: current evidence first, retained evidence for the rest. A phone
   listed twice gets a signal per listing.
   */
  method PhoneSignals(endpoints: seq<Endpoint>, visible: set<string>, evidence: map<string, Endpoint>,
                      ids: map<string, Occurrence>)
      returns (signals: seq<Signal>)
    ensures UniquePhones(endpoints) ==> OnePer(signals)
    ensures forall s :: s in signals ==> s.extension in visible && s.occurrence == Get(ids, s.extension)
    ensures forall ext :: ext in visible && ext in evidence ==> exists s :: s in signals && s.extension == ext
    ensures forall s :: s in signals <==>
      TellsRecord(endpoints, |endpoints|, visible, ids, s) || TellsEvidence(endpoints, visible, evidence, ids, s)
  {
    hide UniquePhones, OnePer;
    signals := BuildSignals(endpoints, visible, evidence, ids);
    forall ext | ext in visible && ext in evidence ensures exists s :: s in signals && s.extension == ext {
      if k :| 0 <= k < |endpoints| && IsOut(endpoints[k]) && endpoints[k].extension == ext {
        assert Signal(ext, Get(ids, ext), endpoints[k]) in signals;
      } else {
        assert Signal(ext, Get(ids, ext), evidence[ext]) in signals;
      }
    }
  }

  function Append(signals: seq<Signal>, s: Signal): (r: seq<Signal>)
    ensures s in r && forall t :: t in signals ==> t in r
    ensures forall t :: t in r ==> t == s || t in signals
    ensures OnePer(signals) && (forall t :: t in signals ==> t.extension != s.extension) ==> OnePer(r)
  {
    assert forall i :: 0 <= i < |signals| ==> signals[i] in signals;
    signals + [s]
  }

  /**
   A reachable observation followed by signal building yields a health signal for each visible
   phone, listed or not, under the identity of its outage, and just one if it is not listed twice.
   */
  method ObserveAndSignal(tracker: Tracker, snap: Snapshot) returns (visible: set<string>, signals: seq<Signal>)
    requires tracker.Valid() && snap.reachable
    modifies tracker`states, tracker`past
    ensures tracker.Valid() && tracker.past == old(tracker.past) + [snap]
    ensures forall ext :: ext in visible <==> Run(tracker.cfg, ext, Seen(tracker.cfg.role, tracker.past, ext)).shown
    ensures UniquePhones(snap.endpoints) ==> OnePer(signals)
    ensures InOrder(tracker.past) ==> forall ext :: ext in visible <==> IsDue(tracker.cfg, tracker.past, ext)
    ensures forall s :: s in signals ==> s.extension in visible
    ensures forall s :: s in signals ==> IsOut(s.evidence) || s.evidence.role == Trunk
    ensures forall s, e :: s in signals && e in snap.endpoints && e.extension == s.extension && IsOut(e) ==>
      s.evidence in snap.endpoints && s.evidence.extension == s.extension
    ensures forall ext :: ext in visible ==> exists s :: s in signals && s.extension == ext
    ensures forall s :: s in signals ==>
      s.occurrence.Some? && s.extension in tracker.states && s.occurrence == tracker.states[s.extension].id
  {
    hide UniquePhones, OnePer, ShouldShow, Run, InOrder, IsDue;
    visible := tracker.Observe(snap);
    forall ext | ext in visible
      ensures ext in tracker.states && tracker.states[ext].visible && Evident(tracker.states[ext])
    {
      ShownHasEvidence(tracker.cfg, ext, Seen(tracker.cfg.role, tracker.past, ext));
      assert Get(tracker.states, ext) == Run(tracker.cfg, ext, Seen(tracker.cfg.role, tracker.past, ext)).state;
    }
    signals := PhoneSignals(snap.endpoints, visible, Evidence(tracker.states), Ids(tracker.states));
  }
}
