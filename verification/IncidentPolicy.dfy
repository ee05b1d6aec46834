/**
 The Agent's notification policy: which signals become push events, and how
 phone outages that belong together become one incident with its own episode,
 revisions, updates, recovery and cooldown.
 */
module IncidentPolicy {
  import opened Options

  const MINIMUM_PHONES := 2
  const SHARED_CAUSE_PHONES := 3
  const SINGLE_DELAY := 10.0
  const CORRELATION := 15.0
  const UPDATE := 30.0
  const RECOVERY := 15.0
  const COOLDOWN := 120.0

  /** The kinds the policy tells apart; `LiveCall` stands for the four feed-only kinds. */
  datatype Kind = PhoneUnavailable | PhoneRecovered | LiveCall | Other(name: string)

  /**
   `checkedAt` is the check time among the technical details, which phone signals carry; `rest` is
   everything else in the signal: wording and evidence.
   */
  datatype Signal = Signal(
    id: string, active: bool, kind: Kind, category: string, importance: string,
    notificationId: Option<string>, checkedAt: Option<int>, rest: string)
  {
    /** What deduplication compares: everything but the occurrence token, the check time included. */
    function Fingerprint(): Signal { this.(notificationId := None) }

    predicate Relayable() {
      && active && category != "recommendation" && !kind.LiveCall?
      && (category == "activity" || importance in {"attention", "important"})
    }
  }

  datatype Incident = Incident(
    episode: nat, active: bool, affected: set<string>, current: set<string>, startedAt: real,
    notifiedAt: real, notified: set<string>, recoveryAt: real, recoveredAt: real,
    revision: nat, peak: nat)

  datatype Event =
    | ForSignal(signal: Signal)
    | ForIncident(episode: nat, revision: nat, count: nat, total: nat, peak: nat, recovered: bool)

  /** An event and the time of the observation that emitted it. */
  datatype Emission = Emission(event: Event, at: real)

  datatype State = State(
    delivered: map<string, Signal>, incident: Option<Incident>, firstSeen: map<string, real>,
    quietUntil: real, log: seq<Emission>)

  datatype Observation = Observation(signals: seq<Signal>, total: int, connected: bool, now: real) {
    function Phones(): set<string> {
      set s | s in signals && s.active && s.kind.PhoneUnavailable? :: s.id
    }
    function Recoveries(): set<string> {
      set s | s in signals && s.active && s.kind.PhoneRecovered? :: s.id
    }
    function ActiveIds(): set<string> {
      set s | s in signals && s.active :: s.id
    }
    function TotalPhones(): nat { if total < 0 then 0 else total }
  }

  const EMPTY := State(map[], None, map[], 0.0, [])

  /** What correlating an observation leaves: the state, and the signals kept from individual delivery. */
  datatype Correlated = Correlated(state: State, suppressed: set<string>)

  function SeenSince(st: State, o: Observation): map<string, real> {
    map id | id in o.Phones() :: if id in st.firstSeen then st.firstSeen[id] else o.now
  }

  /** An outage that vanished before it was notified keeps its recovery quiet for a while. */
  function QuietUntil(st: State, o: Observation): real {
    if LostUnannounced(st, o) then o.now + RECOVERY else st.quietUntil
  }

  predicate LostUnannounced(st: State, o: Observation) {
    exists id :: id in st.firstSeen && id !in o.Phones() && id !in st.delivered
  }

  predicate Timed(phones: set<string>, seen: map<string, real>) { phones <= seen.Keys }

  /** Phones whose outages began within the correlation window of the oldest one. */
  function Candidates(phones: set<string>, seen: map<string, real>): set<string>
    requires Timed(phones, seen)
  {
    set id | id in phones && forall o :: o in phones ==> seen[id] - seen[o] < CORRELATION
  }

  function Recent(phones: set<string>, seen: map<string, real>, now: real, window: real): set<string>
    requires Timed(phones, seen)
  {
    set id | id in phones && now - seen[id] < window
  }

  /** What the outages of an observation call for while there is no incident. */
  datatype Verdict = Hold(ids: set<string>) | Begin(ids: set<string>)

  function Judge(phones: set<string>, seen: map<string, real>, total: nat, now: real): Verdict
    requires Timed(phones, seen)
  {
    if total == 0 then Hold({})
    else if total < MINIMUM_PHONES then Hold(Recent(phones, seen, now, SINGLE_DELAY))
    else if phones == {} then Hold({})
    else
      var candidates := Candidates(phones, seen);
      if |candidates| >= SHARED_CAUSE_PHONES then Begin(candidates)
      else if Recent(phones, seen, now, CORRELATION) == phones then Hold(candidates)
      else if |candidates| >= MINIMUM_PHONES then Begin(candidates)
      else Hold(Recent(phones, seen, now, CORRELATION))
  }

  function NewIncident(ids: set<string>, episode: nat, now: real): Incident {
    Incident(episode, true, ids, ids, now, 0.0, {}, 0.0, 0.0, 0, |ids|)
  }

  /** The event for the incident's next revision. */
  function NextEvent(i: Incident, count: nat, total: nat, recovered: bool): Event {
    ForIncident(i.episode, i.revision + 1, count, total, if i.peak >= count then i.peak else count, recovered)
  }

  function Revised(i: Incident, count: nat): Incident {
    i.(revision := i.revision + 1, peak := if i.peak >= count then i.peak else count)
  }

  /** What one observation does to an incident: it may end, and it may emit one event. */
  datatype Advanced = Advanced(incident: Option<Incident>, current: set<string>, event: Option<Event>)

  /** Phones that belong to the incident once this observation is taken in. */
  function Joined(i: Incident, phones: set<string>, seen: map<string, real>): set<string>
    requires Timed(phones, seen)
  {
    i.affected + set id | id in phones && seen[id] >= i.startedAt
  }

  function Advance(i: Incident, phones: set<string>, seen: map<string, real>, total: nat, now: real): Advanced
    requires Timed(phones, seen)
  {
    var affected := Joined(i, phones, seen);
    var current := phones * affected;
    var j := i.(affected := affected);
    if !i.active && current == {} && now - i.recoveredAt >= COOLDOWN then Advanced(None, current, None)
    else
      var k := if !i.active && current != {}
               then j.(active := true, recoveryAt := 0.0, recoveredAt := 0.0, notifiedAt := 0.0) else j;
      var l := k.(current := current);
      if current != {} then
        var m := l.(recoveryAt := 0.0);
        if current != m.notified && (m.notifiedAt == 0.0 || now - m.notifiedAt >= UPDATE) then
          Advanced(Some(Revised(m, |current|).(notifiedAt := now, notified := current)), current,
                   Some(NextEvent(m, |current|, total, false)))
        else Advanced(Some(m), current, None)
      else if l.recoveryAt == 0.0 then Advanced(Some(l.(recoveryAt := now)), current, None)
      else if l.active && now - l.recoveryAt >= RECOVERY then
        Advanced(Some(Revised(l, 0).(active := false, recoveredAt := now, notifiedAt := now, notified := {})), current,
                 Some(NextEvent(l, 0, total, true)))
      else Advanced(Some(l), current, None)
  }

  /** The incident an observation works on: the one there is, or one it begins. */
  function Working(st: State, o: Observation, episode: nat): Option<Incident> {
    if st.incident.Some? then st.incident
    else match Judge(o.Phones(), SeenSince(st, o), o.TotalPhones(), o.now)
      case Begin(ids) => Some(NewIncident(ids, episode, o.now))
      case Hold(_) => None
  }

  function Correlate(st: State, o: Observation, episode: nat): Correlated {
    if !o.connected then Correlated(st, o.Phones() + o.Recoveries())
    else
      var seen := SeenSince(st, o);
      var quiet := QuietUntil(st, o);
      var st1 := st.(firstSeen := seen, quietUntil := quiet);
      var base := if o.now < quiet then o.Recoveries() else {};
      match Working(st, o, episode)
      case None =>
        Correlated(st1, base + Judge(o.Phones(), seen, o.TotalPhones(), o.now).ids)
      case Some(i) =>
        var a := Advance(i, o.Phones(), seen, o.TotalPhones(), o.now);
        Correlated(
          st1.(incident := a.incident,
               log := st.log + if a.event.Some? then [Emission(a.event.value, o.now)] else []),
          if a.incident.None? then base else base + a.current + o.Recoveries())
  }

  // ---------------------------------------------------------------- individual signals

  predicate IsPhoneId(id: string) { "sig_endpoint_" <= id }

  /** The deduplication records that survive an observation. */
  function Surviving(delivered: map<string, Signal>, o: Observation): map<string, Signal> {
    map id | id in delivered && (id in o.ActiveIds() || (!o.connected && IsPhoneId(id))) :: delivered[id]
  }

  function Relay(st: State, signals: seq<Signal>, suppressed: set<string>, now: real): State {
    if signals == [] then st
    else
      var n := |signals| - 1;
      RelayOne(Relay(st, signals[..n], suppressed, now), signals[n], suppressed, now)
  }

  predicate Emits(st: State, s: Signal, suppressed: set<string>) {
    s.id !in suppressed && s.Relayable() && Get(st.delivered, s.id) != Some(s.Fingerprint())
  }

  function RelayOne(st: State, s: Signal, suppressed: set<string>, now: real): State {
    if Emits(st, s, suppressed) then
      st.(delivered := st.delivered[s.id := s.Fingerprint()], log := st.log + [Emission(ForSignal(s), now)])
    else st
  }

  /** One observation, start to end. */
  function Step(st: State, o: Observation, episode: nat): State {
    var c := Correlate(st, o, episode);
    Relay(c.state.(delivered := Surviving(c.state.delivered, o)), o.signals, c.suppressed, o.now)
  }

  // ---------------------------------------------------------------- the policy object

  class RelayNotificationPolicy {
    var delivered: map<string, Signal>
    var incident: Option<Incident>
    var firstSeen: map<string, real>
    var quietUntil: real
    var log: seq<Emission>   // what was handed to the outbox, oldest first

    function Current(): State
      reads this
    {
      State(delivered, incident, firstSeen, quietUntil, log)
    }

    constructor ()
      ensures Current() == EMPTY
    {
      delivered, incident, firstSeen, quietUntil, log := map[], None, map[], 0.0, [];
    }

    /** Forgets outages that are over and starts the clock of new ones. */
    method TrackOutages(o: Observation)
      modifies this`firstSeen, this`quietUntil
      ensures firstSeen == SeenSince(old(Current()), o)
      ensures quietUntil == QuietUntil(old(Current()), o) && Timed(o.Phones(), firstSeen)
    {
      var vanished := false;
      var phones := o.Phones();
      var known := firstSeen.Keys;
      while known != {}
        invariant known <= old(firstSeen).Keys && quietUntil == old(quietUntil)
        invariant firstSeen == map id | id in old(firstSeen) && (id in known || id in phones) :: old(firstSeen)[id]
        invariant vanished <==>
          exists id :: id in old(firstSeen) && id !in phones && id !in delivered && id !in known
        decreases known
      {
        var id :| id in known;
        known := known - {id};
        if id !in phones {
          if id !in delivered {
            vanished := true;
          }
          firstSeen := firstSeen - {id};
        }
      }
      assert vanished <==> LostUnannounced(old(Current()), o);
      if vanished {
        quietUntil := o.now + RECOVERY;
      }
      var todo := phones;
      while todo != {}
        invariant todo <= phones && quietUntil == QuietUntil(old(Current()), o)
        invariant forall id :: id in firstSeen <==> id in phones && (id in old(firstSeen) || id !in todo)
        invariant forall id :: id in firstSeen ==>
          firstSeen[id] == if id in old(firstSeen) then old(firstSeen)[id] else o.now
        decreases todo
      {
        var id :| id in todo;
        todo := todo - {id};
        if id !in firstSeen {
          firstSeen := firstSeen[id := o.now];
        }
      }
    }

    /** The earliest start among the outages. */
    method Oldest(phones: set<string>) returns (at: real)
      requires phones != {} && Timed(phones, firstSeen)
      ensures exists id :: id in phones && firstSeen[id] == at
      ensures forall id :: id in phones ==> at <= firstSeen[id]
    {
      var first :| first in phones;
      at := firstSeen[first];
      var todo := phones - {first};
      while todo != {}
        invariant todo <= phones
        invariant exists id :: id in phones && firstSeen[id] == at
        invariant forall id :: id in phones - todo ==> at <= firstSeen[id]
        decreases todo
      {
        var id :| id in todo;
        todo := todo - {id};
        if firstSeen[id] < at {
          at := firstSeen[id];
        }
      }
    }

    /** Decides whether the outages at hand begin an incident, and which of them have to wait. */
    method ConsiderIncident(o: Observation, episode: nat) returns (held: set<string>)
      requires incident.None? && Timed(o.Phones(), firstSeen)
      modifies this`incident
      ensures match Judge(o.Phones(), firstSeen, o.TotalPhones(), o.now)
        case Hold(ids) => held == ids && incident.None?
        case Begin(ids) => incident == Some(NewIncident(ids, episode, o.now))
    {
      held := {};
      var phones := o.Phones();
      if o.TotalPhones() == 0 {
        return;
      }
      if o.TotalPhones() < MINIMUM_PHONES {
        held := set id | id in phones && o.now - firstSeen[id] < SINGLE_DELAY;
        return;
      }
      if phones == {} {
        return;
      }
      var oldest := Oldest(phones);
      var candidates := set id | id in phones && firstSeen[id] - oldest < CORRELATION;
      assert candidates == Candidates(phones, firstSeen);
      assert o.now - oldest < CORRELATION <==> Recent(phones, firstSeen, o.now, CORRELATION) == phones by {
        var id :| id in phones && firstSeen[id] == oldest;
        assert Recent(phones, firstSeen, o.now, CORRELATION) == phones ==>
          id in Recent(phones, firstSeen, o.now, CORRELATION);
      }
      if |candidates| >= SHARED_CAUSE_PHONES {
        incident := Some(NewIncident(candidates, episode, o.now));
      } else if o.now - oldest < CORRELATION {
        held := candidates;
      } else if |candidates| >= MINIMUM_PHONES {
        incident := Some(NewIncident(candidates, episode, o.now));
      } else {
        held := set id | id in phones && o.now - firstSeen[id] < CORRELATION;
      }
    }

    /** Emits the incident's next revision. */
    method QueueIncidentEvent(i: Incident, count: nat, total: nat, recovered: bool, now: real) returns (j: Incident)
      modifies this`log
      ensures j == Revised(i, count)
      ensures log == old(log) + [Emission(NextEvent(i, count, total, recovered), now)]
    {
      j := i.(revision := i.revision + 1);
      if j.peak < count {
        j := j.(peak := count);
      }
      log := log + [Emission(ForIncident(j.episode, j.revision, count, total, j.peak, recovered), now)];
    }

    /** Moves the incident through its phases. */
    method AdvanceIncident(o: Observation) returns (current: set<string>)
      requires incident.Some? && Timed(o.Phones(), firstSeen)
      modifies this`incident, this`log
      ensures var a := Advance(old(incident).value, o.Phones(), firstSeen, o.TotalPhones(), o.now);
        && incident == a.incident && current == a.current
        && log == old(log) + if a.event.Some? then [Emission(a.event.value, o.now)] else []
    {
      var phones := o.Phones();
      var i := incident.value;
      i := i.(affected := i.affected + set id | id in phones && firstSeen[id] >= i.startedAt);
      current := phones * i.affected;
      if !i.active {
        if current == {} && o.now - i.recoveredAt >= COOLDOWN {
          incident := None;
          return;
        }
        if current != {} {
          i := i.(active := true, recoveryAt := 0.0, recoveredAt := 0.0, notifiedAt := 0.0);
        }
      }
      i := i.(current := current);
      if current != {} {
        i := i.(recoveryAt := 0.0);
        if current != i.notified && (i.notifiedAt == 0.0 || o.now - i.notifiedAt >= UPDATE) {
          i := QueueIncidentEvent(i, |current|, o.TotalPhones(), false, o.now);
          i := i.(notifiedAt := o.now, notified := current);
        }
      } else if i.recoveryAt == 0.0 {
        i := i.(recoveryAt := o.now);
      } else if i.active && o.now - i.recoveryAt >= RECOVERY {
        i := QueueIncidentEvent(i, 0, o.TotalPhones(), true, o.now);
        i := i.(active := false, recoveredAt := o.now, notifiedAt := o.now, notified := {});
      }
      incident := Some(i);
    }

    /** Takes phone outages out of individual delivery as far as an incident speaks for them. */
    method CorrelateEndpointIncident(o: Observation, episode: nat) returns (suppressed: set<string>)
      modifies this`incident, this`firstSeen, this`quietUntil, this`log
      ensures Correlated(Current(), suppressed) == Correlate(old(Current()), o, episode)
    {
      hide Judge, Advance, SeenSince, QuietUntil;
      if !o.connected {
        return o.Phones() + o.Recoveries();
      }
      TrackOutages(o);
      suppressed := if o.now < quietUntil then o.Recoveries() else {};
      if incident.None? {
        var held := ConsiderIncident(o, episode);
        if incident.None? {
          suppressed := suppressed + held;
          return;
        }
      }
      var current := AdvanceIncident(o);
      if incident.Some? {
        suppressed := suppressed + current + o.Recoveries();
      }
    }

    /** Drops the records of signals that are not active; a disconnected observation keeps those of phones. */
    method ForgetInactive(o: Observation)
      modifies this`delivered
      ensures delivered == Surviving(old(delivered), o)
    {
      var kept := o.ActiveIds();
      if !o.connected {
        kept := kept + set id | id in delivered && IsPhoneId(id);
      }
      var records := delivered.Keys;
      while records != {}
        invariant records <= old(delivered).Keys
        invariant delivered == map id | id in old(delivered) && (id in records || id in kept) :: old(delivered)[id]
        decreases records
      {
        var id :| id in records;
        records := records - {id};
        if id !in kept {
          delivered := delivered - {id};
        }
      }
    }

    /** One observation: correlate, forget records of inactive signals, announce what changed. */
    method Observe(o: Observation, episode: nat)
      modifies this
      ensures Current() == Step(old(Current()), o, episode)
    {
      hide Correlate, Surviving;
      var suppressed := CorrelateEndpointIncident(o, episode);
      ForgetInactive(o);
      ghost var start := Current();
      for k := 0 to |o.signals|
        invariant Current() == Relay(start, o.signals[..k], suppressed, o.now)
      {
        var s := o.signals[k];
        assert o.signals[..k + 1][..k] == o.signals[..k];
        if s.id !in suppressed && s.Relayable() && Get(delivered, s.id) != Some(s.Fingerprint()) {
          delivered := delivered[s.id := s.Fingerprint()];
          log := log + [Emission(ForSignal(s), o.now)];
        }
      }
      assert o.signals[..|o.signals|] == o.signals;
    }
  }
}
