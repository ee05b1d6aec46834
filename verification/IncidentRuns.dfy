/**
 The notification policy over whole runs, told by the signals and the clock alone: since when each
 phone has been out, when outages begin an incident, and exactly which signals are announced.
 */
module IncidentRuns {
  import opened Options
  import opened IncidentPolicy
  import opened IncidentHistory
  import SignalQuiet

  // ---------------------------------------------------------------- since when a phone is out

  predicate Shows(o: Observation, id: string) {
    exists s :: s in o.signals && s.active && s.kind.PhoneUnavailable? && s.id == id
  }

  /** Every connected observation from `c` on, which is one, shows the phone unavailable. */
  ghost predicate ShownFrom(h: Run, id: string, c: nat) {
    c < |h| && h[c].connected && forall k :: c <= k < |h| && h[k].connected ==> Shows(h[k], id)
  }

  /** The outage that lasts at the end of the run began with observation `c`. */
  ghost predicate Began(h: Run, id: string, c: nat) {
    ShownFrom(h, id, c) && forall b: nat :: b < c ==> !ShownFrom(h, id, b)
  }

  ghost predicate Lasts(h: Run, id: string) { exists c: nat :: ShownFrom(h, id, c) }

  ghost function StartOf(h: Run, id: string): real {
    if exists c: nat :: Began(h, id, c) then var c: nat :| Began(h, id, c); h[c].now else 0.0
  }

  lemma {:induction false} BeganOnce(h: Run, id: string, b: nat, c: nat)
    requires Began(h, id, b) && Began(h, id, c)
    ensures b == c
  {
  }

  lemma {:induction false} FirstShown(h: Run, id: string, c: nat) returns (b: nat)
    requires ShownFrom(h, id, c)
    ensures Began(h, id, b) && b <= c
    decreases c
  {
    if exists a: nat :: a < c && ShownFrom(h, id, a) {
      var a: nat :| a < c && ShownFrom(h, id, a);
      b := FirstShown(h, id, a);
    } else {
      b := c;
    }
  }

  /** How one more observation moves the start of an outage. */
  lemma {:induction false} ShownStep(h: Run, o: Observation, id: string, c: nat)
    ensures ShownFrom(h + [o], id, c) <==>
      if c < |h| then ShownFrom(h, id, c) && (o.connected ==> Shows(o, id)) else c == |h| && o.connected && Shows(o, id)
  {
    assert forall k :: 0 <= k < |h| ==> (h + [o])[k] == h[k];
    assert (h + [o])[|h|] == o;
  }

  lemma {:induction false} BeganStep(h: Run, o: Observation, id: string, c: nat)
    requires Began(h + [o], id, c)
    ensures if c < |h| then Began(h, id, c) else c == |h| && o.connected && Shows(o, id) && !Lasts(h, id)
  {
    forall b: nat ensures ShownFrom(h + [o], id, b) <==>
      if b < |h| then ShownFrom(h, id, b) && (o.connected ==> Shows(o, id)) else b == |h| && o.connected && Shows(o, id)
    {
      ShownStep(h, o, id, b);
    }
    assert ShownFrom(h + [o], id, c);
    hide Shows;
    if c == |h| {
      forall b: nat ensures !ShownFrom(h, id, b) {
        assert !ShownFrom(h + [o], id, b) || b == |h|;
      }
    }
  }

  /** What the recorded starts mean. */
  ghost predicate StartsAt(seen: map<string, real>, h: Run, id: string) {
    && (id in seen <==> Lasts(h, id))
    && forall c: nat :: Began(h, id, c) ==> id in seen && seen[id] == h[c].now
  }

  lemma ShownIsPhone(o: Observation, id: string)
    ensures Shows(o, id) <==> id in o.Phones()
  {
  }

  lemma FirstSeenStep(st: State, o: Observation, episode: nat)
    ensures Step(st, o, episode).firstSeen == if o.connected then SeenSince(st, o) else st.firstSeen
    ensures Step(st, o, episode).quietUntil == if o.connected then QuietUntil(st, o) else st.quietUntil
  {
    var c := Correlate(st, o, episode);
    RelayKeepsIncidents(c.state.(delivered := Surviving(c.state.delivered, o)), o.signals, c.suppressed, o.now);
  }

  /** A start is recorded exactly while the outage lasts, and is the time of the observation it began with. */
  lemma {:induction false} StartsAreFirst(h: Run, id: string)
    ensures id in After(h).firstSeen <==> Lasts(h, id)
    ensures forall c: nat :: Began(h, id, c) ==> id in After(h).firstSeen && After(h).firstSeen[id] == h[c].now
  {
    if h != [] {
      var g, o := h[..|h| - 1], h[|h| - 1];
      assert g + [o] == h;
      StartsAreFirst(g, id);
      FirstSeenStep(After(g), o, |g|);
      StartsStep(g, o, id, After(g), After(h).firstSeen);
    }
  }

  lemma {:induction false} StartsStep(h: Run, o: Observation, id: string, st: State, seen: map<string, real>)
    requires StartsAt(st.firstSeen, h, id)
    requires seen == if o.connected then SeenSince(st, o) else st.firstSeen
    ensures StartsAt(seen, h + [o], id)
  {
    ShownIsPhone(o, id);
    assert id in seen <==> Lasts(h + [o], id) by {
      if id in seen {
        if Lasts(h, id) {
          var c: nat :| ShownFrom(h, id, c);
          ShownStep(h, o, id, c);
        } else {
          ShownStep(h, o, id, |h|);
        }
        assert Lasts(h + [o], id);
      }
      if c: nat :| ShownFrom(h + [o], id, c) {
        ShownStep(h, o, id, c);
        assert c < |h| ==> Lasts(h, id);
      }
    }
    hide Shows;
    forall c: nat | Began(h + [o], id, c) ensures id in seen && seen[id] == (h + [o])[c].now {
      BeganStep(h, o, id, c);
      assert Lasts(h + [o], id);
      assert c < |h| ==> Lasts(h, id);
    }
  }

  // ---------------------------------------------------------------- when an incident begins

  /** The phones shown whose outage began at `from` or later. */
  ghost function Joining(h: Run, o: Observation, from: real): set<string> {
    set s | s in o.signals && s.active && s.kind.PhoneUnavailable? && StartOf(h + [o], s.id) >= from :: s.id
  }

  /** The phones shown whose outage began less than 15 seconds after every other. */
  ghost function Together(h: Run, o: Observation): set<string> {
    set s | s in o.signals && s.active && s.kind.PhoneUnavailable? && StartsWithOthers(h, o, s.id) :: s.id
  }

  ghost predicate StartsWithOthers(h: Run, o: Observation, id: string) {
    forall p :: Shows(o, p) ==> StartOf(h + [o], id) - StartOf(h + [o], p) < 15.0
  }

  /** The observation adds this to what was handed to the outbox. */
  ghost predicate Adds(h: Run, o: Observation, e: Emission) {
    exists k :: |After(h).log| <= k < |After(h + [o]).log| && After(h + [o]).log[k] == e
  }

  lemma {:induction false} SeenIsStart(h: Run, o: Observation, id: string)
    requires o.connected && Shows(o, id)
    ensures id in SeenSince(After(h), o) && SeenSince(After(h), o)[id] == StartOf(h + [o], id)
  {
    StartsAreFirst(h + [o], id);
    SignalQuiet.AfterOne(h, o);
    FirstSeenStep(After(h), o, |h|);
    ShownIsPhone(o, id);
    var c: nat :| ShownFrom(h + [o], id, c);
    var b := FirstShown(h + [o], id, c);
    hide After, SeenSince, Shows;
  }

  lemma {:induction false} SetsAgree(h: Run, o: Observation, from: real)
    requires o.connected
    ensures var seen := SeenSince(After(h), o); var phones := o.Phones();
      && Timed(phones, seen)
      && Joining(h, o, from) == (set id | id in phones && seen[id] >= from)
      && Together(h, o) == Candidates(phones, seen)
  {
    var seen, phones := SeenSince(After(h), o), o.Phones();
    forall id ensures Shows(o, id) <==> id in phones { ShownIsPhone(o, id); }
    forall id | id in phones ensures id in seen && seen[id] == StartOf(h + [o], id) { SeenIsStart(h, o, id); }
    hide After, SeenSince, StartOf, Shows;
    assert forall s :: s in o.signals && s.active && s.kind.PhoneUnavailable? ==> s.id in phones;
  }

  /** A begun incident in full: whom it speaks for, and its first event. */
  ghost predicate BeginsWith(h: Run, o: Observation, ids: set<string>) {
    var i := After(h + [o]).incident; var n := |ids|;
    && i == Some(Incident(|h|, true, ids, ids, o.now, o.now, ids, 0.0, 0.0, 1, n))
    && o.total >= 0 && Adds(h, o, Emission(ForIncident(|h|, 1, n, o.total, n, false), o.now))
  }

  lemma {:induction false} AddsFirst(h: Run, o: Observation, e: Emission)
    requires Correlate(After(h), o, |h|).state.log == After(h).log + [e]
    ensures Adds(h, o, e)
  {
    SignalQuiet.AfterOne(h, o);
    StepLog(After(h), o, |h|);
    var log := Correlate(After(h), o, |h|).state.log;
    hide Correlate, Step, After;
    assert After(h + [o]).log[..|log|][|log| - 1] == e;
  }

  /** Whether outages begin an incident, over values. */
  lemma BeginsIff(phones: set<string>, seen: map<string, real>, total: nat, now: real)
    requires Timed(phones, seen)
    ensures var c := Candidates(phones, seen);
      Judge(phones, seen, total, now).Begin? <==>
        total >= 2 && (|c| >= 3 || (|c| >= 2 && exists id :: id in phones && now - seen[id] >= 15.0))
    ensures Judge(phones, seen, total, now).Begin? ==>
      Judge(phones, seen, total, now).ids == Candidates(phones, seen) && Candidates(phones, seen) != {}
    ensures Candidates(phones, seen) <= phones
  {
    assert Recent(phones, seen, now, CORRELATION) == phones <==> forall id :: id in phones ==>
      now - seen[id] < 15.0 by {
      assert Recent(phones, seen, now, CORRELATION) == phones ==>
        forall id :: id in phones ==> id in Recent(phones, seen, now, CORRELATION);
    }
    assert Candidates({}, seen) == {};
  }

  lemma FirstAdvance(ids: set<string>, episode: nat, phones: set<string>, seen: map<string, real>, total: nat,
                     now: real)
    requires Timed(phones, seen) && ids <= phones && ids != {}
    ensures var all := ids + set id | id in phones && seen[id] >= now;
      Advance(NewIncident(ids, episode, now), phones, seen, total, now) ==
        Advanced(Some(Incident(episode, true, all, all, now, now, all, 0.0, 0.0, 1, |all|)), all,
                 Some(ForIncident(episode, 1, |all|, total, |all|, false)))
  {
    var all := ids + set id | id in phones && seen[id] >= now;
    SubsetSize(ids, all);
    assert phones * all == all;
  }

  /**
   Without an incident, a connected observation begins one exactly when two phones or more are
   monitored, and three outages began within 15 seconds of the oldest, or two did and some outage has
   lasted 15 seconds. It speaks for those phones, and for the ones that just went out.
   */
  lemma {:induction false} IncidentBeginsIff(h: Run, o: Observation)
    requires After(h).incident.None? && o.connected
    ensures After(h + [o]).incident.Some? <==>
      && o.total >= 2
      && (|Together(h, o)| >= 3 ||
          (|Together(h, o)| >= 2 && exists id :: Shows(o, id) && o.now - StartOf(h + [o], id) >= 15.0))
    ensures After(h + [o]).incident.Some? ==> BeginsWith(h, o, Together(h, o) + Joining(h, o, o.now))
  {
    var st, seen, phones := After(h), SeenSince(After(h), o), o.Phones();
    SetsAgree(h, o, o.now);
    forall id ensures Shows(o, id) <==> id in phones { ShownIsPhone(o, id); }
    forall id | id in phones ensures id in seen && seen[id] == StartOf(h + [o], id) { SeenIsStart(h, o, id); }
    BeginsIff(phones, seen, o.TotalPhones(), o.now);
    SignalQuiet.AfterOne(h, o);
    StepIncident(st, o, |h|);
    CorrelateShape(st, o, |h|);
    hide After, Step, Correlate, Judge, SeenSince, StartOf, Shows, Advance, Candidates, Together, Joining;
    if Working(st, o, |h|).Some? {
      FirstAdvance(Together(h, o), |h|, phones, seen, o.TotalPhones(), o.now);
      AddsFirst(h, o, Emission(AdvanceOf(st, o, |h|).event.value, o.now));
    }
  }

  lemma {:induction false} InTogether(h: Run, o: Observation, id: string)
    ensures id in Together(h, o) <==> Shows(o, id) && StartsWithOthers(h, o, id)
  {
  }

  /**
   Two phones out, of at least two monitored: if one went out less than 15 seconds after the other,
   an incident begins exactly when the older outage has lasted 15 seconds, and otherwise none begins.
   */
  lemma {:induction false} TwoPhones(h: Run, o: Observation, older: string, younger: string)
    requires After(h).incident.None? && o.connected && o.total >= 2 && older != younger
    requires forall id :: Shows(o, id) <==> id in {older, younger}
    requires StartOf(h + [o], older) <= StartOf(h + [o], younger)
    ensures After(h + [o]).incident.Some? <==>
      && StartOf(h + [o], younger) - StartOf(h + [o], older) < 15.0
      && o.now - StartOf(h + [o], older) >= 15.0
  {
    hide After, StartOf, BeginsWith, Joining;
    IncidentBeginsIff(h, o);
    var both := Together(h, o);
    forall id ensures id in both <==> Shows(o, id) && StartsWithOthers(h, o, id) { InTogether(h, o, id); }
    hide Together, Shows;
    assert Shows(o, older) && Shows(o, younger);
    assert forall id :: id in both ==> Shows(o, id);
    assert older in both && both <= {older, younger};
    assert younger in both <==> StartOf(h + [o], younger) - StartOf(h + [o], older) < 15.0;
    if younger in both {
      assert both == {older, younger};
    } else {
      assert both == {older};
    }
  }

  /** Three phones that went out within 15 seconds of each other, and no other before, begin an incident at once. */
  lemma {:induction false} ThreePhones(h: Run, o: Observation, a: string, b: string, c: string)
    requires After(h).incident.None? && o.connected && o.total >= 2 && |{a, b, c}| == 3
    requires forall id :: id in {a, b, c} ==> Shows(o, id) && StartsWithOthers(h, o, id)
    ensures After(h + [o]).incident.Some?
  {
    hide After, StartOf, BeginsWith, Joining;
    IncidentBeginsIff(h, o);
    forall id | id in {a, b, c} ensures id in Together(h, o) { InTogether(h, o, id); }
    SubsetSize({a, b, c}, Together(h, o));
  }

  // ---------------------------------------------------------------- how an incident goes on

  /** The phones shown that belong to the incident, once those that went out since it began have joined. */
  ghost function Hit(h: Run, o: Observation, i: Incident): set<string> {
    set s | && s in o.signals && s.active && s.kind.PhoneUnavailable?
            && (s.id in i.affected || StartOf(h + [o], s.id) >= i.startedAt) :: s.id
  }

  /** A recovered incident is over after 120 seconds without a hit. */
  ghost predicate IsOver(i: Incident, hit: set<string>, now: real) {
    !i.active && hit == {} && now - i.recoveredAt >= 120.0
  }

  /** Who is hit has changed, and the last event is 30 seconds old, or the incident comes back. */
  ghost predicate TellsOutage(i: Incident, hit: set<string>, now: real) {
    hit != {} && hit != i.notified && (!i.active || i.notifiedAt == 0.0 || now - i.notifiedAt >= 30.0)
  }

  /** Nobody has been hit for 15 seconds. */
  ghost predicate TellsRecovery(i: Incident, hit: set<string>, now: real) {
    i.active && hit == {} && i.recoveryAt != 0.0 && now - i.recoveryAt >= 15.0
  }

  ghost function Greatest(a: nat, b: nat): nat { if a < b then b else a }

  /** What an observation makes of the incident `i`, written out. */
  ghost predicate GoesOn(i: Incident, hit: set<string>, now: real, j: Incident) {
    && j.episode == i.episode && j.startedAt == i.startedAt
    && j.affected == i.affected + hit && j.current == hit
    && (j.active <==> hit != {} || (i.active && !TellsRecovery(i, hit, now)))
    && (if TellsOutage(i, hit, now) then
          && j.revision == i.revision + 1 && j.peak == Greatest(i.peak, |hit|)
          && j.notified == hit && j.notifiedAt == now
        else if TellsRecovery(i, hit, now) then
          j.revision == i.revision + 1 && j.peak == i.peak && j.notified == {} && j.notifiedAt == now
        else
          && j.revision == i.revision && j.peak == i.peak && j.notified == i.notified
          && j.notifiedAt == if hit != {} && !i.active then 0.0 else i.notifiedAt)
    && j.recoveryAt == (if hit != {} then 0.0 else if i.recoveryAt == 0.0 then now else i.recoveryAt)
    && j.recoveredAt == if TellsRecovery(i, hit, now) then now else if hit != {} &&
      !i.active then 0.0 else i.recoveredAt
  }

  /** The incident events of an observation. */
  ghost predicate Tells(i: Incident, hit: set<string>, total: nat, now: real, e: Event) {
    || (TellsOutage(i, hit, now) &&
        e == ForIncident(i.episode, i.revision + 1, |hit|, total, Greatest(i.peak, |hit|), false))
    || (TellsRecovery(i, hit, now) && e == ForIncident(i.episode, i.revision + 1, 0, total, i.peak, true))
  }

  lemma JoinedHit(i: Incident, phones: set<string>, seen: map<string, real>)
    requires Timed(phones, seen)
    ensures var hit := set id | id in phones && (id in i.affected || seen[id] >= i.startedAt);
      phones * Joined(i, phones, seen) == hit && Joined(i, phones, seen) == i.affected + hit &&
        (hit == {} <==> |hit| == 0)
  {
  }

  lemma AdvanceEnds(i: Incident, phones: set<string>, seen: map<string, real>, total: nat, now: real)
    requires Timed(phones, seen)
    ensures var hit := phones * Joined(i, phones, seen); var a := Advance(i, phones, seen, total, now);
      && a.current == hit && (a.incident.None? <==> IsOver(i, hit, now))
  {
    hide Joined, NextEvent, Revised;
  }

  lemma AdvanceTells(i: Incident, phones: set<string>, seen: map<string, real>, total: nat, now: real)
    requires Timed(phones, seen)
    ensures var hit := phones * Joined(i, phones, seen); var a := Advance(i, phones, seen, total, now);
      forall e :: a.event == Some(e) <==> Tells(i, hit, total, now, e)
  {
    hide Joined;
  }

  lemma AdvanceToHit(i: Incident, phones: set<string>, seen: map<string, real>, total: nat, now: real)
    requires Timed(phones, seen) && Joined(i, phones, seen) == i.affected + phones * Joined(i, phones, seen)
    requires phones * Joined(i, phones, seen) != {}
    ensures var hit := phones * Joined(i, phones, seen); var a := Advance(i, phones, seen, total, now);
      a.incident.Some? ==> GoesOn(i, hit, now, a.incident.value)
  {
    hide Joined, NextEvent;
  }

  lemma AdvanceToClear(i: Incident, phones: set<string>, seen: map<string, real>, total: nat, now: real)
    requires Timed(phones, seen) && Joined(i, phones, seen) == i.affected + phones * Joined(i, phones, seen)
    requires phones * Joined(i, phones, seen) == {}
    ensures var hit := phones * Joined(i, phones, seen); var a := Advance(i, phones, seen, total, now);
      a.incident.Some? ==> GoesOn(i, hit, now, a.incident.value)
  {
    hide Joined, NextEvent;
  }

  lemma AdvanceIs(i: Incident, phones: set<string>, seen: map<string, real>, total: nat, now: real)
    requires Timed(phones, seen)
    ensures var hit := set id | id in phones && (id in i.affected || seen[id] >= i.startedAt);
      var a := Advance(i, phones, seen, total, now);
      && a.current == hit
      && (a.incident.None? <==> IsOver(i, hit, now))
      && (a.incident.Some? ==> GoesOn(i, hit, now, a.incident.value))
      && forall e :: a.event == Some(e) <==> Tells(i, hit, total, now, e)
  {
    JoinedHit(i, phones, seen);
    hide Joined, Advance, IsOver, GoesOn, Tells;
    AdvanceEnds(i, phones, seen, total, now);
    AdvanceTells(i, phones, seen, total, now);
    if phones * Joined(i, phones, seen) != {} {
      AdvanceToHit(i, phones, seen, total, now);
    } else {
      AdvanceToClear(i, phones, seen, total, now);
    }
  }

  lemma {:induction false} HitAgrees(h: Run, o: Observation, i: Incident)
    requires o.connected
    ensures var seen := SeenSince(After(h), o); var phones := o.Phones();
      && Timed(phones, seen)
      && Hit(h, o, i) == (set id | id in phones && (id in i.affected || seen[id] >= i.startedAt))
  {
    var seen, phones := SeenSince(After(h), o), o.Phones();
    forall id ensures Shows(o, id) <==> id in phones { ShownIsPhone(o, id); }
    forall id | id in phones ensures id in seen && seen[id] == StartOf(h + [o], id) { SeenIsStart(h, o, id); }
    hide After, SeenSince, StartOf, Shows;
    assert forall s :: s in o.signals && s.active && s.kind.PhoneUnavailable? ==> s.id in phones;
  }

  /** The incident events an observation adds are those of correlation. */
  lemma {:induction false} AddsIncident(h: Run, o: Observation, e: Emission)
    requires e.event.ForIncident?
    ensures Adds(h, o, e) <==>
      o.connected && Working(After(h), o, |h|).Some? && e in Emitted(AdvanceOf(After(h), o, |h|), o.now)
  {
    var st := After(h);
    SignalQuiet.AfterOne(h, o);
    CorrelateShape(st, o, |h|);
    StepLog(st, o, |h|);
    var log, log' := Correlate(st, o, |h|).state.log, After(h + [o]).log;
    hide After, Step, Correlate, Advance, Judge, SeenSince;
    assert forall k :: 0 <= k < |log| ==> log'[k] == log'[..|log|][k];
    if o.connected && Working(st, o, |h|).Some? && e in Emitted(AdvanceOf(st, o, |h|), o.now) {
      assert log'[|st.log|] == e;
    }
  }

  /**
   One connected observation of an incident: when it is over, which event it adds and what it leaves,
   from the incident before and the phones hit.
   */
  lemma {:induction false} IncidentGoesOn(h: Run, o: Observation)
    requires After(h).incident.Some? && o.connected
    ensures var i := After(h).incident.value; var hit := Hit(h, o, i); var next := After(h + [o]).incident;
      && (next.None? <==> IsOver(i, hit, o.now))
      && (next.Some? ==> GoesOn(i, hit, o.now, next.value))
      && forall e, at :: Adds(h, o, Emission(e, at)) && e.ForIncident? <==>
           at == o.now && Tells(i, hit, if o.total < 0 then 0 else o.total, o.now, e)
  {
    var st := After(h);
    var i := st.incident.value;
    HitAgrees(h, o, i);
    SignalQuiet.AfterOne(h, o);
    StepIncident(st, o, |h|);
    CorrelateShape(st, o, |h|);
    AdvanceIs(i, o.Phones(), SeenSince(st, o), o.TotalPhones(), o.now);
    var hit := Hit(h, o, i);
    forall e, at ensures Adds(h, o, Emission(e, at)) && e.ForIncident? <==>
      at == o.now && Tells(i, hit, o.TotalPhones(), o.now, e)
    {
      if e.ForIncident? { AddsIncident(h, o, Emission(e, at)); }
    }
  }

  // ---------------------------------------------------------------- when recoveries are kept quiet

  /** Observation `o` after `h` no longer shows an outage that was never announced. */
  ghost predicate Vanishes(h: Run, o: Observation) {
    o.connected && exists id :: Lasts(h, id) && !Shows(o, id) && id !in After(h).delivered
  }

  ghost predicate VanishedAt(h: Run, k: nat) { k < |h| && Vanishes(h[..k], h[k]) }

  /** Within the last 15 seconds an outage vanished that was never announced. */
  ghost predicate VanishedLately(h: Run, now: real) {
    exists k: nat :: VanishedAt(h, k) && now - h[k].now < 15.0
  }

  lemma {:induction false} VanishesIsLost(h: Run, o: Observation)
    ensures Vanishes(h, o) <==> o.connected && LostUnannounced(After(h), o)
  {
    forall id ensures id in After(h).firstSeen <==> Lasts(h, id) { StartsAreFirst(h, id); }
    forall id ensures Shows(o, id) <==> id in o.Phones() { ShownIsPhone(o, id); }
    hide After, Shows, Lasts;
  }

  lemma {:induction false} VanishedStep(h: Run, o: Observation, k: nat)
    ensures VanishedAt(h + [o], k) <==> if k < |h| then VanishedAt(h, k) else k == |h| && Vanishes(h, o)
  {
    if k < |h| { assert (h + [o])[..k] == h[..k]; } else { assert (h + [o])[..|h|] == h; }
    hide Vanishes;
  }

  lemma {:induction false} QuietStep(h: Run, o: Observation, before: real, after: real, now: real)
    requires 0.0 < now && forall k: nat :: k < |h| ==> h[k].now <= o.now
    requires now < before <==> VanishedLately(h, now)
    requires after == if Vanishes(h, o) then o.now + 15.0 else before
    ensures now < after <==> VanishedLately(h + [o], now)
  {
    forall k: nat ensures VanishedAt(h + [o], k) <==> if k < |h| then VanishedAt(h, k) else k == |h| && Vanishes(h, o) {
      VanishedStep(h, o, k);
    }
    hide VanishedAt, Vanishes;
    var g := h + [o];
    assert g[|h|] == o && forall k: nat :: k < |h| ==> g[k] == h[k];
    if VanishedLately(h, now) {
      var k: nat :| VanishedAt(h, k) && now - h[k].now < 15.0;
      assert VanishedAt(g, k) || k >= |h|;
    }
  }

  /** Recoveries are kept quiet for 15 seconds after an outage vanished that was never announced. */
  lemma {:induction false} QuietWhileVanished(h: Run, now: real)
    requires Clocked(h) && now > 0.0
    ensures now < After(h).quietUntil <==> VanishedLately(h, now)
  {
    if h != [] {
      var g, o := h[..|h| - 1], h[|h| - 1];
      assert g + [o] == h;
      QuietWhileVanished(g, now);
      FirstSeenStep(After(g), o, |g|);
      VanishesIsLost(g, o);
      assert After(h) == Step(After(g), o, |g|);
      hide After, Step, VanishedLately, Vanishes;
      QuietStep(g, o, After(g).quietUntil, After(h).quietUntil, now);
    }
  }

  // ---------------------------------------------------------------- which signals are announced

  /** A phone out is kept back while its outage is young, or while an incident speaks for it. */
  ghost predicate KeptBack(h: Run, o: Observation, id: string) {
    var before, after := After(h).incident, After(h + [o]).incident;
    || !o.connected
    || (after.Some? && id in after.value.affected)
    || (before.None? && after.None? && o.total >= 1 &&
        o.now - StartOf(h + [o], id) < if o.total == 1 then 10.0 else 15.0)
  }

  /** A recovery is kept back while there is an incident, or when the outage was never told. */
  ghost predicate RecoveryKeptBack(h: Run, o: Observation) {
    !o.connected || After(h + [o]).incident.Some? || VanishedLately(h + [o], o.now)
  }

  /** What is worth a push, field by field. */
  predicate WorthTelling(s: Signal) {
    && s.active && s.category != "recommendation" && s.kind != LiveCall
    && (s.category == "activity" || s.importance == "attention" || s.importance == "important")
  }

  /** What is kept back without an incident is young. */
  lemma HeldIffYoung(phones: set<string>, seen: map<string, real>, total: int, now: real, id: string)
    requires Timed(phones, seen) && id in phones && forall p :: p in phones ==> seen[p] <= now
    requires Judge(phones, seen, if total < 0 then 0 else total, now).Hold?
    ensures id in Judge(phones, seen, if total < 0 then 0 else total, now).ids <==>
      total >= 1 && now - seen[id] < if total == 1 then 10.0 else 15.0
  {
    if total >= 2 && Recent(phones, seen, now, CORRELATION) == phones {
      assert forall p :: p in phones ==> p in Recent(phones, seen, now, CORRELATION);
      assert id in Candidates(phones, seen);
    }
  }

  /** The phones that correlation keeps from individual delivery. */
  lemma SuppressedPhones(st: State, o: Observation, episode: nat, id: string)
    requires o.connected && id in o.Phones() && id !in o.Recoveries()
    ensures var c := Correlate(st, o, episode);
      id in c.suppressed <==>
        if Working(st, o, episode).Some? then
          c.state.incident.Some? && id in c.state.incident.value.affected
        else id in Judge(o.Phones(), SeenSince(st, o), o.TotalPhones(), o.now).ids
  {
    hide Judge, SeenSince, QuietUntil;
  }

  lemma HoldsPhones(phones: set<string>, seen: map<string, real>, total: nat, now: real)
    requires Timed(phones, seen)
    ensures Judge(phones, seen, total, now).Hold? ==> Judge(phones, seen, total, now).ids <= phones
  {
  }

  lemma SuppressedRecoveries(st: State, o: Observation, episode: nat, id: string)
    requires o.connected && id in o.Recoveries() && id !in o.Phones()
    ensures var c := Correlate(st, o, episode);
      id in c.suppressed <==> c.state.incident.Some? || o.now < c.state.quietUntil
  {
    HoldsPhones(o.Phones(), SeenSince(st, o), o.TotalPhones(), o.now);
    hide Judge, QuietUntil;
  }

  lemma HitsPhones(i: Incident, phones: set<string>, seen: map<string, real>, total: nat, now: real)
    requires Timed(phones, seen)
    ensures Advance(i, phones, seen, total, now).current <= phones
  {
    hide Joined;
  }

  lemma SuppressedOthers(st: State, o: Observation, episode: nat, id: string)
    requires id !in o.Recoveries() && id !in o.Phones()
    ensures id !in Correlate(st, o, episode).suppressed
  {
    HoldsPhones(o.Phones(), SeenSince(st, o), o.TotalPhones(), o.now);
    if Working(st, o, episode).Some? {
      HitsPhones(Working(st, o, episode).value, o.Phones(), SeenSince(st, o), o.TotalPhones(), o.now);
    }
    hide Judge, QuietUntil, Advance, SeenSince, Working;
  }

  lemma {:induction false} AddsSignal(h: Run, o: Observation, s: Signal)
    ensures Adds(h, o, Emission(ForSignal(s), o.now)) <==> SignalQuiet.Announced(After(h), o, |h|, s)
  {
    SignalQuiet.AfterOne(h, o);
    SignalQuiet.StepAddsToLog(After(h), o, |h|);
  }

  /** Without an incident, what correlation keeps back is what is young. */
  lemma {:induction false} PhoneKeptBack(h: Run, o: Observation, id: string)
    requires Clocked(h + [o]) && id in o.Phones() && id !in o.Recoveries()
    ensures id in Correlate(After(h), o, |h|).suppressed <==> KeptBack(h, o, id)
  {
    var st := After(h);
    SignalQuiet.AfterOne(h, o);
    StepIncident(st, o, |h|);
    if o.connected {
      ShownIsPhone(o, id);
      SuppressedPhones(st, o, |h|, id);
      CorrelateShape(st, o, |h|);
      if Working(st, o, |h|).None? {
        StartsAreEarlier(h, o);
        SeenIsStart(h, o, id);
        HeldIffYoung(o.Phones(), SeenSince(st, o), o.total, o.now, id);
      } else if st.incident.None? {
        BegunStays(st, o, |h|);
      }
    }
  }

  lemma BegunStays(st: State, o: Observation, episode: nat)
    requires o.connected && st.incident.None? && Working(st, o, episode).Some?
    ensures Correlate(st, o, episode).state.incident.Some?
  {
    CorrelateShape(st, o, episode);
  }

  lemma {:induction false} StartsAreEarlier(h: Run, o: Observation)
    requires Clocked(h + [o]) && o.connected
    ensures forall p :: p in o.Phones() ==> p in SeenSince(After(h), o) && SeenSince(After(h), o)[p] <= o.now
  {
    forall p | p in o.Phones() ensures p in SeenSince(After(h), o) && SeenSince(After(h), o)[p] <= o.now {
      if p in After(h).firstSeen {
        StartsAreFirst(h, p);
        var c: nat :| ShownFrom(h, p, c);
        var b := FirstShown(h, p, c);
        assert (h + [o])[b] == h[b] && (h + [o])[|h|] == o;
      }
    }
  }

  lemma {:induction false} RecoveryIsKeptBack(h: Run, o: Observation, id: string)
    requires Clocked(h + [o]) && id in o.Recoveries() && id !in o.Phones()
    ensures id in Correlate(After(h), o, |h|).suppressed <==> RecoveryKeptBack(h, o)
  {
    var st := After(h);
    SignalQuiet.AfterOne(h, o);
    StepIncident(st, o, |h|);
    if o.connected {
      SuppressedRecoveries(st, o, |h|, id);
      FirstSeenStep(st, o, |h|);
      assert (h + [o])[|h|] == o;
      QuietWhileVanished(h + [o], o.now);
      SameQuiet(st, o, |h|);
    }
  }

  lemma SameQuiet(st: State, o: Observation, episode: nat)
    requires o.connected
    ensures Correlate(st, o, episode).state.quietUntil == QuietUntil(st, o)
  {
  }

  /** Whether correlation keeps back a signal whose id nothing else has. */
  ghost predicate Kept(h: Run, o: Observation, s: Signal) {
    (s.kind.PhoneUnavailable? && KeptBack(h, o, s.id)) || (s.kind.PhoneRecovered? && RecoveryKeptBack(h, o))
  }

  lemma {:induction false} SuppressedIsKept(h: Run, o: Observation, s: Signal)
    requires Clocked(h + [o]) && s in o.signals && SignalQuiet.OnlyAs(o.signals, s) && s.active
    ensures s.id in Correlate(After(h), o, |h|).suppressed <==> Kept(h, o, s)
  {
    assert s.id in o.Phones() <==> s.kind.PhoneUnavailable?;
    assert s.id in o.Recoveries() <==> s.kind.PhoneRecovered?;
    hide Correlate, After, KeptBack, RecoveryKeptBack;
    if s.kind.PhoneUnavailable? {
      PhoneKeptBack(h, o, s.id);
    } else if s.kind.PhoneRecovered? {
      RecoveryIsKeptBack(h, o, s.id);
    } else {
      SuppressedOthers(After(h), o, |h|, s.id);
    }
  }

  lemma ChangedIffNew(st: State, o: Observation, episode: nat, s: Signal)
    requires s in o.signals && SignalQuiet.OnlyAs(o.signals, s)
    ensures SignalQuiet.Announced(st, o, episode, s) <==>
      && s.id !in Correlate(st, o, episode).suppressed && s.Relayable()
      && Get(st.delivered, s.id) != Some(s.Fingerprint())
  {
    var suppressed := Correlate(st, o, episode).suppressed;
    SignalQuiet.AnnouncedIffChanged(st, o, episode, s);
    var first := SignalQuiet.FirstPlace(o.signals, s);
    hide Correlate;
    assert SignalQuiet.ChangedAt(st.delivered, o.signals, suppressed, first, s) <==>
      s.id !in suppressed && s.Relayable() && Get(st.delivered, s.id) != Some(s.Fingerprint());
    forall k: nat | SignalQuiet.ChangedAt(st.delivered, o.signals, suppressed, k, s)
      ensures s.id !in suppressed && s.Relayable() && Get(st.delivered, s.id) != Some(s.Fingerprint())
    {
      SignalQuiet.OnlyItself(o.signals[..k], s);
    }
  }

  /**
   On every run, a signal whose id nothing else in the observation has is announced exactly when it is
   worth telling, differs from what was delivered in more than its occurrence token, and is not kept
   back: a phone for 10 or 15 seconds or while an incident speaks for it, a recovery next to an
   incident or a vanished outage, both while disconnected.
   */
  lemma {:induction false} AnnouncedExactly(h: Run, o: Observation, s: Signal)
    requires Clocked(h + [o]) && s in o.signals && SignalQuiet.OnlyAs(o.signals, s)
    ensures Adds(h, o, Emission(ForSignal(s), o.now)) <==>
      && WorthTelling(s) && Get(After(h).delivered, s.id) != Some(s.(notificationId := None))
      && !(s.kind.PhoneUnavailable? && KeptBack(h, o, s.id)) && !(s.kind.PhoneRecovered? && RecoveryKeptBack(h, o))
  {
    AddsSignal(h, o, s);
    ChangedIffNew(After(h), o, |h|, s);
    if s.active { SuppressedIsKept(h, o, s); }
    hide Correlate, After, KeptBack, RecoveryKeptBack, Adds, SignalQuiet.Announced;
  }

  /**
   The lone outage: with one phone out and no incident, its signal is announced exactly when it is worth
   telling and new, and the outage has lasted 15 seconds, or 10 if it is the only phone monitored.
   */
  lemma {:induction false} LoneOutageWaits(h: Run, o: Observation, s: Signal, c: nat)
    requires Clocked(h + [o]) && o.connected && o.total >= 1 && After(h).incident.None?
    requires s in o.signals && SignalQuiet.OnlyAs(o.signals, s) && s.active && s.kind.PhoneUnavailable?
    requires forall id :: Shows(o, id) ==> id == s.id
    requires Began(h + [o], s.id, c)
    ensures After(h + [o]).incident.None?
    ensures Adds(h, o, Emission(ForSignal(s), o.now)) <==>
      && WorthTelling(s) && Get(After(h).delivered, s.id) != Some(s.(notificationId := None))
      && o.now - (h + [o])[c].now >= if o.total == 1 then 10.0 else 15.0
  {
    AnnouncedExactly(h, o, s);
    IncidentBeginsIff(h, o);
    StartIs(h + [o], s.id, c);
    forall id | id in Together(h, o) ensures id == s.id { InTogether(h, o, id); }
    hide After, Together, Adds, StartOf, BeginsWith, Began;
    SubsetSize(Together(h, o), {s.id});
  }

  lemma {:induction false} StartIs(h: Run, id: string, c: nat)
    requires Began(h, id, c)
    ensures StartOf(h, id) == h[c].now
  {
  }

  /**
   What an observation leaves on record of an id that one signal has: that signal if it was announced,
   and otherwise what there was, unless the signal is inactive; a disconnected observation keeps phones.
   */
  lemma {:induction false} RecordExactly(h: Run, o: Observation, s: Signal)
    requires s in o.signals && SignalQuiet.OnlyAs(o.signals, s)
    ensures Get(After(h + [o]).delivered, s.id) ==
      if Adds(h, o, Emission(ForSignal(s), o.now)) then Some(s.(notificationId := None))
      else if s.active || (!o.connected && "sig_endpoint_" <= s.id) then Get(After(h).delivered, s.id)
      else None
  {
    var st := After(h);
    AddsSignal(h, o, s);
    ChangedIffNew(st, o, |h|, s);
    SignalQuiet.AfterOne(h, o);
    RecordAfter(st, o, |h|, s.id);
    SignalQuiet.OnlyItself(o.signals, s);
    RelayedIsRelayable(o.signals, s);
    assert s.id in o.ActiveIds() <==> s.active;
    hide Correlate, After, Step, Adds, SignalQuiet.Announced;
  }

  lemma {:induction false} RelayedIsRelayable(signals: seq<Signal>, s: Signal)
    requires SignalQuiet.OnlyAs(signals, s)
    ensures SignalQuiet.LastRelayed(signals, s.id).Some? ==> s.Relayable()
  {
    if signals != [] {
      RelayedIsRelayable(signals[..|signals| - 1], s);
    }
  }

  lemma RecordAfter(st: State, o: Observation, episode: nat, id: string)
    ensures Get(Step(st, o, episode).delivered, id) ==
      var last := SignalQuiet.LastRelayed(o.signals, id);
      if id !in Correlate(st, o, episode).suppressed && last.Some? then last
      else if id in o.ActiveIds() || (!o.connected && "sig_endpoint_" <= id) then Get(st.delivered, id)
      else None
  {
    var c := Correlate(st, o, episode);
    CorrelateKeepsRecords(st, o, episode);
    SignalQuiet.RelayRecords(c.state.(delivered := Surviving(c.state.delivered, o)), o.signals, c.suppressed, o.now,
                             id);
    hide Correlate, Relay;
  }

  lemma CorrelateKeepsRecords(st: State, o: Observation, episode: nat)
    ensures Correlate(st, o, episode).state.delivered == st.delivered
  {
  }

  /** The record of an id that no signal has survives exactly a disconnected observation, as a phone's. */
  lemma {:induction false} ForgottenExactly(h: Run, o: Observation, id: string)
    requires forall s :: s in o.signals ==> s.id != id
    ensures Get(After(h + [o]).delivered, id) ==
      if !o.connected && "sig_endpoint_" <= id then Get(After(h).delivered, id) else None
  {
    SignalQuiet.AfterOne(h, o);
    RecordAfter(After(h), o, |h|, id);
    SignalQuiet.NoneRelayed(o.signals, id);
    hide Correlate, After, Step;
  }
}
