/**
 The endpoint availability tracker: it turns flapping samples into one calm
 "unavailable" signal per outage. Its state is a handful of timers per phone or trunk;
 what it shows is a property of the endpoint's whole history.
 */
module Availability {
  import opened Options
  import opened Hysteresis

  datatype Role = Extension | Trunk | Ignore | Unassigned
  datatype Health = Healthy | Degraded | Down | Unknown | Unstated

  /**
   One inventory entry. The last three fields say which families of state words
   the raw device state contains; `note` stands for the rest of the record.
   */
  datatype Endpoint = Endpoint(
    extension: string, role: Role, health: Health, calls: nat,
    phoneDown: bool, trunkDown: bool, trunkUp: bool, note: string)
  {
    predicate Unavailable() {
      if role.Trunk? then TrunkHealth().Down?
      else role.Extension? && !health.Unknown? && phoneDown
    }

    function TrunkHealth(): Health {
      if !health.Unstated? then health
      else if calls > 0 then Healthy
      else if trunkDown then Down
      else if trunkUp then Healthy
      else Unknown
    }
  }

  function Read(role: Role, e: Option<Endpoint>): Reading {
    match e
    case None => Missing
    case Some(p) =>
      if (if role.Trunk? then p.TrunkHealth().Unknown? else p.role.Extension? && p.health.Unknown?) then Unclear
      else if p.Unavailable() then Gone
      else Reachable
  }

  /** The occurrence a notification is about: its phone and the moment it began. */
  datatype Occurrence = Occurrence(extension: string, at: int)

  datatype SignalState = SignalState(
    outage: Option<int>, recovery: Option<int>, notified: bool, visible: bool,
    id: Option<Occurrence>, missing: Option<int>, evidence: Option<Endpoint>)
  {
    /** Recovery is only ever timed for an outage that was announced. */
    predicate Sound() { recovery.Some? ==> notified }
  }

  const FRESH := SignalState(None, None, false, false, None, None, None)

  datatype Config = Config(outage: int, recovery: int, role: Role)
  datatype Sample = Sample(roleChanged: bool, endpoint: Option<Endpoint>, at: int)
  datatype Outcome = Outcome(state: Option<SignalState>, shown: bool)

  ghost predicate SoundState(s: Option<SignalState>) { s.Some? ==> s.value.Sound() }

  /** What one reachable snapshot does to one endpoint. */
  function Step(cfg: Config, ext: string, prior: Option<SignalState>, s: Sample): (r: Outcome)
    requires SoundState(prior)
    ensures SoundState(r.state)
  {
    var p := if s.roleChanged then None else prior;
    if s.endpoint.None? then
      if p.None? then Outcome(None, false) else Absent(cfg, p.value, s.at)
    else Present(cfg, ext, p.GetOr(FRESH).(missing := None), s)
  }

  function Absent(cfg: Config, st: SignalState, at: int): (r: Outcome)
    requires st.Sound()
    ensures SoundState(r.state)
  {
    if cfg.role.Trunk? then
      var since := st.missing.GetOr(at);
      if at - since < cfg.recovery then Outcome(Some(st.(missing := Some(since))), st.visible)
      else Outcome(None, false)
    else if !st.notified then Outcome(None, false)
    else Outcome(Some(st.(recovery := None, visible := true)), true)
  }

  function Present(cfg: Config, ext: string, st: SignalState, s: Sample): (r: Outcome)
    requires st.Sound() && s.endpoint.Some?
    ensures SoundState(r.state)
  {
    match Read(cfg.role, s.endpoint)
    case Unclear =>
      if cfg.role.Trunk? then Outcome(Some(st), st.visible)
      else if st.notified then Outcome(Some(st.(recovery := None, visible := true)), true)
      else Outcome(Some(st.(recovery := None, outage := None)), false)
    case Gone =>
      var seen := st.(evidence := s.endpoint);
      var timed := if seen.recovery.Some? then seen.(recovery := None, visible := seen.notified)
                   else if seen.outage.None? then seen.(outage := Some(s.at))
                   else seen;
      var named := if timed.id.None? then timed.(id := Some(Occurrence(ext, s.at))) else timed;
      var last := if !named.notified && s.at - named.outage.value >= cfg.outage
                  then named.(notified := true, visible := true) else named;
      Outcome(Some(last), last.visible)
    case Reachable =>
      var up := st.(outage := None);
      if !up.notified then Outcome(None, false)
      else if up.recovery.None? then Outcome(Some(up.(recovery := Some(s.at), visible := true)), true)
      else if s.at - up.recovery.value >= cfg.recovery then Outcome(None, false)
      else Outcome(Some(up.(visible := true)), true)
    case Missing => Outcome(Some(st), false)
  }

  // ---------------------------------------------------------------- what history says

  type History = seq<Sample>

  function Run(cfg: Config, ext: string, h: History): (r: Outcome)
    ensures SoundState(r.state)
  {
    if h == [] then Outcome(None, false)
    else Step(cfg, ext, Run(cfg, ext, h[..|h| - 1]).state, h[|h| - 1])
  }

  function TickOf(cfg: Config, s: Sample): Tick {
    Tick(Read(cfg.role, s.endpoint), s.roleChanged, s.at)
  }

  function TicksOf(cfg: Config, h: History): (t: Ticks)
    ensures |t| == |h| && forall k :: 0 <= k < |h| ==> t[k] == TickOf(cfg, h[k])
  {
    if h == [] then [] else TicksOf(cfg, h[..|h| - 1]) + [TickOf(cfg, h[|h| - 1])]
  }

  /** The tracker's rules: a recovery takes at least two reachable samples. */
  function RulesOf(cfg: Config): Rules { Rules(cfg.outage, cfg.recovery, true) }

  /** The unavailable signal is due: a confirmed outage stands, of a trunk by what its samples say for certain. */
  ghost predicate ShouldShow(cfg: Config, h: History) {
    Standing(RulesOf(cfg), if cfg.role.Trunk? then Decisive(TicksOf(cfg, h), cfg.recovery) else TicksOf(cfg, h))
  }

  /** The timers say how the current run began, and the flags say whether an outage stands. */
  ghost predicate Tracks(r: Rules, t: Ticks, s: Option<SignalState>) {
    var standing := Standing(r, t);
    && (s.None? ==> !standing && (t != [] ==> !t[|t| - 1].reading.Gone?))
    && (s.Some? ==>
          && t != []
          && var last := t[|t| - 1].reading; var since := Some(t[Since(t)].at);
             s.value.notified == standing &&
             (standing ==> s.value.visible) &&
             (!standing ==> !last.Reachable? && !s.value.visible &&
                            s.value.outage == if last.Gone? then since else None) &&
             s.value.recovery == if last.Reachable? then since else None)
  }

  /** One more sample keeps the timers and flags right, and shows what stands. */
  ghost predicate StepTracks(cfg: Config, ext: string, t: Ticks, prior: Option<SignalState>, s: Sample)
    requires SoundState(prior)
  {
    && Tracks(RulesOf(cfg), t, Step(cfg, ext, prior, s).state)
    && (Step(cfg, ext, prior, s).shown <==> Standing(RulesOf(cfg), t))
  }

  lemma GoneTracks(cfg: Config, ext: string, t: Ticks, prior: Option<SignalState>, s: Sample)
    requires t != [] && t[|t| - 1] == TickOf(cfg, s) && t[|t| - 1].reading.Gone?
    requires !cfg.role.Trunk? && SoundState(prior) && Tracks(RulesOf(cfg), t[..|t| - 1], prior)
    requires Judged(RulesOf(cfg), t)
    ensures StepTracks(cfg, ext, t, prior, s)
  {
    hide Standing, OutageAt, RecoveryAt;
  }

  lemma ReachableTracks(cfg: Config, ext: string, t: Ticks, prior: Option<SignalState>, s: Sample)
    requires t != [] && t[|t| - 1] == TickOf(cfg, s) && t[|t| - 1].reading.Reachable?
    requires !cfg.role.Trunk? && SoundState(prior) && Tracks(RulesOf(cfg), t[..|t| - 1], prior)
    requires Judged(RulesOf(cfg), t)
    ensures StepTracks(cfg, ext, t, prior, s)
  {
    hide Standing, OutageAt, RecoveryAt;
  }

  lemma SilentTracks(cfg: Config, ext: string, t: Ticks, prior: Option<SignalState>, s: Sample)
    requires t != [] && t[|t| - 1] == TickOf(cfg, s) && (t[|t| - 1].reading.Missing? || t[|t| - 1].reading.Unclear?)
    requires !cfg.role.Trunk? && SoundState(prior) && Tracks(RulesOf(cfg), t[..|t| - 1], prior)
    requires Judged(RulesOf(cfg), t)
    ensures StepTracks(cfg, ext, t, prior, s)
  {
    hide Standing, OutageAt, RecoveryAt;
  }

  /** With a clock that never goes back, the tracker shows a phone exactly when an outage stands. */
  lemma {:induction false} RunTracks(cfg: Config, ext: string, h: History)
    requires Chronological(TicksOf(cfg, h)) && !cfg.role.Trunk?
    ensures Tracks(RulesOf(cfg), TicksOf(cfg, h), Run(cfg, ext, h).state)
    ensures Run(cfg, ext, h).shown <==> ShouldShow(cfg, h)
  {
    var t := TicksOf(cfg, h);
    if h != [] {
      hide Tracks, Judged, Step;
      var n := |h| - 1;
      assert t[..n] == TicksOf(cfg, h[..n]);
      RunTracks(cfg, ext, h[..n]);
      JudgeLast(RulesOf(cfg), t);
      var prior := Run(cfg, ext, h[..n]).state;
      match t[n].reading {
        case Gone => GoneTracks(cfg, ext, t, prior, h[n]);
        case Reachable => ReachableTracks(cfg, ext, t, prior, h[n]);
        case _ => SilentTracks(cfg, ext, t, prior, h[n]);
      }
    }
  }

  // ---------------------------------------------------------------- trunks

  /** The same for a trunk, over its decisive samples; the third timer says since when it is missing. */
  ghost predicate TrunkTracks(r: Rules, t: Ticks, s: Option<SignalState>) {
    var d := Decisive(t, r.recovery);
    var standing := Standing(r, d);
    var since := if d == [] then None else Some(d[Since(d)].at);
    && (s.None? ==> !standing && (d != [] ==> !d[|d| - 1].reading.Gone?))
    && (s.Some? ==>
          && s.value.notified == standing && s.value.visible == standing
          && s.value.recovery == (if standing && d != [] && d[|d| - 1].reading.Reachable? then since else None)
          && (!standing ==> s.value.outage == if d != [] && d[|d| - 1].reading.Gone? then since else None)
          && s.value.missing == if t != [] && t[|t| - 1].reading.Missing? then Some(t[Since(t)].at) else None)
  }

  ghost predicate TrunkStepTracks(cfg: Config, ext: string, t: Ticks, prior: Option<SignalState>, s: Sample)
    requires SoundState(prior)
  {
    && TrunkTracks(RulesOf(cfg), t, Step(cfg, ext, prior, s).state)
    && (Step(cfg, ext, prior, s).shown <==> Standing(RulesOf(cfg), Decisive(t, cfg.recovery)))
  }

  /** One more sample of a trunk, `t` with it; what is certain was judged. */
  ghost predicate TrunkSample(cfg: Config, t: Ticks, prior: Option<SignalState>, s: Sample) {
    && t != [] && t[|t| - 1] == TickOf(cfg, s) && cfg.role.Trunk? && SoundState(prior)
    && TrunkTracks(RulesOf(cfg), t[..|t| - 1], prior)
    && (Decisive(t, cfg.recovery) != [] ==> Judged(RulesOf(cfg), Decisive(t, cfg.recovery)))
    && (Lapsed(t, cfg.recovery) <==> t[|t| - 1].reading.Missing? && t[|t| - 1].at - t[Since(t)].at >= cfg.recovery)
  }

  lemma NothingStands(r: Rules)
    ensures !Standing(r, [])
  {
  }

  lemma TrunkGone(cfg: Config, ext: string, t: Ticks, prior: Option<SignalState>, s: Sample)
    requires TrunkSample(cfg, t, prior, s) && t[|t| - 1].reading.Gone?
    ensures TrunkStepTracks(cfg, ext, t, prior, s)
  {
    var d := Decisive(t, cfg.recovery);
    NothingStands(RulesOf(cfg));
    assert d[..|d| - 1] == if t[|t| - 1].reset then [] else Decisive(t[..|t| - 1], cfg.recovery);
    hide Standing, OutageAt, RecoveryAt, Lapsed;
  }

  lemma TrunkReachable(cfg: Config, ext: string, t: Ticks, prior: Option<SignalState>, s: Sample)
    requires TrunkSample(cfg, t, prior, s) && t[|t| - 1].reading.Reachable?
    ensures TrunkStepTracks(cfg, ext, t, prior, s)
  {
    var d := Decisive(t, cfg.recovery);
    NothingStands(RulesOf(cfg));
    assert d[..|d| - 1] == if t[|t| - 1].reset then [] else Decisive(t[..|t| - 1], cfg.recovery);
    hide Standing, OutageAt, RecoveryAt, Lapsed;
  }

  lemma TrunkSilent(cfg: Config, ext: string, t: Ticks, prior: Option<SignalState>, s: Sample)
    requires TrunkSample(cfg, t, prior, s) && (t[|t| - 1].reading.Missing? || t[|t| - 1].reading.Unclear?)
    ensures TrunkStepTracks(cfg, ext, t, prior, s)
  {
    NothingStands(RulesOf(cfg));
    hide Standing, OutageAt, RecoveryAt, Lapsed;
  }

  /** With a clock that never goes back, the tracker shows a trunk exactly when an outage stands by what is certain. */
  lemma {:induction false} TrunkRunTracks(cfg: Config, ext: string, h: History)
    requires Chronological(TicksOf(cfg, h)) && cfg.role.Trunk?
    ensures TrunkTracks(RulesOf(cfg), TicksOf(cfg, h), Run(cfg, ext, h).state)
    ensures Run(cfg, ext, h).shown <==> ShouldShow(cfg, h)
  {
    var t := TicksOf(cfg, h);
    if h == [] {
      NothingStands(RulesOf(cfg));
    } else {
      var n := |h| - 1;
      assert t[..n] == TicksOf(cfg, h[..n]);
      TrunkRunTracks(cfg, ext, h[..n]);
      LapsedNow(t, cfg.recovery);
      DecisiveInOrder(t, cfg.recovery);
      if Decisive(t, cfg.recovery) != [] { JudgeLast(RulesOf(cfg), Decisive(t, cfg.recovery)); }
      hide TrunkTracks, Judged, Step, Standing, Lapsed, Decisive;
      var prior := Run(cfg, ext, h[..n]).state;
      assert TrunkSample(cfg, t, prior, h[n]);
      match t[n].reading {
        case Gone => TrunkGone(cfg, ext, t, prior, h[n]);
        case Reachable => TrunkReachable(cfg, ext, t, prior, h[n]);
        case _ => TrunkSilent(cfg, ext, t, prior, h[n]);
      }
    }
  }

  // ---------------------------------------------------------------- the tracker

  datatype Snapshot = Snapshot(reachable: bool, endpoints: seq<Endpoint>, at: int)

  /** The entries of the tracked role; a later entry for the same extension wins. */
  function ByExtension(role: Role, endpoints: seq<Endpoint>): map<string, Endpoint> {
    if endpoints == [] then map[]
    else
      var n := |endpoints| - 1;
      var rest := ByExtension(role, endpoints[..n]);
      if endpoints[n].role == role then rest[endpoints[n].extension := endpoints[n]] else rest
  }

  /** Extensions that the configuration assigns to another role. */
  function ChangedRoles(role: Role, endpoints: seq<Endpoint>): set<string> {
    set e | e in endpoints && !e.role.Unassigned? && e.role != role :: e.extension
  }

  function SampleOf(role: Role, snap: Snapshot, ext: string): Sample {
    Sample(ext in ChangedRoles(role, snap.endpoints), Get(ByExtension(role, snap.endpoints), ext), snap.at)
  }

  /** One extension's view of a run of snapshots. */
  ghost function Seen(role: Role, past: seq<Snapshot>, ext: string): (h: History)
    ensures |h| == |past| && forall k :: 0 <= k < |h| ==> h[k] == SampleOf(role, past[k], ext)
  {
    seq(|past|, k requires 0 <= k < |past| => SampleOf(role, past[k], ext))
  }

  ghost predicate InOrder(past: seq<Snapshot>) {
    forall i, j :: 0 <= i < j < |past| ==> past[i].at <= past[j].at
  }

  // ---------------------------------------------------------------- what snapshots say, field by field

  /** The endpoint's entry in the tracked role, the last one if there are several. */
  ghost predicate Lists(s: Snapshot, role: Role, ext: string, e: Endpoint) {
    exists i :: ListsAt(s, role, ext, e, i)
  }

  predicate ListsAt(s: Snapshot, role: Role, ext: string, e: Endpoint, i: int) {
    && 0 <= i < |s.endpoints| && s.endpoints[i] == e && e.extension == ext && e.role == role
    && forall j :: i < j < |s.endpoints| ==> s.endpoints[j].extension != ext || s.endpoints[j].role != role
  }

  /** Some entry gives the extension a role that the tracker does not follow. */
  ghost predicate Reassigns(s: Snapshot, role: Role, ext: string) {
    exists e :: e in s.endpoints && e.extension == ext && e.role in {Extension, Trunk, Ignore} && e.role != role
  }

  /** The record of a phone says that it is unavailable; that of a trunk by its health, or failing that by its state. */
  predicate SaysDown(role: Role, e: Endpoint) {
    if role.Trunk? then e.health.Down? || (e.health.Unstated? && e.calls == 0 && e.trunkDown)
    else role.Extension? && !e.health.Unknown? && e.phoneDown
  }

  predicate SaysNothing(role: Role, e: Endpoint) {
    if role.Trunk? then e.health.Unknown? || (e.health.Unstated? && e.calls == 0 && !e.trunkDown && !e.trunkUp)
    else role.Extension? && e.health.Unknown?
  }

  ghost predicate IsDown(s: Snapshot, role: Role, ext: string) {
    exists e :: Lists(s, role, ext, e) && SaysDown(role, e)
  }

  ghost predicate IsUp(s: Snapshot, role: Role, ext: string) {
    exists e :: Lists(s, role, ext, e) && !SaysDown(role, e) && !SaysNothing(role, e)
  }

  /** The inventory does not list the endpoint in its role. */
  predicate IsMissing(s: Snapshot, role: Role, ext: string) {
    forall i :: 0 <= i < |s.endpoints| ==> s.endpoints[i].extension != ext || s.endpoints[i].role != role
  }

  lemma {:induction false} ByExtensionLists(role: Role, endpoints: seq<Endpoint>, ext: string, at: int)
    ensures var s := Snapshot(true, endpoints, at); var found := Get(ByExtension(role, endpoints), ext);
      && (found.None? <==> IsMissing(s, role, ext))
      && forall e :: found == Some(e) <==> Lists(s, role, ext, e)
  {
    var s, found := Snapshot(true, endpoints, at), Get(ByExtension(role, endpoints), ext);
    if endpoints != [] {
      var n := |endpoints| - 1;
      var init := Snapshot(true, endpoints[..n], at);
      ByExtensionLists(role, endpoints[..n], ext, at);
      if endpoints[n].role == role && endpoints[n].extension == ext {
        assert ListsAt(s, role, ext, endpoints[n], n);
        forall e, i | ListsAt(s, role, ext, e, i) ensures e == endpoints[n] {
        }
      } else {
        forall e, i ensures ListsAt(s, role, ext, e, i) <==> ListsAt(init, role, ext, e, i) {
        }
      }
    }
  }

  /** A sample is what its snapshot says. */
  lemma SampleIsSaid(cfg: Config, s: Snapshot, ext: string)
    ensures var t := TickOf(cfg, SampleOf(cfg.role, s, ext));
      && t.at == s.at && (t.reset <==> Reassigns(s, cfg.role, ext))
      && (t.reading.Gone? <==> IsDown(s, cfg.role, ext)) && (t.reading.Reachable? <==> IsUp(s, cfg.role, ext))
      && (t.reading.Missing? <==> IsMissing(s, cfg.role, ext))
  {
    ByExtensionLists(cfg.role, s.endpoints, ext, s.at);
    ListsIsTimeless(s, cfg.role, ext);
    var found := Get(ByExtension(cfg.role, s.endpoints), ext);
    hide ByExtension, Lists;
    assert found.Some? ==> Lists(s, cfg.role, ext, found.value);
    assert forall e :: Lists(s, cfg.role, ext, e) ==> e.role == cfg.role && e.extension == ext by {
      ListsIsThere(s, cfg.role, ext);
    }
  }

  lemma ListsIsThere(s: Snapshot, role: Role, ext: string)
    ensures forall e :: Lists(s, role, ext, e) ==> e.role == role && e.extension == ext
  {
  }

  lemma ListsIsTimeless(s: Snapshot, role: Role, ext: string)
    ensures var x := Snapshot(true, s.endpoints, s.at);
      (IsMissing(s, role, ext) <==> IsMissing(x, role, ext)) && forall e :: Lists(s, role, ext, e) <==> Lists(x, role,
                                                                                                              ext, e)
  {
    var x := Snapshot(true, s.endpoints, s.at);
    assert forall e, i :: ListsAt(s, role, ext, e, i) <==> ListsAt(x, role, ext, e, i);
  }

  // ---------------------------------------------------------------- outages of phones, snapshot by snapshot

  /** From snapshot `i` to `j` the phone was down throughout, or up, without a change of role, for long enough. */
  ghost predicate DownFrom(cfg: Config, past: seq<Snapshot>, ext: string, i: nat, j: nat) {
    && i <= j < |past| && past[j].at - past[i].at >= cfg.outage
    && (forall k :: i <= k <= j ==> IsDown(past[k], cfg.role, ext))
    && (forall k :: i < k <= j ==> !Reassigns(past[k], cfg.role, ext))
  }

  ghost predicate UpFrom(cfg: Config, past: seq<Snapshot>, ext: string, i: nat, j: nat) {
    && i < j < |past| && past[j].at - past[i].at >= cfg.recovery
    && (forall k :: i <= k <= j ==> IsUp(past[k], cfg.role, ext))
    && (forall k :: i < k <= j ==> !Reassigns(past[k], cfg.role, ext))
  }

  ghost predicate DownAt(cfg: Config, past: seq<Snapshot>, ext: string, j: nat) {
    exists i: nat :: DownFrom(cfg, past, ext, i, j)
  }

  ghost predicate UpAt(cfg: Config, past: seq<Snapshot>, ext: string, j: nat) {
    exists i: nat :: UpFrom(cfg, past, ext, i, j)
  }

  ghost predicate DownSince(cfg: Config, past: seq<Snapshot>, ext: string, c: nat) {
    && c < |past| && DownAt(cfg, past, ext, c)
    && forall j :: c < j < |past| ==> !Reassigns(past[j], cfg.role, ext) && !UpAt(cfg, past, ext, j)
  }

  lemma PhoneSpans(cfg: Config, past: seq<Snapshot>, ext: string, i: nat, j: nat)
    ensures var t := TicksOf(cfg, Seen(cfg.role, past, ext));
      && (Span(t, Gone, cfg.outage, i, j) <==> DownFrom(cfg, past, ext, i, j))
      && (Span(t, Reachable, cfg.recovery, i, j) && i < j <==> UpFrom(cfg, past, ext, i, j))
  {
    forall k | 0 <= k < |past|
      ensures var x := TicksOf(cfg, Seen(cfg.role, past, ext))[k];
        x.at == past[k].at && (x.reset <==> Reassigns(past[k], cfg.role, ext)) &&
        (x.reading.Gone? <==> IsDown(past[k], cfg.role, ext)) && (x.reading.Reachable? <==> IsUp(past[k], cfg.role,
                                                                                                 ext))
    {
      SampleIsSaid(cfg, past[k], ext);
    }
    hide TicksOf, Seen, IsDown, IsUp, Reassigns;
  }

  /**
   A phone is due exactly if it was down for the confirmation, in all snapshots without a change of role, and
   since then neither changed its role nor was up for the recovery. Missing or vague snapshots end nothing.
   */
  lemma PhoneIsDue(cfg: Config, past: seq<Snapshot>, ext: string)
    requires !cfg.role.Trunk?
    ensures ShouldShow(cfg, Seen(cfg.role, past, ext)) <==> exists c: nat :: DownSince(cfg, past, ext, c)
  {
    var t, r := TicksOf(cfg, Seen(cfg.role, past, ext)), RulesOf(cfg);
    forall i: nat, j: nat
      ensures (Span(t, Gone, cfg.outage, i, j) <==> DownFrom(cfg, past, ext, i, j))
           && (Span(t, Reachable, cfg.recovery, i, j) && i < j <==> UpFrom(cfg, past, ext, i, j))
    {
      PhoneSpans(cfg, past, ext, i, j);
    }
    forall k | 0 <= k < |past| ensures t[k].reset <==> Reassigns(past[k], cfg.role, ext) {
      SampleIsSaid(cfg, past[k], ext);
    }
    hide Span, DownFrom, UpFrom, TicksOf, Seen, Reassigns;
    forall j: nat
      ensures OutageAt(r, t, j) <==> DownAt(cfg, past, ext, j)
      ensures RecoveryAt(r, t, j) <==> UpAt(cfg, past, ext, j)
    {
      if i: nat :| Span(t, Gone, r.outage, i, j) { assert DownFrom(cfg, past, ext, i, j); }
      if i: nat :| UpFrom(cfg, past, ext, i, j) { assert Span(t, Reachable, r.recovery, i, j) && i < j; }
    }
    assert |t| == |past|;
    hide OutageAt, RecoveryAt, DownAt, UpAt;
    forall c: nat ensures Stands(r, t, c) <==> DownSince(cfg, past, ext, c) {
      assert forall j :: c < j < |past| ==>
        (Ended(r, t, j) <==> Reassigns(past[j], cfg.role, ext) || UpAt(cfg, past, ext, j));
    }
  }

  // ---------------------------------------------------------------- outages of trunks, snapshot by snapshot

  /** From snapshot `i` to `k` the inventory has missed the trunk, for the recovery confirmation. */
  ghost predicate MissedFrom(cfg: Config, past: seq<Snapshot>, ext: string, i: nat, k: nat) {
    && i <= k < |past| && past[k].at - past[i].at >= cfg.recovery
    && (forall m :: i <= m <= k ==> IsMissing(past[m], cfg.role, ext))
    && (forall m :: i < m <= k ==> !Reassigns(past[m], cfg.role, ext))
  }

  ghost predicate MissedAt(cfg: Config, past: seq<Snapshot>, ext: string, k: nat) {
    exists i: nat :: MissedFrom(cfg, past, ext, i, k)
  }

  /** With snapshot `k` everything known of the trunk is given up. */
  ghost predicate GivenUp(cfg: Config, past: seq<Snapshot>, ext: string, k: nat) {
    k < |past| && (Reassigns(past[k], cfg.role, ext) || MissedAt(cfg, past, ext, k))
  }

  /** From `i` to `j` the trunk was down as far as anything was certain, at both ends too, and not given up. */
  ghost predicate CertainlyDownFrom(cfg: Config, past: seq<Snapshot>, ext: string, i: nat, j: nat) {
    && i <= j < |past| && past[j].at - past[i].at >= cfg.outage
    && IsDown(past[i], cfg.role, ext) && IsDown(past[j], cfg.role, ext)
    && (forall k :: i <= k <= j ==> !IsUp(past[k], cfg.role, ext))
    && (forall k :: i < k <= j ==> !GivenUp(cfg, past, ext, k))
  }

  ghost predicate CertainlyUpFrom(cfg: Config, past: seq<Snapshot>, ext: string, i: nat, j: nat) {
    && i < j < |past| && past[j].at - past[i].at >= cfg.recovery
    && IsUp(past[i], cfg.role, ext) && IsUp(past[j], cfg.role, ext)
    && (forall k :: i <= k <= j ==> !IsDown(past[k], cfg.role, ext))
    && (forall k :: i < k <= j ==> !GivenUp(cfg, past, ext, k))
  }

  ghost predicate CertainlyDownAt(cfg: Config, past: seq<Snapshot>, ext: string, j: nat) {
    exists i: nat :: CertainlyDownFrom(cfg, past, ext, i, j)
  }

  ghost predicate CertainlyUpAt(cfg: Config, past: seq<Snapshot>, ext: string, j: nat) {
    exists i: nat :: CertainlyUpFrom(cfg, past, ext, i, j)
  }

  ghost predicate CertainlyDownSince(cfg: Config, past: seq<Snapshot>, ext: string, c: nat) {
    && c < |past| && CertainlyDownAt(cfg, past, ext, c)
    && forall j :: c < j < |past| ==> !GivenUp(cfg, past, ext, j) && !CertainlyUpAt(cfg, past, ext, j)
  }

  lemma MissedSpans(cfg: Config, past: seq<Snapshot>, ext: string, i: nat, k: nat)
    requires k < |past|
    ensures LastSpan(TicksOf(cfg, Seen(cfg.role, past, ext))[..k + 1], Missing, cfg.recovery, i) <==>
      MissedFrom(cfg, past, ext, i, k)
  {
    var u := TicksOf(cfg, Seen(cfg.role, past, ext))[..k + 1];
    forall m | 0 <= m <= k
      ensures u[m].at == past[m].at && (u[m].reset <==> Reassigns(past[m], cfg.role, ext)) &&
        (u[m].reading.Missing? <==> IsMissing(past[m], cfg.role, ext))
    {
      SampleIsSaid(cfg, past[m], ext);
    }
    hide TicksOf, Seen, IsMissing, Reassigns;
  }

  lemma BreakIsGivenUp(cfg: Config, past: seq<Snapshot>, ext: string, k: nat)
    ensures Breaks(TicksOf(cfg, Seen(cfg.role, past, ext)), k, cfg.recovery) <==> GivenUp(cfg, past, ext, k)
  {
    var t := TicksOf(cfg, Seen(cfg.role, past, ext));
    assert |t| == |past|;
    if k < |past| {
      SampleIsSaid(cfg, past[k], ext);
      assert t[k].reset <==> Reassigns(past[k], cfg.role, ext);
      hide TicksOf, Seen, LastSpan, MissedFrom, IsMissing, Reassigns;
      var u := t[..k + 1];
      if Lapsed(u, cfg.recovery) {
        var i: nat :| LastSpan(u, Missing, cfg.recovery, i);
        MissedSpans(cfg, past, ext, i, k);
      }
      if MissedAt(cfg, past, ext, k) {
        var i: nat :| MissedFrom(cfg, past, ext, i, k);
        MissedSpans(cfg, past, ext, i, k);
      }
    }
  }

  lemma TrunkSpans(cfg: Config, past: seq<Snapshot>, ext: string, i: nat, j: nat)
    ensures var t := TicksOf(cfg, Seen(cfg.role, past, ext));
      && (CertainSpan(t, Gone, cfg.outage, cfg.recovery, i, j) <==> CertainlyDownFrom(cfg, past, ext, i, j))
      && (CertainSpan(t, Reachable, cfg.recovery, cfg.recovery, i, j) && i < j <==>
           CertainlyUpFrom(cfg, past, ext, i, j))
  {
    var t := TicksOf(cfg, Seen(cfg.role, past, ext));
    forall k | 0 <= k < |past|
      ensures t[k].at == past[k].at && (t[k].reading.Gone? <==> IsDown(past[k], cfg.role, ext)) &&
        (t[k].reading.Reachable? <==> IsUp(past[k], cfg.role, ext))
    {
      SampleIsSaid(cfg, past[k], ext);
    }
    forall k: nat ensures Breaks(t, k, cfg.recovery) <==> GivenUp(cfg, past, ext, k) {
      BreakIsGivenUp(cfg, past, ext, k);
    }
    hide TicksOf, Seen, IsDown, IsUp, GivenUp, Breaks;
  }

  /**
   A trunk is due exactly if it was down for the confirmation as far as anything was certain, and since then
   was neither given up nor certainly up for the recovery.
   */
  lemma TrunkIsDue(cfg: Config, past: seq<Snapshot>, ext: string)
    requires cfg.role.Trunk?
    ensures ShouldShow(cfg, Seen(cfg.role, past, ext)) <==> exists c: nat :: CertainlyDownSince(cfg, past, ext, c)
  {
    var t, r := TicksOf(cfg, Seen(cfg.role, past, ext)), RulesOf(cfg);
    CertainIffDecisive(r, t);
    assert |t| == |past|;
    hide TicksOf, Seen, GivenUp, Breaks, Decisive, Standing, CertainOutageAt, CertainRecoveryAt, CertainlyDownAt,
      CertainlyUpAt;
    forall k: nat
      ensures CertainOutageAt(r, t, k) <==> CertainlyDownAt(cfg, past, ext, k)
      ensures CertainRecoveryAt(r, t, k) <==> CertainlyUpAt(cfg, past, ext, k)
      ensures Breaks(t, k, cfg.recovery) <==> GivenUp(cfg, past, ext, k)
    {
      BreakIsGivenUp(cfg, past, ext, k);
      TrunkMoments(cfg, past, ext, k);
    }
    forall c: nat ensures CertainStands(r, t, c) <==> CertainlyDownSince(cfg, past, ext, c) {
    }
  }

  lemma TrunkMoments(cfg: Config, past: seq<Snapshot>, ext: string, j: nat)
    ensures var t, r := TicksOf(cfg, Seen(cfg.role, past, ext)), RulesOf(cfg);
      && (CertainOutageAt(r, t, j) <==> CertainlyDownAt(cfg, past, ext, j))
      && (CertainRecoveryAt(r, t, j) <==> CertainlyUpAt(cfg, past, ext, j))
  {
    var t, r := TicksOf(cfg, Seen(cfg.role, past, ext)), RulesOf(cfg);
    hide CertainSpan, CertainlyDownFrom, CertainlyUpFrom, TicksOf, Seen;
    forall i: nat
      ensures (CertainSpan(t, Gone, cfg.outage, cfg.recovery, i, j) <==> CertainlyDownFrom(cfg, past, ext, i, j))
           && (CertainSpan(t, Reachable, cfg.recovery, cfg.recovery, i, j) && i < j <==>
                CertainlyUpFrom(cfg, past, ext, i, j))
    {
      TrunkSpans(cfg, past, ext, i, j);
    }
  }

  /** What the tracker is to show, read off the snapshots. */
  ghost predicate IsDue(cfg: Config, past: seq<Snapshot>, ext: string) {
    exists c: nat :: if cfg.role.Trunk? then CertainlyDownSince(cfg, past, ext, c) else DownSince(cfg, past, ext, c)
  }

  lemma DueIsShown(cfg: Config, past: seq<Snapshot>, ext: string)
    ensures ShouldShow(cfg, Seen(cfg.role, past, ext)) <==> IsDue(cfg, past, ext)
  {
    if cfg.role.Trunk? { TrunkIsDue(cfg, past, ext); } else { PhoneIsDue(cfg, past, ext); }
    hide CertainlyDownSince, DownSince, ShouldShow;
  }

  /** In particular a reassignment in the newest snapshot takes the endpoint off, whatever happened before. */
  lemma ReassignedIsNotDue(cfg: Config, past: seq<Snapshot>, ext: string)
    requires past != [] && Reassigns(past[|past| - 1], cfg.role, ext) && IsMissing(past[|past| - 1], cfg.role, ext)
    ensures !IsDue(cfg, past, ext)
  {
    var n := |past| - 1;
    forall e ensures !Lists(past[n], cfg.role, ext, e) {
    }
    if cfg.role.Trunk? {
      forall c: nat ensures !CertainlyDownSince(cfg, past, ext, c) {
        assert GivenUp(cfg, past, ext, n);
      }
    } else {
      forall c: nat ensures !DownSince(cfg, past, ext, c) {
      }
    }
  }

  /** And a snapshot that does not list a phone at all changes nothing about it. */
  lemma MissingStays(cfg: Config, past: seq<Snapshot>, s: Snapshot, ext: string)
    requires !cfg.role.Trunk? && IsDue(cfg, past, ext) && forall e :: e in s.endpoints ==> e.extension != ext
    ensures IsDue(cfg, past + [s], ext)
  {
    var more, n := past + [s], |past|;
    var c: nat :| DownSince(cfg, past, ext, c);
    assert more[n] == s && forall k :: 0 <= k < n ==> more[k] == past[k];
    assert DownAt(cfg, more, ext, c) by {
      var i: nat :| DownFrom(cfg, past, ext, i, c);
      assert DownFrom(cfg, more, ext, i, c);
    }
    assert forall e :: !Lists(s, cfg.role, ext, e);
    assert !Reassigns(s, cfg.role, ext) && !IsUp(s, cfg.role, ext);
    hide Reassigns, Lists;
    hide IsUp, IsDown, DownAt;
    forall j: nat | c < j < |more| ensures !Reassigns(more[j], cfg.role, ext) && !UpAt(cfg, more, ext, j) {
      if j < n {
        assert !UpAt(cfg, past, ext, j);
        forall k: nat ensures !UpFrom(cfg, more, ext, k, j) {
          assert UpFrom(cfg, more, ext, k, j) ==> UpFrom(cfg, past, ext, k, j);
        }
      }
    }
    assert DownSince(cfg, more, ext, c);
  }

  ghost predicate AllSound(states: map<string, SignalState>) {
    forall ext :: ext in states ==> states[ext].Sound()
  }

  /** What the passes of an observation leave of each endpoint. */
  ghost function AfterAbsent(cfg: Config, was: map<string, SignalState>, listed: set<string>, ext: string,
                             at: int): Outcome
    requires AllSound(was)
  {
    if ext in was && ext !in listed then Absent(cfg, was[ext], at) else Outcome(Get(was, ext), false)
  }

  ghost function AfterPresent(cfg: Config, was: map<string, SignalState>, listed: map<string, Endpoint>, ext: string,
                              at: int): Outcome
    requires AllSound(was)
  {
    if ext in listed then Step(cfg, ext, Get(was, ext), Sample(false, Some(listed[ext]), at))
    else Outcome(Get(was, ext), false)
  }

  class Tracker {
    const cfg: Config
    var states: map<string, SignalState>
    ghost var past: seq<Snapshot>   // the reachable snapshots observed so far

    ghost predicate Valid()
      reads this
    {
      forall ext :: Get(states, ext) == Run(cfg, ext, Seen(cfg.role, past, ext)).state
    }

    constructor (cfg: Config)
      ensures Valid() && this.cfg == cfg && past == []
    {
      this.cfg := cfg;
      states, past := map[], [];
    }

    /** The state of a present endpoint after its sample, or none when it is dropped. */
    method ObservePresent(ext: string, e: Endpoint, prior: Option<SignalState>, now: int)
        returns (next: Option<SignalState>, shown: bool)
      requires SoundState(prior)
      ensures Outcome(next, shown) == Step(cfg, ext, prior, Sample(false, Some(e), now))
    {
      var st := prior.GetOr(FRESH).(missing := None);
      if e.role.Extension? && e.health.Unknown? && !cfg.role.Trunk? {
        st := st.(recovery := None);
        if st.notified {
          return Some(st.(visible := true)), true;
        }
        return Some(st.(outage := None)), false;
      }
      if cfg.role.Trunk? && e.TrunkHealth().Unknown? {
        return Some(st), st.visible;
      }
      if e.Unavailable() {
        st := st.(evidence := Some(e));
        if st.recovery.Some? {
          st := st.(recovery := None, visible := st.notified);
        } else if st.outage.None? {
          st := st.(outage := Some(now));
        }
        if st.id.None? {
          st := st.(id := Some(Occurrence(ext, now)));
        }
        if !st.notified && now - st.outage.value >= cfg.outage {
          st := st.(notified := true, visible := true);
        }
        return Some(st), st.visible;
      }
      st := st.(outage := None);
      if !st.notified {
        return None, false;
      }
      if st.recovery.None? {
        return Some(st.(recovery := Some(now), visible := true)), true;
      }
      if now - st.recovery.value >= cfg.recovery {
        return None, false;
      }
      return Some(st.(visible := true)), true;
    }

    /** The state of a tracked endpoint that the inventory does not list. */
    method ObserveAbsent(st: SignalState, now: int) returns (next: Option<SignalState>, shown: bool)
      requires st.Sound()
      ensures Outcome(next, shown) == Absent(cfg, st, now)
    {
      if cfg.role.Trunk? {
        var waiting := st;
        if waiting.missing.None? {
          waiting := waiting.(missing := Some(now));
        }
        if now - waiting.missing.value < cfg.recovery {
          return Some(waiting), waiting.visible;
        }
        return None, false;
      }
      if !st.notified {
        return None, false;
      }
      return Some(st.(recovery := None, visible := true)), true;
    }

    /** The pass over tracked endpoints that the inventory does not list. */
    method SweepAbsent(listed: set<string>, now: int) returns (visible: set<string>)
      requires AllSound(states)
      modifies this`states
      ensures forall ext ::
        Outcome(Get(states, ext), ext in visible) == AfterAbsent(cfg, old(states), listed, ext, now)
    {
      hide Absent;
      visible := {};
      ghost var was := states;
      var missing := states.Keys - listed;
      while missing != {}
        invariant missing <= was.Keys - listed
        invariant forall ext ::
          Outcome(Get(states, ext), ext in visible) == AfterAbsent(cfg, was, listed + missing, ext, now)
        decreases missing
      {
        var ext :| ext in missing;
        missing := missing - {ext};
        assert Get(states, ext) == Get(was, ext) == Some(was[ext]);
        var next, shown := ObserveAbsent(states[ext], now);
        states := if next.Some? then states[ext := next.value] else states - {ext};
        if shown {
          visible := visible + {ext};
        }
      }
    }

    /** The pass over the listed endpoints. */
    method SweepPresent(endpoints: map<string, Endpoint>, now: int) returns (visible: set<string>)
      requires AllSound(states)
      modifies this`states
      ensures forall ext ::
        Outcome(Get(states, ext), ext in visible) == AfterPresent(cfg, old(states), endpoints, ext, now)
    {
      hide Step;
      visible := {};
      ghost var was := states;
      var present := endpoints.Keys;
      while present != {}
        invariant present <= endpoints.Keys
        invariant forall ext ::
          Outcome(Get(states, ext), ext in visible) == AfterPresent(cfg, was, endpoints - present, ext, now)
        decreases present
      {
        var ext :| ext in present;
        present := present - {ext};
        assert Get(states, ext) == Get(was, ext);
        var next, shown := ObservePresent(ext, endpoints[ext], Get(states, ext), now);
        states := if next.Some? then states[ext := next.value] else states - {ext};
        if shown {
          visible := visible + {ext};
        }
      }
    }

    /** One observation. What it shows is exactly what each endpoint's history says. */
    method Observe(snap: Snapshot) returns (visible: set<string>)
      requires Valid()
      modifies this`states, this`past
      ensures Valid()
      ensures !snap.reachable ==> visible == {} && states == old(states) && past == old(past)
      ensures snap.reachable ==> past == old(past) + [snap]
      ensures snap.reachable ==> forall ext :: ext in visible <==> Run(cfg, ext, Seen(cfg.role, past, ext)).shown
      ensures snap.reachable && InOrder(past) ==>
        forall ext :: ext in visible <==> ShouldShow(cfg, Seen(cfg.role, past, ext))
      ensures snap.reachable && InOrder(past) ==> forall ext :: ext in visible <==> IsDue(cfg, past, ext)
    {
      if !snap.reachable {
        return {};
      }
      hide Step, Absent, Run, ShouldShow, ByExtension, ChangedRoles, IsDue;
      ghost var was := states;
      var endpoints := ByExtension(cfg.role, snap.endpoints);
      var changed := ChangedRoles(cfg.role, snap.endpoints);
      RunsAreSound(cfg, past, states);
      states := states - changed;
      assert forall ext :: Get(states, ext) == if ext in changed then None else Get(was, ext);
      ghost var cleared := states;
      var absent := SweepAbsent(endpoints.Keys, snap.at);
      AbsentIsSound(cfg, cleared, endpoints.Keys, states, absent, snap.at);
      var present := SweepPresent(endpoints, snap.at);
      visible := absent + present;
      ghost var before := past;
      past := past + [snap];
      forall ext
        ensures Outcome(Get(states, ext), ext in visible) == Run(cfg, ext, Seen(cfg.role, past, ext))
      {
        StepSplits(cfg, ext, Get(was, ext), SampleOf(cfg.role, snap, ext));
        RunExtends(cfg, ext, before, snap);
      }
      if InOrder(past) {
        forall ext ensures ext in visible <==> ShouldShow(cfg, Seen(cfg.role, past, ext)) {
          if cfg.role.Trunk? {
            TrunkRunTracks(cfg, ext, Seen(cfg.role, past, ext));
          } else {
            RunTracks(cfg, ext, Seen(cfg.role, past, ext));
          }
        }
        forall ext ensures ext in visible <==> IsDue(cfg, past, ext) {
          DueIsShown(cfg, past, ext);
        }
      }
    }
  }

  lemma RunsAreSound(cfg: Config, past: seq<Snapshot>, states: map<string, SignalState>)
    requires forall ext :: Get(states, ext) == Run(cfg, ext, Seen(cfg.role, past, ext)).state
    ensures AllSound(states)
    ensures forall ext :: SoundState(Get(states, ext))
  {
    forall ext ensures SoundState(Get(states, ext)) {
      var r := Run(cfg, ext, Seen(cfg.role, past, ext));
    }
    forall ext | ext in states ensures states[ext].Sound() {
      assert SoundState(Get(states, ext));
    }
  }

  lemma AbsentIsSound(cfg: Config, was: map<string, SignalState>, listed: set<string>,
                      now: map<string, SignalState>, shown: set<string>, at: int)
    requires AllSound(was)
    requires forall ext :: Outcome(Get(now, ext), ext in shown) == AfterAbsent(cfg, was, listed, ext, at)
    ensures AllSound(now)
  {
    forall ext | ext in now ensures now[ext].Sound() {
      assert Get(now, ext) == Some(now[ext]);
    }
  }

  lemma StepSplits(cfg: Config, ext: string, prior: Option<SignalState>, s: Sample)
    requires SoundState(prior)
    ensures var p := if s.roleChanged then None else prior;
      Step(cfg, ext, prior, s) ==
        if s.endpoint.Some? then Step(cfg, ext, p, Sample(false, s.endpoint, s.at))
        else if p.Some? then Absent(cfg, p.value, s.at)
        else Outcome(None, false)
  {
  }

  lemma RunExtends(cfg: Config, ext: string, past: seq<Snapshot>, snap: Snapshot)
    ensures Run(cfg, ext, Seen(cfg.role, past + [snap], ext)) ==
      Step(cfg, ext, Run(cfg, ext, Seen(cfg.role, past, ext)).state, SampleOf(cfg.role, snap, ext))
  {
    var h := Seen(cfg.role, past + [snap], ext);
    assert h[..|h| - 1] == Seen(cfg.role, past, ext);
  }
}
