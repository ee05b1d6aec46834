/**
 What the delivery path guarantees on every run: acknowledged events are
 completed for good, checkpoints are never lost or overwritten, the quota counts
 first claims, and a token accepts an event once as long as no sender outlives
 its lease.
 */
module DeliverySafety {
  import opened Options
  import opened EventLease
  import opened NotificationDelivery
  import opened DeliveryProtocol
  import RelayTransport

  ghost function After(cfg: Config, start: World, steps: seq<Step>): (w: World)
    requires Initial(start)
    ensures Inv(cfg, w)
  {
    InitialInv(cfg, start);
    RunInv(cfg, start, steps);
    Run(cfg, start, steps)
  }

  /**
   An Agent acknowledges an event only when the Relay's row for it is completed,
   and no continuation of the run changes that row again.
   */
  lemma AcknowledgedIsCompleted(cfg: Config, start: World, steps: seq<Step>, more: seq<Step>, a: AgentId, e: OutEvent)
    requires Initial(start) && e in AgentOf(After(cfg, start, steps), a).acked && !Recommends(e)
    ensures var w := After(cfg, start, steps); var w' := Run(cfg, w, more);
      && cfg.Key(a, e) in w.store.rows && w.store.rows[cfg.Key(a, e)].IsCompleted()
      && cfg.Key(a, e) in w'.store.rows && w'.store.rows[cfg.Key(a, e)] == w.store.rows[cfg.Key(a, e)]
  {
    var w := After(cfg, start, steps);
    assert AgentInv(cfg, w, a, AgentOf(w, a)) && Done(cfg, w.store, Request(a, e));
    RunInv(cfg, w, more);
  }

  /** Settled recipients are never forgotten, and a completed row is frozen. */
  lemma RowsOnlyAdvance(cfg: Config, start: World, steps: seq<Step>, more: seq<Step>)
    requires Initial(start)
    ensures StoreAdvances(After(cfg, start, steps).store, Run(cfg, After(cfg, start, steps), more).store)
  {
    RunInv(cfg, After(cfg, start, steps), more);
  }

  /** A publish that was answered, or lost its row, never becomes the row's owner again. */
  lemma {:induction false} LostForGood(cfg: Config, w: World, steps: seq<Step>, o: Owner, k: EventKey)
    requires Inv(cfg, w) && o in w.handled && !OwnedBy(w, k, o)
    ensures !OwnedBy(Run(cfg, w, steps), k, o)
    decreases |steps|
  {
    if steps != [] {
      NextInv(cfg, w, steps[0]);
      NextRemembers(cfg, w, steps[0], o);
      NextOwner(cfg, w, steps[0], o, k);
      hide Next, Inv, OwnedBy;
      LostForGood(cfg, Next(cfg, w, steps[0]), steps[1..], o, k);
    }
  }

  predicate OwnedBy(w: World, k: EventKey, o: Owner) { k in w.store.rows && w.store.rows[k].owner == Some(o) }

  lemma NextOwner(cfg: Config, w: World, s: Step, o: Owner, k: EventKey)
    requires o in w.handled && !OwnedBy(w, k, o)
    ensures !OwnedBy(Next(cfg, w, s), k, o)
  {
    if s.Publish? {
      if s.request in w.requests && s.request !in w.handled && !Recommends(w.requests[s.request].event) {
        ClaimCases(w.store, AskOf(cfg, w.requests[s.request], s.request, s.now), cfg.limit);
        hide Claim, Claimable;
      }
    } else {
      hide DoPublish;
    }
  }

  /**
   Once another publish owns the row, the earlier one never writes again: whatever happens in
   between, each of its checkpoints leaves the store as it is and is told to retry.
   */
  lemma SupersededOwnerNeverWrites(cfg: Config, w: World, o: Owner, more: seq<Step>, now: int, reported: bool)
    requires Inv(cfg, w) && InFlight(w, o) && !OwnedBy(w, w.senders[o].key, o)
    requires InFlight(Run(cfg, w, more), o) && Run(cfg, w, more).senders[o].attempt.Some?
    ensures var w1 := Run(cfg, w, more); var w2 := Next(cfg, w1, Checkpoint(o, now, reported));
      !OwnedBy(w1, w.senders[o].key, o) && w2.store == w1.store && w2.replies[o] == 503
  {
    assert SenderInv(cfg, w, o) && o in w.handled;
    LostForGood(cfg, w, more, o, w.senders[o].key);
    ClaimIsRemembered(cfg, w, more, o);
  }

  /** The publish stays handled, and what it read at its claim stays what it uses. */
  ghost predicate Remembers(w: World, w': World, o: Owner) {
    && o in w'.handled
    && (o in w'.senders ==>
          o in w.senders && w'.senders[o].key == w.senders[o].key && w'.senders[o].base == w.senders[o].base)
  }

  lemma SendRemembers(w: World, s: Step, o: Owner)
    requires o in w.handled && s.Send? && CanSend(w, s)
    ensures Remembers(w, DoSend(w, s), o)
  {
  }

  lemma CheckpointRemembers(w: World, request: Owner, now: int, reported: bool, o: Owner)
    requires o in w.handled && InFlight(w, request) && w.senders[request].attempt.Some?
    ensures Remembers(w, DoCheckpoint(w, request, now, reported), o)
  {
    hide Finish;
  }

  lemma ReceiveRemembers(w: World, a: AgentId, o: Owner)
    requires o in w.handled
    ensures Remembers(w, DoReceive(w, a), o)
  {
  }

  lemma NextRemembers(cfg: Config, w: World, s: Step, o: Owner)
    requires o in w.handled
    ensures Remembers(w, Next(cfg, w, s), o)
  {
    hide DoPublish, DoReceive, DoSend, DoCheckpoint, CanSend;
    match s {
      case Publish(request, now) =>
        if request in w.requests && request !in w.handled { PublishRemembers(cfg, w, request, now, o); }
      case Send(_, _, _, _, _) => if CanSend(w, s) { SendRemembers(w, s, o); }
      case Checkpoint(request, now, reported) =>
        if InFlight(w, request) && w.senders[request].attempt.Some? {
          CheckpointRemembers(w, request, now, reported, o);
        }
      case Receive(a) => ReceiveRemembers(w, a, o);
      case _ =>
    }
  }

  lemma PublishRemembers(cfg: Config, w: World, request: Owner, now: int, o: Owner)
    requires o in w.handled && request in w.requests && request !in w.handled
    ensures Remembers(w, DoPublish(cfg, w, request, now), o)
  {
    hide Claim, Claimable, Recommends;
  }

  lemma {:induction false} ClaimIsRemembered(cfg: Config, w: World, steps: seq<Step>, o: Owner)
    requires o in w.handled
    ensures Remembers(w, Run(cfg, w, steps), o)
    decreases |steps|
  {
    if steps != [] {
      NextRemembers(cfg, w, steps[0], o);
      ClaimIsRemembered(cfg, Next(cfg, w, steps[0]), steps[1..], o);
    }
  }

  /** A claim reads the recipients its row holds at that moment. */
  lemma ClaimReadsCheckpoint(cfg: Config, w: World, o: Owner, now: int)
    requires o in w.requests && o !in w.senders && o in Next(cfg, w, Publish(o, now)).senders
    ensures var sender := Next(cfg, w, Publish(o, now)).senders[o];
      && o in Next(cfg, w, Publish(o, now)).handled
      && sender.base == (if sender.key in w.store.rows then w.store.rows[sender.key].done else {})
  {
    ClaimCases(w.store, AskOf(cfg, w.requests[o], o, now), cfg.limit);
  }

  lemma SendSkipsBase(w: World, s: Step)
    requires s.Send? && CanSend(w, s)
    ensures (set t | t in s.tokens) !! w.senders[s.request].base
  {
    forall t | t in s.tokens ensures t !in w.senders[s.request].base {
      assert t in (set u | u in s.tokens);
      assert t in Recipients(s.devices, w.requests[s.request].event.content, w.senders[s.request].base, w.clock);
    }
  }

  /** No send made under a claim addresses a recipient that was checkpointed before that claim. */
  lemma SendSkipsCheckpointed(cfg: Config, w: World, o: Owner, now: int, more: seq<Step>, s: Step)
    requires o in w.requests && o !in w.senders && o in Next(cfg, w, Publish(o, now)).senders
    requires s.Send? && s.request == o && CanSend(Run(cfg, Next(cfg, w, Publish(o, now)), more), s)
    ensures var key := Next(cfg, w, Publish(o, now)).senders[o].key;
      key in w.store.rows ==> (set t | t in s.tokens) !! w.store.rows[key].done
  {
    var w1 := Next(cfg, w, Publish(o, now));
    ClaimReadsCheckpoint(cfg, w, o, now);
    ClaimIsRemembered(cfg, w1, more, o);
    SendSkipsBase(Run(cfg, w1, more), s);
  }

  /** A retryable answer and a lost answer leave the outbox as it was. */
  lemma RetryableKeepsTheHead(cfg: Config, w: World, a: AgentId)
    requires Inv(cfg, w) && AgentOf(w, a).waiting.Some? && AgentOf(w, a).waiting.value in w.replies
    ensures var status := w.replies[AgentOf(w, a).waiting.value];
      var before := AgentOf(w, a); var after := AgentOf(Next(cfg, w, Receive(a)), a);
      && before.mem != []
      && w.requests[before.waiting.value] == Request(a, before.mem[0])
      && (after.mem == before.mem <==> status in {408, 425, 429} || status >= 500)
      && (after.mem != before.mem ==> after.mem == before.mem[1..])
      && after.acked == (if status < 400 then before.acked + {before.mem[0]} else before.acked)
      && AgentOf(Next(cfg, w, GiveUp(a)), a).mem == before.mem
  {
    assert AgentInv(cfg, w, a, AgentOf(w, a));
  }

  // ---------------------------------------------------------------- what a crash costs

  lemma DiskStep(cfg: Config, w: World, s: Step, a: AgentId)
    requires s != Save(a)
    ensures AgentOf(Next(cfg, w, s), a).disk == AgentOf(w, a).disk
  {
    hide Claim, Finish, Attempted;
  }

  /** Only a save of the Agent changes what it has on disk. */
  lemma {:induction false} DiskStays(cfg: Config, w: World, steps: seq<Step>, a: AgentId)
    requires Save(a) !in steps
    ensures AgentOf(Run(cfg, w, steps), a).disk == AgentOf(w, a).disk
    decreases |steps|
  {
    if steps != [] {
      DiskStep(cfg, w, steps[0], a);
      hide Next;
      DiskStays(cfg, Next(cfg, w, steps[0]), steps[1..], a);
    }
  }

  /** An Agent that crashes goes on with the outbox it saved last, whatever happened since, and waits for nothing. */
  lemma CrashFallsBackToTheSave(cfg: Config, w: World, steps: seq<Step>, a: AgentId)
    requires Save(a) !in steps
    ensures var w' := Run(cfg, Next(cfg, w, Save(a)), steps); var after := AgentOf(Next(cfg, w', CrashAgent(a)), a);
      after.mem == AgentOf(w, a).mem && after.disk == after.mem && after.waiting.None? &&
        after.acked == AgentOf(w', a).acked
  {
    DiskStays(cfg, Next(cfg, w, Save(a)), steps, a);
  }

  // ---------------------------------------------------------------- what a flush gives up

  /** An answer for which the Agent takes the head out without having delivered it. */
  predicate GivesUp(status: int) { 400 <= status < 500 && status !in {408, 425, 429} }

  /** The row for the request is another Agent's, or was made for other content. */
  ghost predicate Taken(cfg: Config, store: Store, r: Request) {
    cfg.Key(r.agent, r.event) in store.rows &&
    var row := store.rows[cfg.Key(r.agent, r.event)];
    row.agent != r.agent || row.content != Some(r.event.content)
  }

  ghost predicate RefusalsInv(cfg: Config, w: World) {
    forall o :: o in w.replies && o in w.requests && GivesUp(w.replies[o]) ==> Taken(cfg, w.store, w.requests[o])
  }

  lemma TakenStays(cfg: Config, s: Store, s': Store, r: Request)
    requires StoreAdvances(s, s') && Taken(cfg, s, r)
    ensures Taken(cfg, s', r)
  {
    assert Advances(s.rows[cfg.Key(r.agent, r.event)], s'.rows[cfg.Key(r.agent, r.event)]);
  }

  lemma PublishRefusals(cfg: Config, w: World, o: Owner, now: int)
    requires Inv(cfg, w) && RefusalsInv(cfg, w) && o in w.requests && o !in w.handled
    ensures RefusalsInv(cfg, DoPublish(cfg, w, o, now))
  {
    PublishInv(cfg, w, o, now);
    var w' := DoPublish(cfg, w, o, now);
    if !Recommends(w.requests[o].event) {
      ClaimCases(w.store, AskOf(cfg, w.requests[o], o, now), cfg.limit);
    }
    hide Claim, Inv, Claimable, ClaimEffect;
    forall p | p in w'.replies && p in w'.requests && GivesUp(w'.replies[p])
      ensures Taken(cfg, w'.store, w'.requests[p])
    {
      if p != o { TakenStays(cfg, w.store, w'.store, w.requests[p]); }
    }
  }

  lemma OthersRefusals(cfg: Config, w: World, s: Step)
    requires Inv(cfg, w) && RefusalsInv(cfg, w) && !s.Refuse? && !s.Publish?
    ensures RefusalsInv(cfg, Next(cfg, w, s))
  {
    NextInv(cfg, w, s);
    RepliesHaveRequests(cfg, w);
    hide Inv, DoPublish, Finish;
    var w' := Next(cfg, w, s);
    forall p | p in w'.replies && p in w'.requests && GivesUp(w'.replies[p])
      ensures Taken(cfg, w'.store, w'.requests[p])
    {
      assert p in w.replies && w.replies[p] == w'.replies[p] && w'.requests[p] == w.requests[p];
      TakenStays(cfg, w.store, w'.store, w.requests[p]);
    }
  }

  lemma NextRefusals(cfg: Config, w: World, s: Step)
    requires Inv(cfg, w) && RefusalsInv(cfg, w) && !s.Refuse?
    ensures RefusalsInv(cfg, Next(cfg, w, s))
  {
    hide Inv, DoPublish;
    if s.Publish? {
      if s.request in w.requests && s.request !in w.handled { PublishRefusals(cfg, w, s.request, s.now); }
    } else {
      OthersRefusals(cfg, w, s);
    }
  }

  lemma RepliesHaveRequests(cfg: Config, w: World)
    requires Inv(cfg, w)
    ensures forall p :: p in w.replies ==> p in w.requests
  {
  }

  lemma {:induction false} RunRefusals(cfg: Config, w: World, steps: seq<Step>)
    requires Inv(cfg, w) && RefusalsInv(cfg, w) && forall s :: s in steps ==> !s.Refuse?
    ensures RefusalsInv(cfg, Run(cfg, w, steps))
    decreases |steps|
  {
    if steps != [] {
      hide Inv, RefusalsInv, Next;
      NextInv(cfg, w, steps[0]);
      NextRefusals(cfg, w, steps[0]);
      RunRefusals(cfg, Next(cfg, w, steps[0]), steps[1..]);
    }
  }

  /**
   As long as nothing refuses a publish before its claim, a flush takes a head out without an
   acknowledgement only if the Relay's row for it is another Agent's or was made for other content: a lease
   that is not over, a used-up quota, a failed send or a lost answer never cost the Agent an event.
   */
  lemma FlushGivesUpOnlyConflicts(cfg: Config, start: World, steps: seq<Step>, a: AgentId)
    requires Initial(start) && forall s :: s in steps ==> !s.Refuse?
    ensures var w := After(cfg, start, steps);
      var before := AgentOf(w, a); var after := AgentOf(Next(cfg, w, Receive(a)), a);
      after.mem != before.mem ==>
        && before.mem != [] && after.mem == before.mem[1..]
        && (before.mem[0] in after.acked ||
            (cfg.Key(a, before.mem[0]) in w.store.rows &&
             (w.store.rows[cfg.Key(a, before.mem[0])].agent != a ||
              w.store.rows[cfg.Key(a, before.mem[0])].content != Some(before.mem[0].content))))
  {
    var w := After(cfg, start, steps);
    InitialInv(cfg, start);
    RunRefusals(cfg, start, steps);
    assert AgentInv(cfg, w, a, AgentOf(w, a));
  }

  // ---------------------------------------------------------------- quota

  ghost function FirstClaims(charged: map<EventKey, QuotaKey>, k: QuotaKey): set<EventKey> {
    set e | e in charged && charged[e] == k
  }

  ghost predicate Counts(quota: map<QuotaKey, nat>, charged: map<EventKey, QuotaKey>, limit: nat) {
    forall k: QuotaKey :: Get(quota, k).GetOr(0) == |FirstClaims(charged, k)| <= limit
  }

  /** Each counter is the number of rows first claimed against it, within the limit. */
  ghost predicate QuotaInv(cfg: Config, w: World) {
    w.charged.Keys <= w.store.rows.Keys && Counts(w.store.quota, w.charged, cfg.limit)
  }

  lemma ChargeAddsOne(charged: map<EventKey, QuotaKey>, e: EventKey, q: QuotaKey, k: QuotaKey)
    requires e !in charged
    ensures |FirstClaims(charged[e := q], k)| == |FirstClaims(charged, k)| + if k == q then 1 else 0
  {
    var added: set<EventKey> := if k == q then {e} else {};
    assert FirstClaims(charged[e := q], k) == FirstClaims(charged, k) + added;
    assert FirstClaims(charged, k) !! added;
  }

  lemma ChargeCounts(quota: map<QuotaKey, nat>, charged: map<EventKey, QuotaKey>, limit: nat, e: EventKey, q: QuotaKey)
    requires Counts(quota, charged, limit) && e !in charged && Get(quota, q).GetOr(0) < limit
    ensures Counts(quota[q := Get(quota, q).GetOr(0) + 1], charged[e := q], limit)
  {
    var charged' := charged[e := q];
    forall k: QuotaKey ensures |FirstClaims(charged', k)| == |FirstClaims(charged, k)| + if k == q then 1 else 0 {
      ChargeAddsOne(charged, e, q, k);
    }
  }

  lemma PublishQuota(cfg: Config, w: World, o: Owner, now: int)
    requires QuotaInv(cfg, w) && o in w.requests
    ensures QuotaInv(cfg, DoPublish(cfg, w, o, now))
  {
    if !Recommends(w.requests[o].event) {
      var ask := AskOf(cfg, w.requests[o], o, now);
      var claim := Claim(w.store, ask, cfg.limit);
      ClaimCases(w.store, ask, cfg.limit);
      if claim.1.Granted? && ask.key !in w.store.rows {
        ChargeCounts(w.store.quota, w.charged, cfg.limit, ask.key, ask.Quota());
      }
    }
  }

  lemma NextQuota(cfg: Config, w: World, s: Step)
    requires QuotaInv(cfg, w)
    ensures QuotaInv(cfg, Next(cfg, w, s))
  {
    if s.Publish? {
      hide DoPublish, QuotaInv;
      if s.request in w.requests && s.request !in w.handled {
        PublishQuota(cfg, w, s.request, s.now);
      }
    } else {
      OthersChargeNothing(cfg, w, s);
      hide Next;
    }
  }

  lemma OthersChargeNothing(cfg: Config, w: World, s: Step)
    requires !s.Publish?
    ensures var w' := Next(cfg, w, s);
      w'.charged == w.charged && w'.store.quota == w.store.quota && w'.store.rows.Keys == w.store.rows.Keys
  {
    hide DoPublish;
  }

  lemma {:induction false} RunQuota(cfg: Config, w: World, steps: seq<Step>)
    requires QuotaInv(cfg, w)
    ensures QuotaInv(cfg, Run(cfg, w, steps))
    decreases |steps|
  {
    if steps != [] {
      NextQuota(cfg, w, steps[0]);
      RunQuota(cfg, Next(cfg, w, steps[0]), steps[1..]);
    }
  }

  /**
   Every Agent-hour counter equals the number of event rows first claimed against
   it and stays within the limit, so duplicates, refusals, retries and resumed
   leases are never charged.
   */
  lemma QuotaCountsFirstClaims(cfg: Config, start: World, steps: seq<Step>, k: QuotaKey)
    requires Initial(start)
    ensures var w := After(cfg, start, steps);
      w.store.Charged(k) == |FirstClaims(w.charged, k)| <= cfg.limit
  {
    forall q: QuotaKey ensures |FirstClaims(start.charged, q)| == 0 {
      assert FirstClaims(start.charged, q) == {};
    }
    RunQuota(cfg, start, steps);
  }

  // ---------------------------------------------------------------- at most once

  /** The tokens the messaging service reported as accepted. */
  ghost function Reported(tokens: seq<Token>, outcomes: seq<Outcome>): set<Token> {
    set i | 0 <= i < Min(|tokens|, |outcomes|) && outcomes[i].Success? :: tokens[i]
  }

  /**
   The discipline under which delivery is exactly once: the clock moves forward and
   never past the lease of a sender in flight, no sender crashes after sending,
   claims read a clock less than a lease old, and what the service accepts is what
   it reports.
   */
  ghost predicate Timely(cfg: Config, w: World, s: Step) {
    match s
    case Tick(t) => w.clock <= t && forall o :: o in w.senders ==> t < w.senders[o].lease
    case Publish(_, now) => now <= w.clock < now + LEASE
    case CrashSender(o) => o in w.senders ==> w.senders[o].attempt.None?
    case Send(_, _, tokens, reply, took) =>
      took * (set t | t in tokens) <= (if reply.Raised? then {} else Reported(tokens, reply.outcomes))
    case _ => true
  }

  ghost predicate TimelyRun(cfg: Config, w: World, steps: seq<Step>)
    decreases |steps|
  {
    steps != [] ==> Timely(cfg, w, steps[0]) && TimelyRun(cfg, Next(cfg, w, steps[0]), steps[1..])
  }

  ghost predicate Holds(w: World, o: Owner)
    requires o in w.senders
  {
    var s := w.senders[o];
    && s.key in w.store.rows
    && w.store.rows[s.key].owner == Some(o) && !w.store.rows[s.key].IsCompleted()
    && w.store.rows[s.key].leaseUntil == Some(s.lease) && w.clock < s.lease
  }

  /** A token the service accepted is checkpointed, or settled in the attempt of the row's owner. */
  ghost predicate Accounted(w: World, k: EventKey, t: Token) {
    && k in w.store.rows
    && (t in w.store.rows[k].done ||
        (w.store.rows[k].owner.Some? &&
         var o := w.store.rows[k].owner.value;
         o in w.senders && w.senders[o].key == k &&
           w.senders[o].attempt.Some? && t in w.senders[o].attempt.value.settled))
  }

  ghost predicate OnceInv(w: World) {
    && (forall o :: o in w.senders ==> Holds(w, o))
    && (forall k, t :: w.accepted[(k, t)] <= 1)
    && (forall k, t :: w.accepted[(k, t)] > 0 ==> Accounted(w, k, t))
  }

  lemma AfterClaimOnce(cfg: Config, w: World, a: Ask, store: Store, result: Claimed)
    requires Inv(cfg, w) && OnceInv(w) && ClaimEffect(w.store, a, store, result)
    requires a.owner !in w.handled && a.now <= w.clock < a.now + LEASE
    requires result.Granted? && a.key in w.store.rows ==> w.store.rows[a.key].leaseUntil.GetOr(a.now) <= a.now
    ensures OnceInv(AfterClaim(w, a, store, result))
  {
    var w' := AfterClaim(w, a, store, result);
    forall o | o in w'.senders ensures Holds(w', o) {
      if o != a.owner {
        assert Holds(w, o) && SenderInv(cfg, w, o);
      }
    }
    forall k, t | w'.accepted[(k, t)] > 0 ensures Accounted(w', k, t) {
      assert Accounted(w, k, t);
    }
  }

  lemma SendHolds(w: World, s: Step)
    requires s.Send? && CanSend(w, s) && forall o :: o in w.senders ==> Holds(w, o)
    ensures forall o :: o in DoSend(w, s).senders ==> Holds(DoSend(w, s), o)
  {
    forall p | p in DoSend(w, s).senders ensures Holds(DoSend(w, s), p) {
      assert Holds(w, p);
    }
  }

  /** What the service accepts under a claim is settled in the attempt, and was not accepted before. */
  lemma SendAccounts(cfg: Config, w: World, s: Step, k: EventKey, t: Token)
    requires Inv(cfg, w) && OnceInv(w) && s.Send? && CanSend(w, s) && Timely(cfg, w, s)
    requires k == w.senders[s.request].key && t in s.took * (set u | u in s.tokens)
    ensures !Accounted(w, k, t) && Accounted(DoSend(w, s), k, t)
  {
    var o := s.request;
    assert Holds(w, o) && SenderInv(cfg, w, o);
    assert t in (set u | u in s.tokens) && t !in w.senders[o].base;
    assert s.tokens != [] && s.reply.Responses?;
    assert t in Reported(s.tokens, s.reply.outcomes) && t in Settled(s.tokens, s.reply.outcomes);
    hide Inv, OnceInv, Timely, Recipients;
  }

  lemma SendKeepsAccounts(w: World, s: Step, k: EventKey, t: Token)
    requires s.Send? && CanSend(w, s) && Accounted(w, k, t)
    ensures Accounted(DoSend(w, s), k, t)
  {
  }

  lemma SendAdds(w: World, s: Step, k: EventKey, t: Token)
    requires s.Send? && CanSend(w, s)
    ensures DoSend(w, s).accepted[(k, t)] == w.accepted[(k, t)] +
      if k == w.senders[s.request].key && t in s.took * (set u | u in s.tokens) then 1 else 0
  {
  }

  lemma SendOnce(cfg: Config, w: World, s: Step)
    requires Inv(cfg, w) && OnceInv(w) && s.Send? && CanSend(w, s) && Timely(cfg, w, s)
    ensures OnceInv(DoSend(w, s))
  {
    var w' := DoSend(w, s);
    SendHolds(w, s);
    hide DoSend, Accounted, Inv, Timely, Holds, CanSend;
    forall k, t ensures w'.accepted[(k, t)] <= 1 && (w'.accepted[(k, t)] > 0 ==> Accounted(w', k, t)) {
      SendAdds(w, s, k, t);
      if k == w.senders[s.request].key && t in s.took * (set u | u in s.tokens) {
        SendAccounts(cfg, w, s, k, t);
      } else if w.accepted[(k, t)] > 0 {
        SendKeepsAccounts(w, s, k, t);
      }
    }
  }

  lemma CheckpointOnce(cfg: Config, w: World, o: Owner, now: int, reported: bool)
    requires Inv(cfg, w) && OnceInv(w) && InFlight(w, o) && w.senders[o].attempt.Some?
    ensures OnceInv(DoCheckpoint(w, o, now, reported))
  {
    var w' := DoCheckpoint(w, o, now, reported);
    assert Holds(w, o) && SenderInv(cfg, w, o);
    forall p | p in w'.senders ensures Holds(w', p) {
      assert Holds(w, p) && SenderInv(cfg, w, p);
    }
    forall k, t | w'.accepted[(k, t)] > 0 ensures Accounted(w', k, t) {
      assert Accounted(w, k, t);
    }
  }

  lemma CrashOnce(cfg: Config, w: World, s: Step)
    requires Inv(cfg, w) && OnceInv(w) && s.CrashSender? && Timely(cfg, w, s)
    ensures OnceInv(Next(cfg, w, s))
  {
    var w' := Next(cfg, w, s);
    forall p | p in w'.senders ensures Holds(w', p) {
      assert Holds(w, p);
    }
    forall k, t | w'.accepted[(k, t)] > 0 ensures Accounted(w', k, t) {
      assert Accounted(w, k, t);
    }
  }

  lemma NextOnce(cfg: Config, w: World, s: Step)
    requires Inv(cfg, w) && OnceInv(w) && Timely(cfg, w, s)
    ensures OnceInv(Next(cfg, w, s))
  {
    match s {
      case Publish(o, now) =>
        if o in w.requests && o !in w.handled && !Recommends(w.requests[o].event) {
          var ask := AskOf(cfg, w.requests[o], o, now);
          ClaimCases(w.store, ask, cfg.limit);
          AfterClaimOnce(cfg, w, ask, Claim(w.store, ask, cfg.limit).0, Claim(w.store, ask, cfg.limit).1);
        } else {
          SameOnce(w, Next(cfg, w, s));
        }
      case Send(_, _, _, _, _) => if CanSend(w, s) { SendOnce(cfg, w, s); }
      case Checkpoint(o, now, reported) =>
        if InFlight(w, o) && w.senders[o].attempt.Some? { CheckpointOnce(cfg, w, o, now, reported); }
      case CrashSender(_) => CrashOnce(cfg, w, s);
      case _ => SameOnce(w, Next(cfg, w, s));
    }
  }

  lemma SameOnce(w: World, w': World)
    requires OnceInv(w)
    requires w'.store == w.store && w'.senders == w.senders && w'.accepted == w.accepted
    requires forall o :: o in w.senders ==> w'.clock < w.senders[o].lease || w'.clock == w.clock
    ensures OnceInv(w')
  {
    forall o | o in w'.senders ensures Holds(w', o) {
      assert Holds(w, o);
    }
    forall k, t | w'.accepted[(k, t)] > 0 ensures Accounted(w', k, t) {
      assert Accounted(w, k, t);
    }
  }

  lemma {:induction false} RunOnce(cfg: Config, w: World, steps: seq<Step>)
    requires Inv(cfg, w) && OnceInv(w) && TimelyRun(cfg, w, steps)
    ensures OnceInv(Run(cfg, w, steps))
    decreases |steps|
  {
    if steps != [] {
      NextInv(cfg, w, steps[0]);
      NextOnce(cfg, w, steps[0]);
      RunOnce(cfg, Next(cfg, w, steps[0]), steps[1..]);
    }
  }

  /** On every timely run no token accepts the same event twice. */
  lemma NoTokenAcceptsTwice(cfg: Config, start: World, steps: seq<Step>, k: EventKey, t: Token)
    requires Initial(start) && TimelyRun(cfg, start, steps)
    ensures After(cfg, start, steps).accepted[(k, t)] <= 1
  {
    InitialInv(cfg, start);
    RunOnce(cfg, start, steps);
  }

  // ---------------------------------------------------------------- outside the discipline

  const EVENT := OutEvent("e", Content("s", "Title", "Body", "health", "attention", "e"))
  const PHONE := Device("t", true, true, [], None)
  const EMPTY := World(Store(map[], map[]), map[], map[], {}, map[], map[], 0, multiset{}, map[])

  const SENT := Responses([Success])

  /** One try of the Agent's event by request `o` at the current time, up to the service's acceptance. */
  ghost function Try(w: World, o: Owner): seq<Step> {
    [Post("a", o), Publish(o, w.clock), Send(o, [PHONE], ["t"], SENT, {"t"})]
  }

  lemma RunThree(cfg: Config, w: World, a: Step, b: Step, c: Step)
    ensures Run(cfg, w, [a, b, c]) == Next(cfg, Next(cfg, Next(cfg, w, a), b), c)
  {
    assert [a, b, c][1..] == [b, c] && [b, c][1..] == [c] && [c][1..] == [];
    assert Run(cfg, w, [a, b, c]) == Run(cfg, Next(cfg, w, a), [b, c]);
    assert Run(cfg, Next(cfg, w, a), [b, c]) == Run(cfg, Next(cfg, Next(cfg, w, a), b), [c]);
  }

  ghost predicate RetriableRow(cfg: Config, w: World) {
    var key := cfg.Key("a", EVENT);
    if key in w.store.rows then
      var row := w.store.rows[key];
      && row.agent == "a" && row.content == Some(EVENT.content) && !row.IsCompleted()
      && row.done == {} && row.leaseUntil.GetOr(w.clock) <= w.clock
    else w.store.Charged(QuotaKey("a", w.clock / HOUR)) < cfg.limit
  }

  ghost predicate Unused(w: World, o: Owner) {
    o !in w.requests && o !in w.handled && o !in w.senders
  }

  /** An idle Agent with the event at the head, whose row is new or leased until now at the latest. */
  ghost predicate ReadyToTry(cfg: Config, w: World, o: Owner) {
    AgentOf(w, "a").mem == [EVENT] && AgentOf(w, "a").waiting.None? && Unused(w, o) && RetriableRow(cfg, w)
  }

  /** The row is leased to `o`, which has settled nothing yet. */
  ghost predicate LeasedTo(cfg: Config, w: World, o: Owner) {
    var key := cfg.Key("a", EVENT);
    && key in w.store.rows && w.store.rows[key].agent == "a" && w.store.rows[key].content == Some(EVENT.content)
    && w.store.rows[key].phase == Some(Sending) && w.store.rows[key].done == {}
    && w.store.rows[key].leaseUntil == Some(w.clock + LEASE)
    && AgentOf(w, "a").mem == [EVENT]
  }

  lemma PostAndPublish(cfg: Config, w: World, o: Owner)
    requires ReadyToTry(cfg, w, o)
    ensures var w' := Next(cfg, Next(cfg, w, Post("a", o)), Publish(o, w.clock));
      && LeasedTo(cfg, w', o) && w'.clock == w.clock && w'.accepted == w.accepted
      && w'.requests == w.requests[o := Request("a", EVENT)] && w'.handled == w.handled + {o}
      && w'.senders == w.senders[o := Sender(cfg.Key("a", EVENT), {}, w.clock + LEASE, None)]
  {
    var w1 := Next(cfg, w, Post("a", o));
    assert w1.requests[o] == Request("a", EVENT) && w1.store == w.store;
    ClaimCases(w1.store, AskOf(cfg, w1.requests[o], o, w.clock), cfg.limit);
    ClaimKeepsIdentity(w1.store, AskOf(cfg, w1.requests[o], o, w.clock), cfg.limit);
  }

  lemma ClaimKeepsIdentity(s: Store, a: Ask, limit: nat)
    ensures var c := Claim(s, a, limit).1;
      c.Granted? ==> c.row.agent == a.agent && c.row.content == Some(a.content)
  {
  }

  lemma SendIsAccepted(cfg: Config, w: World, o: Owner)
    requires o in w.senders && w.senders[o].attempt.None? && w.senders[o].base == {}
    requires o in w.requests && w.requests[o].event == EVENT
    ensures var w' := Next(cfg, w, Send(o, [PHONE], ["t"], SENT, {"t"}));
      && w'.accepted == w.accepted + Accept(w.senders[o].key, {"t"})
      && w'.senders.Keys == w.senders.Keys
      && w'.(accepted := w.accepted, senders := w.senders) == w
  {
    var phones := [PHONE];
    assert phones[0] in phones && Eligible(PHONE, EVENT.content, {}, w.clock);
    assert Recipients(phones, EVENT.content, {}, w.clock) == {"t"};
    assert (set t | t in ["t"]) == {"t"} && {"t"} * (set t | t in ["t"]) == {"t"};
    assert CanSend(w, Send(o, [PHONE], ["t"], SENT, {"t"}));
    hide Recipients, DoPublish, DoReceive, DoCheckpoint, Accept, CanSend;
  }

  lemma TryAccepts(cfg: Config, w: World, o: Owner)
    requires ReadyToTry(cfg, w, o)
    ensures var w' := Run(cfg, w, Try(w, o));
      && w'.accepted == w.accepted + Accept(cfg.Key("a", EVENT), {"t"})
      && LeasedTo(cfg, w', o) && w'.clock == w.clock
      && forall p :: p != o && Unused(w, p) ==> Unused(w', p)
  {
    hide Next, RetriableRow;
    var send := Send(o, [PHONE], ["t"], SENT, {"t"});
    RunThree(cfg, w, Post("a", o), Publish(o, w.clock), send);
    PostAndPublish(cfg, w, o);
    SendIsAccepted(cfg, Next(cfg, Next(cfg, w, Post("a", o)), Publish(o, w.clock)), o);
  }

  /** The Relay's process dies, the Agent gives up waiting, and the lease runs out. */
  ghost function CrashAndWait(w: World, o: Owner): seq<Step> {
    [CrashSender(o), GiveUp("a"), Tick(w.clock + LEASE)]
  }

  lemma WaitReadies(cfg: Config, w: World, o: Owner, next: Owner)
    requires LeasedTo(cfg, w, o) && Unused(w, next)
    ensures var w' := Run(cfg, w, CrashAndWait(w, o));
      ReadyToTry(cfg, w', next) && w'.accepted == w.accepted
  {
    RunThree(cfg, w, CrashSender(o), GiveUp("a"), Tick(w.clock + LEASE));
  }

  lemma AcceptOne(k: EventKey, t: Token)
    ensures Accept(k, {t})[(k, t)] == 1
  {
    assert (set u | u in {t} :: (k, u)) == {(k, t)};
  }

  ghost function TryTwice(cfg: Config, w: World): World {
    var w1 := Run(cfg, w, Try(w, 0));
    var w2 := Run(cfg, w1, CrashAndWait(w1, 0));
    Run(cfg, w2, Try(w2, 1))
  }

  lemma TryTwiceRepeats(cfg: Config, w: World)
    requires ReadyToTry(cfg, w, 0) && Unused(w, 1)
    ensures TryTwice(cfg, w).accepted ==
      w.accepted + Accept(cfg.Key("a", EVENT), {"t"}) + Accept(cfg.Key("a", EVENT), {"t"})
  {
    hide Next, Run, Try, ReadyToTry, Unused, LeasedTo, CrashAndWait;
    TryAccepts(cfg, w, 0);
    var w1 := Run(cfg, w, Try(w, 0));
    WaitReadies(cfg, w1, 0, 1);
    TryAccepts(cfg, Run(cfg, w1, CrashAndWait(w1, 0)), 1);
  }

  /**
   Without the discipline the property fails: a sender that crashes between the
   service's acceptance and its checkpoint lets the retry repeat the notification.
   */
  lemma CrashBeforeCheckpointRepeats(cfg: Config)
    requires cfg.limit > 0
    ensures Initial(EMPTY)
    ensures TryTwice(cfg, Next(cfg, EMPTY, Edit("a", [EVENT]))).accepted[(cfg.Key("a", EVENT), "t")] == 2
  {
    var start := Next(cfg, EMPTY, Edit("a", [EVENT]));
    assert ReadyToTry(cfg, start, 0) && Unused(start, 1) && start.accepted == multiset{};
    hide TryTwice, ReadyToTry, Unused, Next;
    TryTwiceRepeats(cfg, start);
    AcceptOne(cfg.Key("a", EVENT), "t");
  }
}
