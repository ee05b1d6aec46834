/**
 When exactly delivery can repeat. Delivery is at least once; this module says, for any state a run
 can reach, which recipients may still accept an event, again or for the first time, and that they
 are precisely those whom neither the row's checkpoint nor the senders in flight rule out.
 */
module DeliveryOnce {
  import opened Options
  import opened EventLease
  import opened NotificationDelivery
  import opened DeliveryProtocol
  import opened DeliverySafety

  /** Content that some device wants. */
  predicate Deliverable(c: Content) {
    c.category == "activity" || c.importance in {"attention", "important"}
  }

  function PhoneWith(t: Token): Device { Device(t, true, true, [], None) }

  lemma WantedIffDeliverable(c: Content)
    ensures (exists d: Device :: Wants(d, c)) <==> Deliverable(c)
  {
    assert Deliverable(c) ==> Wants(PhoneWith("t"), c);
  }

  /** The row can still be claimed by a publish that would address `t`. */
  predicate RowOpen(w: World, k: EventKey, t: Token) {
    k in w.store.rows &&
    var row := w.store.rows[k];
    !row.IsCompleted() && t !in row.done && row.content.Some? && Deliverable(row.content.value)
  }

  /** A publish in flight has not sent yet, and read a checkpoint without `t`. */
  ghost predicate SenderOpen(w: World, k: EventKey, t: Token) {
    exists o :: o in w.senders && Sends(w, o, k, t)
  }

  predicate Sends(w: World, o: Owner, k: EventKey, t: Token)
    requires o in w.senders
  {
    && w.senders[o].key == k && w.senders[o].attempt.None? && t !in w.senders[o].base
    && o in w.requests && Deliverable(w.requests[o].event.content)
  }

  ghost predicate MayAccept(w: World, k: EventKey, t: Token) {
    t != "" && (RowOpen(w, k, t) || SenderOpen(w, k, t))
  }

  // ---------------------------------------------------------------- rows belong to what was published

  /** A row that is still to be completed carries the content and the site of its Agent's publish. */
  ghost predicate RowsInv(cfg: Config, w: World) {
    forall k :: k in w.store.rows && !w.store.rows[k].IsCompleted() ==> PublishedBy(cfg, k, w.store.rows[k])
  }

  ghost predicate PublishedBy(cfg: Config, k: EventKey, row: Row) {
    && row.content.Some? && k.site == cfg.site(row.agent)
    && row.content.value.category != "recommendation"
  }

  lemma PublishRows(cfg: Config, w: World, o: Owner, now: int)
    requires RowsInv(cfg, w) && o in w.requests
    ensures RowsInv(cfg, DoPublish(cfg, w, o, now))
  {
    if !Recommends(w.requests[o].event) {
      var ask := AskOf(cfg, w.requests[o], o, now);
      ClaimCases(w.store, ask, cfg.limit);
      ClaimKeepsIdentity(w.store, ask, cfg.limit);
      hide Claim, Claimable;
    }
  }

  lemma CheckpointRows(cfg: Config, w: World, o: Owner, now: int, reported: bool)
    requires Inv(cfg, w) && RowsInv(cfg, w) && InFlight(w, o) && w.senders[o].attempt.Some?
    ensures RowsInv(cfg, DoCheckpoint(w, o, now, reported))
  {
    CheckpointInv(cfg, w, o, now, reported);
    hide Inv;
  }

  lemma OthersLeaveRows(cfg: Config, w: World, s: Step)
    requires !s.Publish? && !s.Checkpoint?
    ensures Next(cfg, w, s).store == w.store
  {
    hide DoPublish, DoCheckpoint;
  }

  lemma NextRows(cfg: Config, w: World, s: Step)
    requires Inv(cfg, w) && RowsInv(cfg, w)
    ensures RowsInv(cfg, Next(cfg, w, s))
  {
    hide Inv, DoPublish, DoCheckpoint;
    match s {
      case Publish(o, now) => if o in w.requests && o !in w.handled { PublishRows(cfg, w, o, now); }
      case Checkpoint(o, now, reported) =>
        if InFlight(w, o) && w.senders[o].attempt.Some? { CheckpointRows(cfg, w, o, now, reported); }
      case _ => OthersLeaveRows(cfg, w, s);
    }
  }

  lemma {:induction false} RunRows(cfg: Config, w: World, steps: seq<Step>)
    requires Inv(cfg, w) && RowsInv(cfg, w)
    ensures RowsInv(cfg, Run(cfg, w, steps))
    decreases |steps|
  {
    if steps != [] {
      hide RowsInv, Next, Inv;
      NextInv(cfg, w, steps[0]);
      NextRows(cfg, w, steps[0]);
      RunRows(cfg, Next(cfg, w, steps[0]), steps[1..]);
    }
  }

  // ---------------------------------------------------------------- who is ruled out stays ruled out

  lemma ClaimOpens(w: World, a: Ask, store: Store, result: Claimed, o: Owner, k: EventKey, t: Token)
    requires a.owner in w.requests && w.requests[a.owner].event.content == a.content && k in w.store.rows
    requires ClaimEffect(w.store, a, store, result)
    requires result.Granted? && a.key in w.store.rows ==>
      !w.store.rows[a.key].IsCompleted() && w.store.rows[a.key].content == Some(a.content)
    requires var w' := AfterClaim(w, a, store, result); o in w'.senders && Sends(w', o, k, t)
    ensures RowOpen(w, k, t) || (o in w.senders && Sends(w, o, k, t))
  {
    hide StoreAdvances, Deliverable;
  }

  /** A publish that becomes able to address `t` found the row open for it. */
  lemma PublishOpens(cfg: Config, w: World, request: Owner, now: int, o: Owner, k: EventKey, t: Token)
    requires request in w.requests && request !in w.handled && k in w.store.rows
    requires o in DoPublish(cfg, w, request, now).senders && Sends(DoPublish(cfg, w, request, now), o, k, t)
    ensures RowOpen(w, k, t) || (o in w.senders && Sends(w, o, k, t))
  {
    if !Recommends(w.requests[request].event) {
      var ask := AskOf(cfg, w.requests[request], request, now);
      ClaimCases(w.store, ask, cfg.limit);
      var claim := Claim(w.store, ask, cfg.limit);
      hide Claim, ClaimEffect, RowOpen, Sends, AfterClaim;
      ClaimOpens(w, ask, claim.0, claim.1, o, k, t);
    }
  }

  lemma NextOpens(cfg: Config, w: World, s: Step, o: Owner, k: EventKey, t: Token)
    requires k in w.store.rows
    requires o in Next(cfg, w, s).senders && Sends(Next(cfg, w, s), o, k, t)
    requires o in w.senders ==> o in w.requests
    ensures RowOpen(w, k, t) || (o in w.senders && Sends(w, o, k, t))
  {
    if s.Publish? {
      hide DoPublish, RowOpen, Sends;
      if s.request in w.requests && s.request !in w.handled { PublishOpens(cfg, w, s.request, s.now, o, k, t); }
    } else {
      hide DoPublish;
    }
  }

  /** Only a send is accepted, and only by someone whom nothing rules out. */
  lemma NextAccepts(cfg: Config, w: World, s: Step, k: EventKey, t: Token)
    ensures Next(cfg, w, s).accepted[(k, t)] > w.accepted[(k, t)] ==> MayAccept(w, k, t)
    ensures Next(cfg, w, s).accepted[(k, t)] >= w.accepted[(k, t)]
  {
    if s.Send? && CanSend(w, s) {
      SendAccepts(w, s, k, t);
    } else {
      hide DoPublish, DoCheckpoint, DoReceive;
    }
  }

  lemma SendAccepts(w: World, s: Step, k: EventKey, t: Token)
    requires s.Send? && CanSend(w, s)
    ensures DoSend(w, s).accepted[(k, t)] > w.accepted[(k, t)] ==> MayAccept(w, k, t)
    ensures DoSend(w, s).accepted[(k, t)] >= w.accepted[(k, t)]
  {
    var key, took := w.senders[s.request].key, s.took * (set u | u in s.tokens);
    assert Accept(key, took)[(k, t)] > 0 ==> k == key && t in took;
    if k == key && t in took {
      assert t in (set u | u in s.tokens);
      assert t in Recipients(s.devices, w.requests[s.request].event.content, w.senders[s.request].base, w.clock);
      assert Sends(w, s.request, k, t);
    }
  }

  lemma NextRulesOut(cfg: Config, w: World, s: Step, k: EventKey, t: Token)
    requires Inv(cfg, w) && k in w.store.rows && !MayAccept(w, k, t)
    ensures k in Next(cfg, w, s).store.rows && !MayAccept(Next(cfg, w, s), k, t)
    ensures Next(cfg, w, s).accepted[(k, t)] == w.accepted[(k, t)]
  {
    var w' := Next(cfg, w, s);
    NextInv(cfg, w, s);
    assert forall o :: o in w.senders ==> SenderInv(cfg, w, o) && o in w.requests;
    hide Inv, Next;
    NextAccepts(cfg, w, s, k, t);
    assert RowOpen(w', k, t) ==> RowOpen(w, k, t);
    if t != "" && SenderOpen(w', k, t) {
      var o :| o in w'.senders && Sends(w', o, k, t);
      NextOpens(cfg, w, s, o, k, t);
    }
  }

  lemma {:induction false} RunRulesOut(cfg: Config, w: World, steps: seq<Step>, k: EventKey, t: Token)
    requires Inv(cfg, w) && k in w.store.rows && !MayAccept(w, k, t)
    ensures Run(cfg, w, steps).accepted[(k, t)] == w.accepted[(k, t)]
    decreases |steps|
  {
    if steps != [] {
      hide Inv, MayAccept, Next;
      NextInv(cfg, w, steps[0]);
      NextRulesOut(cfg, w, steps[0], k, t);
      RunRulesOut(cfg, Next(cfg, w, steps[0]), steps[1..], k, t);
    }
  }

  // ---------------------------------------------------------------- who is not ruled out can accept

  function SendTo(o: Owner, t: Token): Step { Send(o, [PhoneWith(t)], [t], SENT, {t}) }

  lemma OpenSenderAccepts(cfg: Config, w: World, o: Owner, k: EventKey, t: Token)
    requires o in w.senders && Sends(w, o, k, t) && t != ""
    ensures Next(cfg, w, SendTo(o, t)).accepted[(k, t)] == w.accepted[(k, t)] + 1
  {
    var phones, tokens, c := [PhoneWith(t)], [t], w.requests[o].event.content;
    assert phones[0] in phones && Eligible(PhoneWith(t), c, w.senders[o].base, w.clock);
    assert Recipients(phones, c, w.senders[o].base, w.clock) == {t};
    assert (set u | u in tokens) == {t} && {t} * (set u | u in tokens) == {t};
    assert CanSend(w, SendTo(o, t));
    AcceptOne(k, t);
  }

  /** The row's Agent publishes the event once more, after the lease; the checkpoint is what it reads. */
  function Republish(w: World, a: AgentId, e: OutEvent, o: Owner, now: int): seq<Step> {
    [GiveUp(a), Edit(a, [e]), Post(a, o), Publish(o, now)]
  }

  lemma RunOne(cfg: Config, w: World, s: Step)
    ensures Run(cfg, w, [s]) == Next(cfg, w, s)
  {
    assert [s][1..] == [];
  }

  lemma {:induction false} RunInTurn(cfg: Config, w: World, a: seq<Step>, b: seq<Step>)
    ensures Run(cfg, w, a + b) == Run(cfg, Run(cfg, w, a), b)
    decreases |a|
  {
    if a == [] {
      assert a + b == b;
    } else {
      assert (a + b)[0] == a[0] && (a + b)[1..] == a[1..] + b;
      RunInTurn(cfg, Next(cfg, w, a[0]), a[1..], b);
    }
  }

  lemma PreparesPost(cfg: Config, w: World, a: AgentId, e: OutEvent, o: Owner)
    requires o !in w.requests && o !in w.handled
    ensures var w' := Next(cfg, Next(cfg, Next(cfg, w, GiveUp(a)), Edit(a, [e])), Post(a, o));
      && w'.store == w.store && w'.senders == w.senders && w'.accepted == w.accepted && w'.handled == w.handled
      && w'.requests == w.requests[o := Request(a, e)]
  {
  }

  lemma OpenRowIsClaimed(cfg: Config, w: World, o: Owner, k: EventKey, t: Token, now: int)
    requires RowOpen(w, k, t) && o in w.requests && o !in w.handled
    requires PublishedBy(cfg, k, w.store.rows[k])
    requires w.requests[o] == Request(w.store.rows[k].agent, OutEvent(k.id, w.store.rows[k].content.value))
    requires w.store.rows[k].leaseUntil.GetOr(now) <= now
    ensures var w' := Next(cfg, w, Publish(o, now));
      o in w'.senders && Sends(w', o, k, t) && w'.accepted == w.accepted
  {
    ClaimCases(w.store, AskOf(cfg, w.requests[o], o, now), cfg.limit);
    hide Claim;
  }

  lemma RunRepublish(cfg: Config, w: World, a: AgentId, e: OutEvent, o: Owner, now: int)
    ensures Run(cfg, w, Republish(w, a, e, o, now)) ==
      Next(cfg, Next(cfg, Next(cfg, Next(cfg, w, GiveUp(a)), Edit(a, [e])), Post(a, o)), Publish(o, now))
  {
    hide Next;
    var steps := [GiveUp(a), Edit(a, [e]), Post(a, o)];
    assert Republish(w, a, e, o, now) == steps + [Publish(o, now)];
    RunInTurn(cfg, w, steps, [Publish(o, now)]);
    RunOne(cfg, Run(cfg, w, steps), Publish(o, now));
    RunThree(cfg, w, GiveUp(a), Edit(a, [e]), Post(a, o));
  }

  lemma {:induction false} FreshOwner(used: set<nat>) returns (o: nat)
    ensures forall p :: p in used ==> p < o
  {
    if used == {} {
      o := 0;
    } else {
      var p :| p in used;
      var next := FreshOwner(used - {p});
      o := if next <= p then p + 1 else next;
      assert used == used - {p} + {p};
    }
  }

  lemma OpenRowAccepts(cfg: Config, w: World, k: EventKey, t: Token) returns (more: seq<Step>)
    requires RowsInv(cfg, w) && RowOpen(w, k, t) && t != ""
    ensures Run(cfg, w, more).accepted[(k, t)] == w.accepted[(k, t)] + 1
  {
    var row := w.store.rows[k];
    var o := FreshOwner(w.requests.Keys + w.handled);
    var e, now := OutEvent(k.id, row.content.value), row.leaseUntil.GetOr(0);
    more := Republish(w, row.agent, e, o, now) + [SendTo(o, t)];
    assert PublishedBy(cfg, k, row);
    hide Next, Run, RowsInv, Republish, SendTo;
    RunInTurn(cfg, w, Republish(w, row.agent, e, o, now), [SendTo(o, t)]);
    RunRepublish(cfg, w, row.agent, e, o, now);
    PreparesPost(cfg, w, row.agent, e, o);
    var posted := Next(cfg, Next(cfg, Next(cfg, w, GiveUp(row.agent)), Edit(row.agent, [e])), Post(row.agent, o));
    OpenRowIsClaimed(cfg, posted, o, k, t, now);
    var claimed := Next(cfg, posted, Publish(o, now));
    RunOne(cfg, claimed, SendTo(o, t));
    OpenSenderAccepts(cfg, claimed, o, k, t);
  }

  // ---------------------------------------------------------------- the theorem

  /**
   From any state a run reaches, some continuation makes `t` accept the event of row `k` once more
   exactly when the row is unfinished and its checkpoint lacks `t`, or a publish in flight that has
   not sent yet read a checkpoint that lacked `t`; and of course only for content that anyone wants.
   Continuations may let an Agent queue the event again (`Edit`): a real one does so only while it still
   has the event, so for it an open row means that it may, and a row that is not open that it cannot.
   */
  lemma AcceptsAgainIff(cfg: Config, start: World, steps: seq<Step>, k: EventKey, t: Token)
    requires Initial(start) && k in After(cfg, start, steps).store.rows
    ensures var w := After(cfg, start, steps);
      (exists more: seq<Step> :: Run(cfg, w, more).accepted[(k, t)] > w.accepted[(k, t)]) <==> MayAccept(w, k, t)
  {
    var w := After(cfg, start, steps);
    RunRows(cfg, start, steps);
    if MayAccept(w, k, t) {
      var more: seq<Step>;
      if RowOpen(w, k, t) {
        more := OpenRowAccepts(cfg, w, k, t);
      } else {
        var o :| o in w.senders && Sends(w, o, k, t);
        more := [SendTo(o, t)];
        RunOne(cfg, w, SendTo(o, t));
        OpenSenderAccepts(cfg, w, o, k, t);
      }
      assert Run(cfg, w, more).accepted[(k, t)] > w.accepted[(k, t)];
    } else {
      forall more: seq<Step> ensures Run(cfg, w, more).accepted[(k, t)] == w.accepted[(k, t)] {
        RunRulesOut(cfg, w, more, k, t);
      }
    }
  }

  /** Whoever accepted an event did so under a row for it, so the theorem covers every second acceptance. */
  lemma AcceptedHasRow(cfg: Config, start: World, steps: seq<Step>, k: EventKey, t: Token)
    requires Initial(start) && After(cfg, start, steps).accepted[(k, t)] > 0
    ensures k in After(cfg, start, steps).store.rows
  {
    RunHasRows(cfg, start, steps, k, t);
  }

  lemma {:induction false} RunHasRows(cfg: Config, w: World, steps: seq<Step>, k: EventKey, t: Token)
    requires Inv(cfg, w) && (w.accepted[(k, t)] > 0 ==> k in w.store.rows)
    ensures Run(cfg, w, steps).accepted[(k, t)] > 0 ==> k in Run(cfg, w, steps).store.rows
    decreases |steps|
  {
    if steps != [] {
      var w1 := Next(cfg, w, steps[0]);
      NextInv(cfg, w, steps[0]);
      NextAccepts(cfg, w, steps[0], k, t);
      assert forall o :: o in w.senders ==> SenderInv(cfg, w, o) && w.senders[o].key in w.store.rows;
      hide Next, Inv;
      RunHasRows(cfg, w1, steps[1..], k, t);
    }
  }
}
