/**
 The durable delivery path as one transition system: any number of Agents with
 their durable outboxes, the Relay's event rows, and any number of concurrent
 publishes. Every step is atomic; a run is any sequence of steps, and a step
 that is not enabled changes nothing.
 */
module DeliveryProtocol {
  import opened Options
  import opened EventLease
  import opened NotificationDelivery
  import RelayTransport

  datatype OutEvent = OutEvent(id: string, content: Content)
  datatype Request = Request(agent: AgentId, event: OutEvent)

  /** A publish that holds, or once held, the row: what it read, and its attempt once it has one. */
  datatype Sender = Sender(key: EventKey, base: set<Token>, lease: int, attempt: Option<Attempt>)

  /** An Agent: outbox in memory, outbox on disk, the request it waits for, what it acknowledged. */
  datatype Agent = Agent(mem: seq<OutEvent>, disk: seq<OutEvent>, waiting: Option<Owner>, acked: set<OutEvent>)

  /**
   The last two fields are history: every acceptance of a notification by the
   messaging service, and the quota document each row was charged to.
   */
  datatype World = World(
    store: Store, senders: map<Owner, Sender>, requests: map<Owner, Request>, handled: set<Owner>,
    replies: map<Owner, int>, agents: map<AgentId, Agent>, clock: int,
    accepted: multiset<(EventKey, Token)>, charged: map<EventKey, QuotaKey>)

  datatype Config = Config(limit: nat, site: AgentId -> string) {
    function Key(a: AgentId, e: OutEvent): EventKey { EventKey(site(a), e.id) }
  }

  datatype Step =
    | Edit(agent: AgentId, outbox: seq<OutEvent>)      // queueing, trimming, revoking: anything but a flush
    | Save(agent: AgentId)
    | Post(agent: AgentId, request: Owner)             // the flush sends the head of the outbox
    | Receive(agent: AgentId)                          // the flush reads the answer
    | GiveUp(agent: AgentId)                           // transport failure seen by the Agent
    | CrashAgent(agent: AgentId)
    | Refuse(request: Owner, status: int)              // answered before the claim: rate limit, signature
    | Publish(request: Owner, now: int)
    | Send(request: Owner, devices: seq<Device>, tokens: seq<Token>, reply: Reply, took: set<Token>)
    | Checkpoint(request: Owner, now: int, reported: bool)
    // the sender dies or raises before its checkpoint: an answer 500 tells the Agent no more than silence
    | CrashSender(request: Owner)
    | Tick(clock: int)

  function AgentOf(w: World, a: AgentId): Agent {
    Get(w.agents, a).GetOr(Agent([], [], None, {}))
  }

  function PutAgent(w: World, a: AgentId, agent: Agent): World {
    w.(agents := w.agents[a := agent])
  }

  predicate Recommends(e: OutEvent) { e.content.category == "recommendation" }

  predicate InFlight(w: World, o: Owner) { o in w.senders }

  function AskOf(cfg: Config, r: Request, o: Owner, now: int): Ask {
    Ask(cfg.Key(r.agent, r.event), r.agent, r.event.content, o, now)
  }

  /** What a publish does with the outcome of its claim. */
  function AfterClaim(w: World, a: Ask, store: Store, result: Claimed): World {
    var w1 := w.(handled := w.handled + {a.owner});
    match result
    case Refused(status) => w1.(replies := w.replies[a.owner := status])
    case Duplicate => w1.(replies := w.replies[a.owner := 200])
    case Granted(row) =>
      w1.(store := store, senders := w.senders[a.owner := Sender(a.key, row.done, a.now + LEASE, None)],
          charged := if a.key in w.store.rows then w.charged else w.charged[a.key := a.Quota()])
  }

  function DoPublish(cfg: Config, w: World, o: Owner, now: int): World
    requires o in w.requests
  {
    if Recommends(w.requests[o].event) then
      w.(handled := w.handled + {o}, replies := w.replies[o := 200])
    else
      var ask := AskOf(cfg, w.requests[o], o, now);
      var claim := Claim(w.store, ask, cfg.limit);
      AfterClaim(w, ask, claim.0, claim.1)
  }

  function Accept(key: EventKey, tokens: set<Token>): multiset<(EventKey, Token)> {
    multiset(set t | t in tokens :: (key, t))
  }

  /** Sending is possible once per claim; `tokens` has to be what recipient selection yields. */
  ghost predicate CanSend(w: World, s: Step)
    requires s.Send?
  {
    && InFlight(w, s.request) && s.request in w.requests && w.senders[s.request].attempt.None?
    && Distinct(s.tokens)
    && (set t | t in s.tokens) ==
       Recipients(s.devices, w.requests[s.request].event.content, w.senders[s.request].base, w.clock)
  }

  ghost function DoSend(w: World, s: Step): World
    requires s.Send? && CanSend(w, s)
  {
    var sender := w.senders[s.request];
    w.(senders := w.senders[s.request := sender.(attempt := Some(Attempted(s.tokens, s.reply, sender.base)))],
       accepted := w.accepted + Accept(sender.key, s.took * (set t | t in s.tokens)))
  }

  /** `reported` is false when the usage report that follows the checkpoint fails. */
  function DoCheckpoint(w: World, o: Owner, now: int, reported: bool): World
    requires InFlight(w, o) && w.senders[o].attempt.Some?
  {
    var sender := w.senders[o];
    var attempt := sender.attempt.value;
    var (store, ok) := Finish(w.store, sender.key, o, attempt.settled, attempt.done, now);
    var status := if !ok then 503 else if !reported then 500 else if attempt.done then 200 else 503;
    w.(store := store, senders := w.senders - {o}, replies := w.replies[o := status])
  }

  function DoReceive(w: World, a: AgentId): World {
    var agent := AgentOf(w, a);
    if agent.waiting.None? || agent.waiting.value !in w.replies || agent.mem == [] then w
    else
      var status := w.replies[agent.waiting.value];
      var idle := agent.(waiting := None);
      PutAgent(w, a,
        if status < 400 then idle.(mem := agent.mem[1..], acked := agent.acked + {agent.mem[0]})
        else if RelayTransport.Retryable(status) then idle
        else idle.(mem := agent.mem[1..]))
  }

  ghost function Next(cfg: Config, w: World, s: Step): World {
    match s
    case Edit(a, outbox) =>
      if AgentOf(w, a).waiting.None? then PutAgent(w, a, AgentOf(w, a).(mem := outbox)) else w
    case Save(a) => PutAgent(w, a, AgentOf(w, a).(disk := AgentOf(w, a).mem))
    case Post(a, o) =>
      if AgentOf(w, a).waiting.None? && AgentOf(w, a).mem != [] && o !in w.requests then
        PutAgent(w.(requests := w.requests[o := Request(a, AgentOf(w, a).mem[0])]), a,
                 AgentOf(w, a).(waiting := Some(o)))
      else w
    case Receive(a) => DoReceive(w, a)
    case GiveUp(a) => PutAgent(w, a, AgentOf(w, a).(waiting := None))
    case CrashAgent(a) => PutAgent(w, a, AgentOf(w, a).(waiting := None, mem := AgentOf(w, a).disk))
    case Refuse(o, status) =>
      if o in w.requests && o !in w.handled && status >= 400 then
        w.(handled := w.handled + {o}, replies := w.replies[o := status])
      else w
    case Publish(o, now) => if o in w.requests && o !in w.handled then DoPublish(cfg, w, o, now) else w
    case Send(_, _, _, _, _) => if CanSend(w, s) then DoSend(w, s) else w
    case Checkpoint(o, now, reported) =>
      if InFlight(w, o) && w.senders[o].attempt.Some? then DoCheckpoint(w, o, now, reported) else w
    case CrashSender(o) => w.(senders := w.senders - {o})
    case Tick(t) => w.(clock := t)
  }

  ghost function Run(cfg: Config, w: World, steps: seq<Step>): World
    decreases |steps|
  {
    if steps == [] then w else Run(cfg, Next(cfg, w, steps[0]), steps[1..])
  }

  /** Rows of earlier releases may exist; nothing else does. */
  ghost predicate Initial(w: World) {
    && (forall k :: k in w.store.rows ==> w.store.rows[k].phase.None? && w.store.rows[k].owner.None?)
    && w.store.quota == map[] && w.senders == map[] && w.requests == map[] && w.handled == {}
    && w.replies == map[] && w.agents == map[] && w.accepted == multiset{} && w.charged == map[]
  }

  // ---------------------------------------------------------------- the invariant

  ghost predicate Done(cfg: Config, s: Store, r: Request) {
    Recommends(r.event) ||
    (cfg.Key(r.agent, r.event) in s.rows && s.rows[cfg.Key(r.agent, r.event)].IsCompleted())
  }

  /** A sender that still owns its row has read exactly what the row holds, and the row is not completed. */
  ghost predicate SenderInv(cfg: Config, w: World, o: Owner)
    requires o in w.senders
  {
    var s := w.senders[o];
    && o in w.handled && o in w.requests
    && s.key == cfg.Key(w.requests[o].agent, w.requests[o].event)
    && s.key in w.store.rows
    && s.base <= w.store.rows[s.key].done
    && (w.store.rows[s.key].owner == Some(o) ==>
          w.store.rows[s.key].done == s.base && w.store.rows[s.key].phase == Some(Sending))
    && (s.attempt.Some? ==> s.base <= s.attempt.value.settled)
  }

  ghost predicate SendersInv(cfg: Config, w: World) {
    && (forall o :: o in w.senders ==> SenderInv(cfg, w, o))
    && (forall k :: k in w.store.rows && w.store.rows[k].owner.Some? ==> w.store.rows[k].owner.value in w.handled)
  }

  ghost predicate RepliesInv(cfg: Config, w: World) {
    forall o :: o in w.replies ==> o in w.requests && (w.replies[o] < 400 ==> Done(cfg, w.store, w.requests[o]))
  }

  ghost predicate AgentInv(cfg: Config, w: World, a: AgentId, agent: Agent) {
    && (agent.waiting.Some? ==>
          && agent.mem != []
          && agent.waiting.value in w.requests
          && w.requests[agent.waiting.value] == Request(a, agent.mem[0]))
    && forall e :: e in agent.acked ==> Done(cfg, w.store, Request(a, e))
  }

  ghost predicate AgentsInv(cfg: Config, w: World) {
    forall a :: a in w.agents ==> AgentInv(cfg, w, a, w.agents[a])
  }

  ghost predicate Inv(cfg: Config, w: World) {
    SendersInv(cfg, w) && RepliesInv(cfg, w) && AgentsInv(cfg, w)
  }

  lemma InitialInv(cfg: Config, w: World)
    requires Initial(w)
    ensures Inv(cfg, w)
  {
  }

  /** What is known to be done stays done while rows advance. */
  lemma Frame(cfg: Config, w: World, w': World)
    requires StoreAdvances(w.store, w'.store) && w'.requests == w.requests
    ensures RepliesInv(cfg, w) && w'.replies == w.replies ==> RepliesInv(cfg, w')
    ensures AgentsInv(cfg, w) && w'.agents == w.agents ==> AgentsInv(cfg, w')
  {
    assert forall r :: Done(cfg, w.store, r) ==> Done(cfg, w'.store, r);
  }

  lemma AfterClaimInv(cfg: Config, w: World, a: Ask, store: Store, result: Claimed)
    requires Inv(cfg, w) && a.owner in w.requests && a.owner !in w.handled
    requires a.key == cfg.Key(w.requests[a.owner].agent, w.requests[a.owner].event)
    requires ClaimEffect(w.store, a, store, result)
    ensures Inv(cfg, AfterClaim(w, a, store, result))
  {
    var w' := AfterClaim(w, a, store, result);
    assert StoreAdvances(w.store, w'.store);
    Frame(cfg, w, w'.(replies := w.replies));
    forall p | p in w'.senders ensures SenderInv(cfg, w', p) {
      if p != a.owner {
        assert SenderInv(cfg, w, p);
      }
    }
  }

  lemma PublishInv(cfg: Config, w: World, o: Owner, now: int)
    requires Inv(cfg, w) && o in w.requests && o !in w.handled
    ensures Inv(cfg, DoPublish(cfg, w, o, now))
    ensures StoreAdvances(w.store, DoPublish(cfg, w, o, now).store)
  {
    if Recommends(w.requests[o].event) {
      Frame(cfg, w, DoPublish(cfg, w, o, now).(replies := w.replies));
    } else {
      var ask := AskOf(cfg, w.requests[o], o, now);
      var claim := Claim(w.store, ask, cfg.limit);
      ClaimCases(w.store, ask, cfg.limit);
      AfterClaimInv(cfg, w, ask, claim.0, claim.1);
    }
  }

  lemma SendInv(cfg: Config, w: World, s: Step)
    requires s.Send? && CanSend(w, s) && Inv(cfg, w)
    ensures Inv(cfg, DoSend(w, s))
  {
    var w' := DoSend(w, s);
    forall p | p in w'.senders ensures SenderInv(cfg, w', p) {
      assert SenderInv(cfg, w, p);
    }
    Frame(cfg, w, w');
  }

  lemma CheckpointInv(cfg: Config, w: World, o: Owner, now: int, reported: bool)
    requires Inv(cfg, w) && InFlight(w, o) && w.senders[o].attempt.Some?
    ensures Inv(cfg, DoCheckpoint(w, o, now, reported))
    ensures StoreAdvances(w.store, DoCheckpoint(w, o, now, reported).store)
  {
    assert SenderInv(cfg, w, o);
    var w' := DoCheckpoint(w, o, now, reported);
    forall p | p in w'.senders ensures SenderInv(cfg, w', p) {
      assert SenderInv(cfg, w, p);
    }
    Frame(cfg, w, w'.(replies := w.replies));
  }

  lemma ReceiveInv(cfg: Config, w: World, a: AgentId)
    requires Inv(cfg, w)
    ensures Inv(cfg, DoReceive(w, a))
  {
    assert AgentInv(cfg, w, a, AgentOf(w, a));
  }

  lemma PostInv(cfg: Config, w: World, a: AgentId, o: Owner)
    requires Inv(cfg, w)
    ensures Inv(cfg, Next(cfg, w, Post(a, o)))
  {
    var w' := Next(cfg, w, Post(a, o));
    assert AgentInv(cfg, w, a, AgentOf(w, a));
    forall p | p in w'.senders ensures SenderInv(cfg, w', p) {
      assert SenderInv(cfg, w, p);
    }
    forall b | b in w'.agents ensures AgentInv(cfg, w', b, w'.agents[b]) {
      if b != a { assert AgentInv(cfg, w, b, w.agents[b]); }
    }
  }

  lemma PutAgentInv(cfg: Config, w: World, a: AgentId, agent: Agent)
    requires Inv(cfg, w) && AgentInv(cfg, w, a, agent)
    ensures Inv(cfg, PutAgent(w, a, agent))
  {
    var w' := PutAgent(w, a, agent);
    forall p | p in w'.senders ensures SenderInv(cfg, w', p) {
      assert SenderInv(cfg, w, p);
    }
  }

  /** Steps of one Agent that neither post nor receive. */
  lemma AgentInvStep(cfg: Config, w: World, s: Step)
    requires Inv(cfg, w) && (s.Edit? || s.Save? || s.GiveUp? || s.CrashAgent?)
    ensures Inv(cfg, Next(cfg, w, s))
  {
    assert AgentInv(cfg, w, s.agent, AgentOf(w, s.agent));
    hide Inv, PutAgent, DoPublish, DoReceive, DoCheckpoint;
    var agent := AgentOf(w, s.agent);
    match s {
      case Edit(a, outbox) => if agent.waiting.None? { PutAgentInv(cfg, w, a, agent.(mem := outbox)); }
      case Save(a) => PutAgentInv(cfg, w, a, agent.(disk := agent.mem));
      case GiveUp(a) => PutAgentInv(cfg, w, a, agent.(waiting := None));
      case CrashAgent(a) => PutAgentInv(cfg, w, a, agent.(waiting := None, mem := agent.disk));
      case _ =>
    }
  }

  lemma RefuseInv(cfg: Config, w: World, o: Owner, status: int)
    requires Inv(cfg, w)
    ensures Inv(cfg, Next(cfg, w, Refuse(o, status)))
  {
    var w' := Next(cfg, w, Refuse(o, status));
    hide DoPublish, DoReceive, DoCheckpoint;
    forall p | p in w'.senders ensures SenderInv(cfg, w', p) {
      assert SenderInv(cfg, w, p);
    }
    Frame(cfg, w, w'.(replies := w.replies));
  }

  lemma QuietInv(cfg: Config, w: World, s: Step)
    requires Inv(cfg, w) && (s.CrashSender? || s.Tick?)
    ensures Inv(cfg, Next(cfg, w, s))
  {
    var w' := Next(cfg, w, s);
    hide DoPublish, DoReceive, DoCheckpoint;
    forall p | p in w'.senders ensures SenderInv(cfg, w', p) {
      assert SenderInv(cfg, w, p);
    }
    Frame(cfg, w, w');
  }

  lemma NextInv(cfg: Config, w: World, s: Step)
    requires Inv(cfg, w)
    ensures Inv(cfg, Next(cfg, w, s))
    ensures StoreAdvances(w.store, Next(cfg, w, s).store)
  {
    match s {
      case Publish(o, now) =>
        if o in w.requests && o !in w.handled { PublishInv(cfg, w, o, now); }
      case Checkpoint(o, now, reported) =>
        if InFlight(w, o) && w.senders[o].attempt.Some? { CheckpointInv(cfg, w, o, now, reported); }
      case Send(_, _, _, _, _) => if CanSend(w, s) { SendInv(cfg, w, s); }
      case Receive(a) => ReceiveInv(cfg, w, a);
      case Post(a, o) => PostInv(cfg, w, a, o);
      case Refuse(o, status) => RefuseInv(cfg, w, o, status);
      case CrashSender(_) => QuietInv(cfg, w, s);
      case Tick(_) => QuietInv(cfg, w, s);
      case _ => AgentInvStep(cfg, w, s);
    }
  }

  lemma {:induction false} RunInv(cfg: Config, w: World, steps: seq<Step>)
    requires Inv(cfg, w)
    ensures Inv(cfg, Run(cfg, w, steps))
    ensures StoreAdvances(w.store, Run(cfg, w, steps).store)
    decreases |steps|
  {
    if steps != [] {
      var w1 := Next(cfg, w, steps[0]);
      NextInv(cfg, w, steps[0]);
      RunInv(cfg, w1, steps[1..]);
    }
  }

  // ---------------------------------------------------------------- what a publish is answered

  /** The request took the row over, with whom it had settled, for a minute. */
  ghost predicate TakesOver(w: World, w': World, a: Ask) {
    var done := if a.key in w.store.rows then w.store.rows[a.key].done else {};
    && w'.replies == w.replies && a.key in w'.store.rows && w'.store.rows - {a.key} == w.store.rows - {a.key}
    && w'.store.rows[a.key].owner == Some(a.owner) && w'.store.rows[a.key].phase == Some(Sending)
    && w'.store.rows[a.key].leaseUntil == Some(a.now + 60_000_000) && w'.store.rows[a.key].done == done
    && w'.senders == w.senders[a.owner := Sender(a.key, done, a.now + 60_000_000, None)]
  }

  /** The request is answered with this status, and no row changes. */
  ghost predicate Answers(w: World, w': World, o: Owner, status: int) {
    w'.store == w.store && w'.senders == w.senders && w'.replies == w.replies[o := status]
  }

  lemma ClaimIsAnswered(w: World, a: Ask, store: Store, result: Claimed)
    requires ClaimEffect(w.store, a, store, result)
    ensures var w' := AfterClaim(w, a, store, result);
      && w'.handled == w.handled + {a.owner}
      && (result.Refused? ==> Answers(w, w', a.owner, result.status))
      && (result.Duplicate? ==> Answers(w, w', a.owner, 200))
      && (result.Granted? ==> TakesOver(w, w', a))
  {
    hide StoreAdvances;
  }

  /**
   A publish is answered at once unless it takes the row over: 200 for a recommendation and for an event
   that is finished, 409 for one of another Agent or of other content, 503 while another request has it,
   429 for a new one beyond the quota of the hour.
   */
  lemma PublishAnswers(cfg: Config, w: World, o: Owner, now: int)
    requires o in w.requests && o !in w.handled
    ensures var r := w.requests[o]; var w' := Next(cfg, w, Publish(o, now));
      var a := Ask(EventKey(cfg.site(r.agent), r.event.id), r.agent, r.event.content, o, now);
      && w'.handled == w.handled + {o}
      && if r.event.content.category == "recommendation" || IsDuplicate(w.store.rows, a) then Answers(w, w', o, 200)
         else if Conflicts(w.store.rows, a) then Answers(w, w', o, 409)
         else if Leased(w.store.rows, a) then Answers(w, w', o, 503)
         else if OverQuota(w.store.rows, w.store.quota, a, cfg.limit) then Answers(w, w', o, 429)
         else TakesOver(w, w', a)
  {
    if !Recommends(w.requests[o].event) {
      var a := AskOf(cfg, w.requests[o], o, now);
      ClaimCases(w.store, a, cfg.limit);
      var (store, result) := Claim(w.store, a, cfg.limit);
      ClaimIsAnswered(w, a, store, result);
      assert Next(cfg, w, Publish(o, now)) == AfterClaim(w, a, store, result);
      hide Claim, Conflicts, Leased, OverQuota, IsDuplicate, Claimable, ClaimEffect, AfterClaim, Answers, TakesOver;
    }
  }

  /**
   The end of an attempt: 503 if the row has another owner, which keeps it; otherwise the outcome is written,
   and it is 500 if the usage report fails, 200 if the event is finished, and 503 if somebody has to be tried again.
   */
  lemma CheckpointAnswers(cfg: Config, w: World, o: Owner, now: int, reported: bool)
    requires o in w.senders && w.senders[o].attempt.Some?
    ensures var key, attempt := w.senders[o].key, w.senders[o].attempt.value;
      var w' := Next(cfg, w, Checkpoint(o, now, reported));
      var mine := key in w.store.rows && w.store.rows[key].owner == Some(o);
      && w'.senders == w.senders - {o} && w'.store.quota == w.store.quota
      && w'.replies ==
           w.replies[o := if !mine then 503 else if !reported then 500 else if attempt.done then 200 else 503]
      && w'.store.rows == if !mine then w.store.rows
                          else w.store.rows[key := w.store.rows[key].(
                            done := attempt.settled, leaseUntil := Some(now),
                            phase := Some(if attempt.done then Completed else Pending))]
  {
  }
}
