/**
 Recipient selection and outcome settlement of one delivery attempt.
 The messaging service is an arbitrary reply: it either raises, or answers a
 list of outcomes that need not have one entry per recipient.
 */
module NotificationDelivery {
  import opened Options
  import opened EventLease

  datatype Device = Device(
    token: Token, meaningful: bool, activity: bool, muted: seq<string>, expiresAt: Option<int>)

  /** A failure carries its error code in lower case, or "" when it has none. */
  datatype Outcome = Success | Failure(code: string)
  datatype Reply = Raised | Responses(outcomes: seq<Outcome>)

  predicate Retryable(code: string) {
    code !in {"invalid-argument", "not-found", "unregistered", "sender-id-mismatch"}
  }

  /** An outcome after which the recipient is never tried again. */
  predicate Settles(o: Outcome) {
    o.Success? || !Retryable(o.code)
  }

  predicate Wants(d: Device, c: Content) {
    d.meaningful && c.signalId !in d.muted &&
    (if c.category == "activity" then d.activity else c.importance in {"attention", "important"})
  }

  predicate Eligible(d: Device, c: Content, completed: set<Token>, now: int) {
    Wants(d, c) && d.expiresAt.GetOr(now) >= now && d.token != "" && d.token !in completed
  }

  /**
   The device has notifications and not this signal muted, takes activities or the event is important,
   is registered still, and has a token that is not settled yet.
   */
  predicate IsAddressed(d: Device, c: Content, completed: set<Token>, now: int) {
    && d.meaningful && c.signalId !in d.muted
    && (c.category == "activity" ==> d.activity)
    && (c.category != "activity" ==> c.importance == "attention" || c.importance == "important")
    && (d.expiresAt.None? || d.expiresAt.value >= now)
    && d.token != "" && d.token !in completed
  }

  /** It was accepted, or refused for a reason that does not go away. */
  predicate IsFinal(o: Outcome) {
    o == Success || (o.Failure? && o.code in {"invalid-argument", "not-found", "unregistered", "sender-id-mismatch"})
  }

  ghost function Recipients(devices: seq<Device>, c: Content, completed: set<Token>, now: int): set<Token> {
    set d | d in devices && Eligible(d, c, completed, now) :: d.token
  }

  ghost predicate Distinct(tokens: seq<Token>) {
    forall i, j :: 0 <= i < j < |tokens| ==> tokens[i] != tokens[j]
  }

  /** The addressed tokens: one entry per eligible token, however many device records carry it. */
  method SelectRecipients(devices: seq<Device>, c: Content, completed: set<Token>, now: int)
      returns (tokens: seq<Token>)
    ensures Distinct(tokens)
    ensures (set t | t in tokens) == Recipients(devices, c, completed, now)
    ensures forall t :: t in tokens <==>
      exists k :: 0 <= k < |devices| && IsAddressed(devices[k], c, completed, now) && devices[k].token == t
  {
    tokens := [];
    for i := 0 to |devices|
      invariant Distinct(tokens)
      invariant forall t :: t in tokens <==>
        exists k :: 0 <= k < i && Eligible(devices[k], c, completed, now) && devices[k].token == t
    {
      var d := devices[i];
      if Eligible(d, c, completed, now) && d.token !in tokens {
        tokens := tokens + [d.token];
      }
    }
    assert forall t :: t in Recipients(devices, c, completed, now) ==> t in tokens by {
      forall t | t in Recipients(devices, c, completed, now) ensures t in tokens {
        var d :| d in devices && Eligible(d, c, completed, now) && d.token == t;
        var k :| 0 <= k < |devices| && devices[k] == d;
      }
    }
  }

  function Min(a: nat, b: nat): nat { if a < b then a else b }

  /** The recipients a list of outcomes settles, paired off in order. */
  ghost function Settled(tokens: seq<Token>, outcomes: seq<Outcome>): set<Token> {
    set i | 0 <= i < Min(|tokens|, |outcomes|) && Settles(outcomes[i]) :: tokens[i]
  }

  /** Some recipient has to be tried again. */
  ghost predicate NeedsRetry(tokens: seq<Token>, outcomes: seq<Outcome>) {
    |outcomes| != |tokens| ||
    exists i :: 0 <= i < Min(|tokens|, |outcomes|) && !Settles(outcomes[i])
  }

  /** An outcome of this recipient, found by its place, is final. */
  ghost predicate SettledIn(tokens: seq<Token>, outcomes: seq<Outcome>, t: Token) {
    exists i :: 0 <= i < |tokens| && i < |outcomes| && tokens[i] == t && IsFinal(outcomes[i])
  }

  /** Every recipient has an outcome, and each is final. */
  ghost predicate AllFinal(tokens: seq<Token>, reply: Reply) {
    tokens == [] ||
    (reply.Responses? && |reply.outcomes| == |tokens| &&
     forall i :: 0 <= i < |tokens| ==> IsFinal(reply.outcomes[i]))
  }

  method Settle(tokens: seq<Token>, outcomes: seq<Outcome>, completed: set<Token>)
      returns (all: set<Token>, retryable: bool)
    ensures all == completed + Settled(tokens, outcomes)
    ensures retryable <==> NeedsRetry(tokens, outcomes)
    ensures forall t :: t in all <==> t in completed || SettledIn(tokens, outcomes, t)
    ensures !retryable <==> |outcomes| == |tokens| && forall i :: 0 <= i < |outcomes| ==> IsFinal(outcomes[i])
  {
    retryable := |outcomes| != |tokens|;
    all := completed;
    var n := Min(|tokens|, |outcomes|);
    for i := 0 to n
      invariant all == completed + (set j | 0 <= j < i && Settles(outcomes[j]) :: tokens[j])
      invariant retryable <==> |outcomes| != |tokens| || exists j :: 0 <= j < i && !Settles(outcomes[j])
    {
      if Settles(outcomes[i]) {
        all := all + {tokens[i]};
      } else {
        retryable := true;
      }
    }
  }

  /** One attempt as the row sees it: what is settled afterwards, and whether that ends the event. */
  datatype Attempt = Attempt(settled: set<Token>, done: bool)

  ghost function Attempted(tokens: seq<Token>, reply: Reply, completed: set<Token>): Attempt {
    if tokens == [] then Attempt(completed, true)
    else match reply
      case Raised => Attempt(completed, false)
      case Responses(outcomes) => Attempt(completed + Settled(tokens, outcomes), !NeedsRetry(tokens, outcomes))
  }

  /** The attempt is accounted for in its row: whom it settled, whether that is the end, and the lease given back. */
  ghost predicate Accounted(was: Row, row: Row, tokens: seq<Token>, reply: Reply, completed: set<Token>, now: int) {
    && row == was.(done := row.done, leaseUntil := Some(now), phase := row.phase)
    && (forall t :: t in row.done <==>
          t in completed || (reply.Responses? && SettledIn(tokens, reply.outcomes, t)))
    && row.phase == Some(if AllFinal(tokens, reply) then Completed else Pending)
  }

  /**
   A whole attempt: select, send, and checkpoint what came back. `followUpFails` says that the usage
   report or the clean-up of tokens raises: they come after the checkpoint, except that a send that
   raised reports usage first and then is not checkpointed at all. The answer is the HTTP status;
   500 is an exception that escapes.
   */
  method Deliver(store: EventStore, key: EventKey, owner: Owner, c: Content, devices: seq<Device>,
                 completed: set<Token>, reply: Reply, followUpFails: bool, sentAt: int, now: int)
      returns (status: int, tokens: seq<Token>)
    modifies store`rows
    ensures Distinct(tokens) && (set t | t in tokens) == Recipients(devices, c, completed, sentAt)
    ensures var a := Attempted(tokens, reply, completed);
            var (after, ok) := Finish(old(store.State()), key, owner, a.settled, a.done, now);
            if tokens != [] && reply.Raised? && followUpFails then
              store.State() == old(store.State()) && status == 500
            else
              && store.State() == after
              && status == (if !ok then 503 else if followUpFails then 500 else if a.done then 200
                            else if reply.Raised? then 500 else 503)
    ensures var mine := key in old(store.rows) && old(store.rows)[key].owner == Some(owner);
            if tokens != [] && reply.Raised? && followUpFails then store.rows == old(store.rows) && status == 500
            else if !mine then store.rows == old(store.rows) && status == 503
            else
              && key in store.rows && store.rows - {key} == old(store.rows) - {key}
              && Accounted(old(store.rows)[key], store.rows[key], tokens, reply, completed, now)
              && status == (if followUpFails then 500 else if AllFinal(tokens, reply) then 200
                            else if reply.Raised? then 500 else 503)
  {
    tokens := SelectRecipients(devices, c, completed, sentAt);
    var ok;
    if tokens == [] {
      ok := store.FinishEventDelivery(key, owner, completed, true, now);
      return if !ok then 503 else if followUpFails then 500 else 200, tokens;
    }
    match reply {
      case Raised =>
        if followUpFails {
          return 500, tokens;
        }
        ok := store.FinishEventDelivery(key, owner, completed, false, now);
        status := if ok then 500 else 503;
      case Responses(outcomes) =>
        var all, retryable := Settle(tokens, outcomes, completed);
        ok := store.FinishEventDelivery(key, owner, all, !retryable, now);
        status := if !ok then 503 else if followUpFails then 500 else if retryable then 503 else 200;
    }
  }

  /**
   An attempt never forgets a recipient, and it ends the event only when every
   eligible recipient is settled.
   */
  lemma AttemptSettlesBeforeItEnds(
    devices: seq<Device>, c: Content, completed: set<Token>, now: int, tokens: seq<Token>, reply: Reply)
    requires (set t | t in tokens) == Recipients(devices, c, completed, now)
    ensures completed <= Attempted(tokens, reply, completed).settled
    ensures Attempted(tokens, reply, completed).settled <= completed + Recipients(devices, c, completed, now)
    ensures Attempted(tokens, reply, completed).done ==>
      Attempted(tokens, reply, completed).settled == completed + Recipients(devices, c, completed, now)
  {
    var all := set t | t in tokens;
    match reply {
      case Raised =>
      case Responses(outcomes) =>
        assert Settled(tokens, outcomes) <= all;
        if tokens != [] && !NeedsRetry(tokens, outcomes) {
          forall t | t in tokens ensures t in Settled(tokens, outcomes) {
            var i :| 0 <= i < |tokens| && tokens[i] == t;
          }
        }
    }
  }
}
