/**
 The event rows and hourly quota counters of the push relay, and the two
 Firestore transactions that move them: claiming an event for delivery under
 a lease, and writing a delivery attempt's outcome back.

 Times are microseconds. Digests are treated as injective, so a fingerprint is
 the fingerprinted content and a recipient digest is the recipient's token.
 */
module EventLease {
  import opened Options

  type AgentId = string
  type Token = string
  type Owner = nat

  const LEASE: int := 60 * 1_000_000
  const HOUR: int := 3600 * 1_000_000

  datatype EventKey = EventKey(site: string, id: string)
  datatype QuotaKey = QuotaKey(agent: AgentId, hour: int)
  datatype Content = Content(
    signalId: string, title: string, body: string,
    category: string, importance: string, tag: string)

  datatype Phase = Sending | Pending | Completed

  /** Optional fields are those that rows written by earlier releases lack. */
  datatype Row = Row(
    agent: AgentId, content: Option<Content>, quotaCount: nat, phase: Option<Phase>,
    owner: Option<Owner>, leaseUntil: Option<int>, done: set<Token>)
  {
    /** A row without a lifecycle stays deduplicated. */
    predicate IsCompleted() { phase.GetOr(Completed).Completed? }
  }

  datatype Store = Store(rows: map<EventKey, Row>, quota: map<QuotaKey, nat>) {
    function Charged(k: QuotaKey): nat { Get(quota, k).GetOr(0) }
  }

  /** What one publish asks the claim transaction for. */
  datatype Ask = Ask(key: EventKey, agent: AgentId, content: Content, owner: Owner, now: int) {
    function Quota(): QuotaKey { QuotaKey(agent, now / HOUR) }
  }

  datatype Claimed = Refused(status: int) | Duplicate | Granted(row: Row)

  /** The claim as a function of the store. */
  function Claim(s: Store, a: Ask, limit: nat): (Store, Claimed) {
    if a.key in s.rows then
      var row := s.rows[a.key];
      if row.agent != a.agent then (s, Refused(409))
      else if row.IsCompleted() then (s, Duplicate)
      else if row.content != Some(a.content) then (s, Refused(409))
      else if row.leaseUntil.GetOr(a.now) > a.now then (s, Refused(503))
      else Grant(s, a, row)
    else if s.Charged(a.Quota()) >= limit then (s, Refused(429))
    else
      var count := s.Charged(a.Quota()) + 1;
      Grant(s.(quota := s.quota[a.Quota() := count]), a,
            Row(a.agent, Some(a.content), count, None, None, None, {}))
  }

  function Grant(s: Store, a: Ask, row: Row): (Store, Claimed) {
    var leased := row.(phase := Some(Sending), owner := Some(a.owner), leaseUntil := Some(a.now + LEASE));
    (s.(rows := s.rows[a.key := leased]), Granted(leased))
  }

  /** The write-back as a function of the store; false stands for the 503 it answers. */
  function Finish(s: Store, key: EventKey, owner: Owner, completed: set<Token>, done: bool, now: int): (Store, bool) {
    if key !in s.rows || s.rows[key].owner != Some(owner) then (s, false)
    else
      var row := s.rows[key].(done := completed, leaseUntil := Some(now),
                              phase := Some(if done then Completed else Pending));
      (s.(rows := s.rows[key := row]), true)
  }

  /** How a row may change: settled recipients are never forgotten, and a completed row is frozen. */
  ghost predicate Advances(r: Row, r': Row) {
    && r.done <= r'.done && r.agent == r'.agent && r.quotaCount == r'.quotaCount && r.content == r'.content
    && (r.IsCompleted() ==> r' == r)
  }

  ghost predicate StoreAdvances(s: Store, s': Store) {
    forall k :: k in s.rows ==> k in s'.rows && Advances(s.rows[k], s'.rows[k])
  }

  /**
   A claim writes only when it is granted, and then only the claimed row, which it
   takes over with the recipients settled so far; only a new row is charged.
   */
  ghost predicate ClaimEffect(s: Store, a: Ask, s': Store, c: Claimed) {
    && StoreAdvances(s, s')
    && (match c
        case Refused(status) => s' == s && RefusedStatus(status)
        case Duplicate => s' == s && a.key in s.rows && s.rows[a.key].IsCompleted()
        case Granted(row) =>
          && s'.rows == s.rows[a.key := row]
          && row.owner == Some(a.owner) && row.phase == Some(Sending) && row.leaseUntil == Some(a.now + LEASE)
          && row.done == (if a.key in s.rows then s.rows[a.key].done else {})
          && s'.quota == (if a.key in s.rows then s.quota
                          else s.quota[a.Quota() := s.Charged(a.Quota()) + 1]))
  }

  /** The cases in which a claim is granted. */
  ghost predicate Claimable(s: Store, a: Ask, limit: nat) {
    if a.key in s.rows then
      var row := s.rows[a.key];
      row.agent == a.agent && row.content == Some(a.content) && !row.IsCompleted() &&
      row.leaseUntil.GetOr(a.now) <= a.now
    else s.Charged(a.Quota()) < limit
  }

  /** The row belongs to another Agent, or is unfinished and holds other content. */
  predicate Conflicts(rows: map<EventKey, Row>, a: Ask) {
    a.key in rows &&
    (rows[a.key].agent != a.agent ||
     (rows[a.key].phase in {Some(Sending), Some(Pending)} && rows[a.key].content != Some(a.content)))
  }

  /** The row is the Agent's own, unfinished, with this content, and somebody's lease of it is not over. */
  predicate Leased(rows: map<EventKey, Row>, a: Ask) {
    && a.key in rows && rows[a.key].agent == a.agent
    && rows[a.key].phase in {Some(Sending), Some(Pending)} && rows[a.key].content == Some(a.content)
    && rows[a.key].leaseUntil.Some? && rows[a.key].leaseUntil.value > a.now
  }

  /** The row is the Agent's own and finished; rows without a lifecycle are. */
  predicate IsDuplicate(rows: map<EventKey, Row>, a: Ask) {
    a.key in rows && rows[a.key].agent == a.agent && rows[a.key].phase in {None, Some(Completed)}
  }

  /** There is no row, and the quota of the Agent's hour is used up. */
  predicate OverQuota(rows: map<EventKey, Row>, quota: map<QuotaKey, nat>, a: Ask, limit: nat) {
    var hour := QuotaKey(a.agent, a.now / 3_600_000_000);
    a.key !in rows && (if hour in quota then quota[hour] else 0) >= limit
  }

  /** Each answer of a claim belongs to one situation, and together they are all there are. */
  ghost predicate AnswersAsDue(rows: map<EventKey, Row>, quota: map<QuotaKey, nat>, a: Ask, limit: nat, c: Claimed) {
    && (c == Refused(409) <==> Conflicts(rows, a))
    && (c == Refused(503) <==> Leased(rows, a))
    && (c == Refused(429) <==> OverQuota(rows, quota, a, limit))
    && (c == Duplicate <==> IsDuplicate(rows, a))
    && (c.Granted? <==> !Conflicts(rows, a) && !Leased(rows, a) && !OverQuota(rows, quota, a, limit) &&
                        !IsDuplicate(rows, a))
  }

  lemma ClaimCases(s: Store, a: Ask, limit: nat)
    ensures var (s', c) := Claim(s, a, limit);
      && ClaimEffect(s, a, s', c)
      && (c.Granted? <==> Claimable(s, a, limit))
      && AnswersAsDue(s.rows, s.quota, a, limit, c)
  {
    var row := if a.key in s.rows then s.rows[a.key] else Row(a.agent, None, 0, None, None, None, {});
    assert a.key in s.rows && Claimable(s, a, limit) ==>
      Advances(row, row.(phase := Some(Sending), owner := Some(a.owner), leaseUntil := Some(a.now + LEASE)));
  }

  predicate RefusedStatus(status: int) { status in {409, 429, 503} }

  /** The two collections the transactions read and write. */
  class EventStore {
    var rows: map<EventKey, Row>
    var quota: map<QuotaKey, nat>
    const limit: nat

    constructor (limit: nat)
      ensures this.limit == limit && State() == Store(map[], map[])
    {
      this.limit := limit;
      rows, quota := map[], map[];
    }

    function State(): Store
      reads this
    {
      Store(rows, quota)
    }

    method ClaimEventDelivery(a: Ask) returns (result: Claimed)
      modifies this
      ensures (State(), result) == Claim(old(State()), a, limit)
      ensures AnswersAsDue(old(rows), old(quota), a, limit, result)
      ensures !result.Granted? ==> State() == old(State())
      ensures result.Granted? ==> a.key in rows && rows == old(rows)[a.key := result.row]
      ensures result.Granted? ==> result.row.agent == a.agent && result.row.content == Some(a.content)
      ensures result.Granted? ==> result.row.owner == Some(a.owner) && result.row.phase == Some(Sending)
      ensures result.Granted? ==> result.row.leaseUntil == Some(a.now + 60_000_000)
      ensures result.Granted? ==> result.row.done == if a.key in old(rows) then old(rows)[a.key].done else {}
      ensures result.Granted? ==> var hour := QuotaKey(a.agent, a.now / 3_600_000_000);
        var charged := if hour in old(quota) then old(quota)[hour] else 0;
        if a.key in old(rows) then quota == old(quota) && result.row.quotaCount == old(rows)[a.key].quotaCount
        else quota == old(quota)[hour := charged + 1] && result.row.quotaCount == charged + 1
    {
      var row;
      if a.key in rows {
        row := rows[a.key];
        if row.agent != a.agent {
          return Refused(409);
        }
        if row.IsCompleted() {
          return Duplicate;
        }
        if row.content != Some(a.content) {
          return Refused(409);
        }
        if row.leaseUntil.GetOr(a.now) > a.now {
          return Refused(503);
        }
      } else {
        var count := Get(quota, a.Quota()).GetOr(0);
        if count >= limit {
          return Refused(429);
        }
        quota := quota[a.Quota() := count + 1];
        row := Row(a.agent, Some(a.content), count + 1, None, None, None, {});
      }
      row := row.(phase := Some(Sending), owner := Some(a.owner), leaseUntil := Some(a.now + LEASE));
      rows := rows[a.key := row];
      result := Granted(row);
    }

    /**
     Only the caller's own row changes. What it settled is remembered; afterwards the row is finished
     for good, or free at once for its Agent's next publish of the same content.
     */
    method FinishEventDelivery(key: EventKey, owner: Owner, completed: set<Token>, done: bool, now: int)
        returns (ok: bool)
      modifies this`rows
      ensures (State(), ok) == Finish(old(State()), key, owner, completed, done, now)
      ensures ok <==> key in old(rows) && old(rows)[key].owner == Some(owner)
      ensures !ok ==> rows == old(rows)
      ensures rows - {key} == old(rows) - {key}
      ensures ok ==> key in rows && rows[key] == old(rows)[key].(done := completed, leaseUntil := Some(now),
        phase := Some(if done then Completed else Pending))
      ensures ok && done ==> rows[key].IsCompleted() && forall a: Ask :: a.key == key ==> !Claimable(State(), a, limit)
      ensures ok && !done ==> forall a: Ask ::
        a.key == key && a.agent == rows[key].agent && Some(a.content) == rows[key].content && now <= a.now ==>
          Claimable(State(), a, limit)
    {
      if key !in rows || rows[key].owner != Some(owner) {
        return false;
      }
      rows := rows[key := rows[key].(done := completed, leaseUntil := Some(now),
                                     phase := Some(if done then Completed else Pending))];
      ok := true;
    }
  }
}
