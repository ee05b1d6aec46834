/**
 The relay's identity documents: which app devices an Agent has, which device
 owns a push token, and which activations and enrollment tickets are used up.
 Each transaction reads its documents, then writes all of its changes or none.
 Token digests stand for the tokens themselves, and random ids are fresh.
 */
module Identity {
  import opened Options

  datatype Path = Path(agent: string, device: string)

  /** `token` is "" until a push token was registered; `secret` is the hash of the app's credential. */
  datatype Device = Device(token: string, secret: string, activation: Option<string>)

  datatype Agent = Agent(publicKey: string, account: string, revoked: bool, site: string)

  datatype Activation = Activation(
    secret: string, publicKey: string, account: string, ticket: string,
    expiresAt: Option<int>, ticketExpiresAt: Option<int>, claimed: bool)

  datatype Mode = Open | Ticket | Closed

  datatype Limits = Limits(devices: nat, agents: nat, mode: Mode)

  datatype Docs = Docs(
    devices: map<Path, Device>, owners: map<string, Path>, agents: map<string, Agent>,
    activations: map<string, Activation>, tickets: set<string>)
  {
    function DevicesOf(agent: string): set<Path> { set p | p in devices && p.agent == agent }
    function AgentsWith(key: string): set<string> { set a | a in agents && agents[a].publicKey == key }
    function AgentsOf(account: string): set<string> { set a | a in agents && agents[a].account == account }
  }

  /** Writes a device's registration, creating the device if the Agent has room for it. */
  function Register(d: Docs, limits: Limits, p: Path, token: string): (Docs, bool) {
    if p !in d.devices && |d.DevicesOf(p.agent)| >= limits.devices then (d, false)
    else
      var device := Get(d.devices, p).GetOr(Device("", "", None));
      (d.(devices := d.devices[p := device.(token := token)]), true)
  }

  /** An app's own registration writes its settings first, and no token. */
  function SelfWrite(d: Docs, p: Path): Docs {
    if p in d.devices then d else d.(devices := d.devices[p := Device("", "", None)])
  }

  /**
   Gives a token one owner: the device that owned it is deleted, the pointer of the
   token this device held is withdrawn, and both sides of the new ownership are written.
   */
  function Assign(d: Docs, p: Path, token: string): (Docs, bool) {
    if p !in d.devices then (d, false)
    else
      var old' := d.devices[p].token;
      var previous := Get(d.owners, token);
      var devices := if previous.Some? && previous.value != p then d.devices - {previous.value} else d.devices;
      var withdrawn := old' != "" && old' != token && Get(d.owners, old') == Some(p);
      var owners := if withdrawn then d.owners - {old'} else d.owners;
      (d.(devices := devices[p := d.devices[p].(token := token)], owners := owners[token := p]), true)
  }

  /** Deletes a device and the pointer of its token, if that points to it. */
  function Delete(d: Docs, p: Path, expected: string): (Docs, bool) {
    if p !in d.devices then (d, true)
    else if expected != "" && d.devices[p].secret != expected then (d, false)
    else
      var token := d.devices[p].token;
      (d.(devices := d.devices - {p},
          owners := if token != "" && Get(d.owners, token) == Some(p) then d.owners - {token} else d.owners), true)
  }

  /** A claim of an activation with the ids drawn for it. */
  datatype Claim = Claim(activation: string, secret: string, agent: string, site: string, device: string,
                         deviceSecret: string, now: int)

  datatype ClaimResult = ClaimRefused(status: int) | ClaimGranted(path: Path, reused: bool)

  predicate Claimable(a: Activation, c: Claim) {
    a.secret == c.secret && !a.claimed && a.expiresAt.Some? && a.expiresAt.value >= c.now
  }

  /** The Agent an activation belongs to: the one with its public key, or a new one. */
  ghost function ClaimAgent(d: Docs, c: Claim, a: Activation): (id: string)
    ensures d.AgentsWith(a.publicKey) == {} ==> id == c.agent
    ensures d.AgentsWith(a.publicKey) != {} ==> id in d.AgentsWith(a.publicKey)
  {
    if d.AgentsWith(a.publicKey) == {} then c.agent else var id :| id in d.AgentsWith(a.publicKey); id
  }

  /** Why a claim is refused, in the order of the checks; 0 when it is not. */
  ghost function ClaimStatus(d: Docs, limits: Limits, c: Claim): int {
    if c.activation !in d.activations || !Claimable(d.activations[c.activation], c) then 401
    else
      var a := d.activations[c.activation];
      var reused := d.AgentsWith(a.publicKey) != {};
      var agent := ClaimAgent(d, c, a);
      if reused && d.agents[agent].revoked then 403
      else if reused && d.agents[agent].site == "" then 500
      else if !reused && a.account != "" && |d.AgentsOf(a.account)| >= limits.agents then 409
      else if |d.DevicesOf(agent)| >= limits.devices then 409
      else if limits.mode.Ticket? &&
           (a.ticket == "" || a.ticketExpiresAt.None? || a.ticketExpiresAt.value < c.now) then 401
      else if limits.mode.Ticket? && a.ticket in d.tickets then 401
      else if !reused && agent in d.agents then 401
      else if Path(agent, c.device) in d.devices then 401
      else 0
  }

  ghost function Claimed(d: Docs, limits: Limits, c: Claim): (Docs, ClaimResult) {
    if ClaimStatus(d, limits, c) != 0 then (d, ClaimRefused(ClaimStatus(d, limits, c)))
    else
      var a := d.activations[c.activation];
      var reused := d.AgentsWith(a.publicKey) != {};
      var agent := ClaimAgent(d, c, a);
      var p := Path(agent, c.device);
      (d.(agents := if reused then d.agents else d.agents[agent := Agent(a.publicKey, a.account, false, c.site)],
          tickets := if limits.mode.Ticket? then d.tickets + {a.ticket} else d.tickets,
          devices := d.devices[p := Device("", c.deviceSecret, Some(c.activation))],
          activations := d.activations[c.activation := a.(claimed := true)]),
       ClaimGranted(p, reused))
  }

  /** The secret fits, nobody has used the activation, and it has not expired. */
  predicate Usable(d: Docs, c: Claim) {
    && c.activation in d.activations
    && var a := d.activations[c.activation];
       a.secret == c.secret && !a.claimed && a.expiresAt.Some? && a.expiresAt.value >= c.now
  }

  /** The account has its number of Agents, for a new one, or the Agent its number of apps. */
  predicate NoRoom(d: Docs, limits: Limits, c: Claim, found: Option<string>)
    requires c.activation in d.activations
  {
    var a := d.activations[c.activation];
    || (found.None? && a.account != "" && |set x | x in d.agents && d.agents[x].account == a.account| >= limits.agents)
    || |set q | q in d.devices && q.agent == found.GetOr(c.agent)| >= limits.devices
  }

  /** In ticket mode the ticket is missing, over or used; or an id that was drawn is taken. */
  predicate NoEntry(d: Docs, limits: Limits, c: Claim, found: Option<string>)
    requires c.activation in d.activations
  {
    var a := d.activations[c.activation];
    || (limits.mode == Ticket && (a.ticket == "" || a.ticketExpiresAt.None? || a.ticketExpiresAt.value < c.now))
    || (limits.mode == Ticket && a.ticket in d.tickets)
    || (found.None? && c.agent in d.agents)
    || Path(found.GetOr(c.agent), c.device) in d.devices
  }

  /** Which answer a claim gets, from the documents as they are; `found` is the Agent with the public key, if any. */
  predicate AnswersClaim(d: Docs, limits: Limits, c: Claim, found: Option<string>, r: ClaimResult) {
    if !Usable(d, c) then r == ClaimRefused(401)
    else if found.Some? && found.value in d.agents && d.agents[found.value].revoked then r == ClaimRefused(403)
    else if found.Some? && found.value in d.agents && d.agents[found.value].site == "" then r == ClaimRefused(500)
    else if NoRoom(d, limits, c, found) then r == ClaimRefused(409)
    else if NoEntry(d, limits, c, found) then r == ClaimRefused(401)
    else r == ClaimGranted(Path(found.GetOr(c.agent), c.device), found.Some?)
  }

  // ---------------------------------------------------------------- the transactions

  class Directory {
    const limits: Limits
    var devices: map<Path, Device>
    var owners: map<string, Path>
    var agents: map<string, Agent>
    var activations: map<string, Activation>
    var tickets: set<string>

    function State(): Docs
      reads this
    {
      Docs(devices, owners, agents, activations, tickets)
    }

    constructor (limits: Limits)
      ensures this.limits == limits && State() == Docs(map[], map[], map[], map[], {})
    {
      this.limits := limits;
      devices, owners, agents, activations, tickets := map[], map[], map[], map[], {};
    }

    /** The device gets the token and keeps its credential; no other device changes, and none is added past the cap. */
    method RegisterAgentDevice(p: Path, token: string) returns (ok: bool)
      modifies this`devices
      ensures (State(), ok) == Register(old(State()), limits, p, token)
      ensures ok <==> p in old(devices) || |set q | q in old(devices) && q.agent == p.agent| < limits.devices
      ensures ok && p !in old(devices) ==> devices[p] == Device(token, "", None)
      ensures if ok then p in devices && devices[p].token == token else devices == old(devices)
      ensures devices - {p} == old(devices) - {p}
      ensures p in old(devices) ==>
        devices[p].secret == old(devices)[p].secret && devices[p].activation == old(devices)[p].activation
      ensures |State().DevicesOf(p.agent)| > |old(State()).DevicesOf(p.agent)| ==>
        |State().DevicesOf(p.agent)| <= limits.devices
    {
      if p !in devices && |State().DevicesOf(p.agent)| >= limits.devices {
        return false;
      }
      ghost var before := State().DevicesOf(p.agent);
      var device := Get(devices, p).GetOr(Device("", "", None));
      devices := devices[p := device.(token := token)];
      assert State().DevicesOf(p.agent) == before + {p};
      ok := true;
    }

    /** An app's own settings leave its token and its credential, and make a document where none is. */
    method WriteOwnSettings(p: Path)
      modifies this`devices
      ensures State() == SelfWrite(old(State()), p)
      ensures devices - {p} == old(devices) - {p} && p in devices
      ensures devices[p] == if p in old(devices) then old(devices)[p] else Device("", "", None)
    {
      if p !in devices {
        devices := devices[p := Device("", "", None)];
      }
    }

    /**
     Both sides of the new ownership agree; the pointer of the device's former token is withdrawn if
     it was the device's own; at most one other device goes, the token's former owner; nothing else changes.
     */
    method AssignDeviceToken(p: Path, token: string) returns (ok: bool)
      modifies this`devices, this`owners
      ensures (State(), ok) == Assign(old(State()), p, token)
      ensures ok <==> p in old(devices)
      ensures !ok ==> devices == old(devices) && owners == old(owners)
      ensures ok ==> p in devices && devices[p] == old(devices)[p].(token := token) && Get(owners, token) == Some(p)
      ensures ok ==> var o := old(devices)[p].token; o != "" && o != token ==> Get(owners, o) != Some(p)
      ensures ok ==> forall q :: q in old(devices) ==>
        (q !in devices <==> q != p && token in old(owners) && old(owners)[token] == q)
      ensures ok ==> forall q :: q in devices && q != p ==> q in old(devices) && devices[q] == old(devices)[q]
      ensures ok ==> forall t :: t != token && (t != old(devices)[p].token || Get(old(owners), t) != Some(p)) ==>
        Get(owners, t) == Get(old(owners), t)
    {
      if p !in devices {
        return false;
      }
      var device := devices[p];
      var previousOwner := Get(owners, token);
      if previousOwner.Some? && previousOwner.value != p {
        devices := devices - {previousOwner.value};
      }
      if device.token != "" && device.token != token && Get(owners, device.token) == Some(p) {
        owners := owners - {device.token};
      }
      devices := devices[p := device.(token := token)];
      owners := owners[token := p];
      ok := true;
    }

    /** Only this device goes, and only a pointer of its own token to it; a wrong credential changes nothing. */
    method DeleteDeviceRegistration(p: Path, expected: string) returns (ok: bool)
      modifies this`devices, this`owners
      ensures (State(), ok) == Delete(old(State()), p, expected)
      ensures !ok <==> p in old(devices) && expected != "" && old(devices)[p].secret != expected
      ensures devices == if ok then old(devices) - {p} else old(devices)
      ensures ok && p in old(devices) && old(devices)[p].token != "" ==> Get(owners, old(devices)[p].token) != Some(p)
      ensures forall t :: Get(owners, t) != Get(old(owners), t) ==>
        ok && Get(old(owners), t) == Some(p) && p in old(devices) && old(devices)[p].token == t
    {
      if p !in devices {
        return true;
      }
      var device := devices[p];
      if expected != "" && device.secret != expected {
        return false;
      }
      devices := devices - {p};
      if device.token != "" && Get(owners, device.token) == Some(p) {
        owners := owners - {device.token};
      }
      ok := true;
    }

    /** `found` is the answer of the query for the Agent with the activation's public key. */
    method ClaimActivation(c: Claim, found: Option<string>) returns (result: ClaimResult)
      requires c.activation in activations ==>
        var a := activations[c.activation];
        found == if State().AgentsWith(a.publicKey) == {} then None else Some(ClaimAgent(State(), c, a))
      modifies this`agents, this`tickets, this`devices, this`activations
      ensures (State(), result) == Claimed(old(State()), limits, c)
      ensures AnswersClaim(old(State()), limits, c, found, result)
      ensures result.ClaimRefused? ==> State() == old(State())
      ensures result.ClaimGranted? ==> var a := old(activations)[c.activation];
        && result.path == Path(found.GetOr(c.agent), c.device)
        && devices == old(devices)[result.path := Device("", c.deviceSecret, Some(c.activation))]
        && activations == old(activations)[c.activation := a.(claimed := true)]
        && agents == (if found.Some? then old(agents)
                      else old(agents)[c.agent := Agent(a.publicKey, a.account, false, c.site)])
        && tickets == if limits.mode == Ticket then old(tickets) + {a.ticket} else old(tickets)
    {
      if c.activation !in activations {
        return ClaimRefused(401);
      }
      var a := activations[c.activation];
      if a.secret != c.secret || a.claimed || a.expiresAt.None? || a.expiresAt.value < c.now {
        return ClaimRefused(401);
      }
      var agent := c.agent;
      if found.Some? {
        agent := found.value;
        if agents[agent].revoked {
          return ClaimRefused(403);
        }
        if agents[agent].site == "" {
          return ClaimRefused(500);
        }
      } else if a.account != "" && |State().AgentsOf(a.account)| >= limits.agents {
        return ClaimRefused(409);
      }
      if |State().DevicesOf(agent)| >= limits.devices {
        return ClaimRefused(409);
      }
      if limits.mode.Ticket? {
        if a.ticket == "" || a.ticketExpiresAt.None? || a.ticketExpiresAt.value < c.now {
          return ClaimRefused(401);
        }
        if a.ticket in tickets {
          return ClaimRefused(401);
        }
      }
      var p := Path(agent, c.device);
      if (found.None? && agent in agents) || p in devices {
        return ClaimRefused(401);
      }
      if found.None? {
        agents := agents[agent := Agent(a.publicKey, a.account, false, c.site)];
      }
      if limits.mode.Ticket? {
        tickets := tickets + {a.ticket};
      }
      devices := devices[p := Device("", c.deviceSecret, Some(c.activation))];
      activations := activations[c.activation := a.(claimed := true)];
      result := ClaimGranted(p, found.Some?);
    }
  }
}
