/**
 What the identity transactions guarantee in every interleaving: a push token
 has one owner, and activations, public keys, enrollment tickets and device
 caps are each respected.
 */
module IdentitySafety {
  import opened Options
  import opened Identity

  /** A registration that has written its device but has not yet been given its token. */
  datatype Registration = Registration(path: Path, token: string)

  /**
   `authed` are apps that have proved themselves and are about to write their own device. The last
   three fields are history: the device each activation created, the claim each ticket paid for, and
   the devices to which an Agent wrote a token that pointed elsewhere, and that were not put right since.
   */
  datatype World = World(
    docs: Docs, open: map<nat, Registration>, authed: map<nat, Path>, used: set<nat>,
    created: map<string, Path>, paid: map<string, string>, astray: set<Path>)

  datatype Step =
    | BeginRegister(id: nat, path: Path, token: string)    // an Agent registers an app
    | Authenticate(id: nat, path: Path)                    // an app proves to be this device
    | BeginOwn(id: nat, token: string)                     // and writes its own registration
    | Finish(id: nat)                                      // the token is assigned
    | Abandon(id: nat)                                     // the process dies first
    | Remove(path: Path, expected: string)
    | Enroll(claim: Claim)

  ghost function Next(limits: Limits, w: World, s: Step): World {
    match s
    case BeginRegister(id, p, token) =>
      var (docs, ok) := Register(w.docs, limits, p, token);
      if id in w.used || token == "" || !ok then w
      else w.(docs := docs, open := w.open[id := Registration(p, token)], used := w.used + {id},
              astray := if Get(w.docs.owners, token) == Some(p) then w.astray - {p} else w.astray + {p})
    case Authenticate(id, p) =>
      if id in w.used || p !in w.docs.devices then w
      else w.(authed := w.authed[id := p], used := w.used + {id})
    case BeginOwn(id, token) =>
      if id !in w.authed || token == "" then w
      else w.(docs := SelfWrite(w.docs, w.authed[id]), open := w.open[id := Registration(w.authed[id], token)],
              authed := w.authed - {id})
    case Finish(id) => if id !in w.open then w else Finished(w, id)
    case Abandon(id) => w.(open := w.open - {id}, authed := w.authed - {id})
    case Remove(p, expected) => w.(docs := Delete(w.docs, p, expected).0)
    case Enroll(c) =>
      var (docs, result) := Claimed(w.docs, limits, c);
      if result.ClaimRefused? then w
      else w.(docs := docs, created := w.created[c.activation := result.path],
              paid := if limits.mode.Ticket?
                      then w.paid[w.docs.activations[c.activation].ticket := c.activation]
                      else w.paid)
  }

  function Finished(w: World, id: nat): World
    requires id in w.open
  {
    var (docs, ok) := Assign(w.docs, w.open[id].path, w.open[id].token);
    w.(docs := docs, open := w.open - {id}, astray := if ok then w.astray - {w.open[id].path} else w.astray)
  }

  ghost function Run(limits: Limits, w: World, steps: seq<Step>): World
    decreases |steps|
  {
    if steps == [] then w else Run(limits, Next(limits, w, steps[0]), steps[1..])
  }

  /** Unclaimed activations may exist; nothing else does. */
  ghost predicate Initial(w: World) {
    && w.docs.devices == map[] && w.docs.owners == map[] && w.docs.agents == map[] && w.docs.tickets == {}
    && (forall a :: a in w.docs.activations ==> !w.docs.activations[a].claimed)
    && w.open == map[] && w.authed == map[] && w.used == {} && w.created == map[] && w.paid == map[]
    && w.astray == {}
  }

  // ---------------------------------------------------------------- tokens

  ghost predicate HasToken(d: Docs, p: Path) { p in d.devices && d.devices[p].token != "" }

  /** The token of the device points to it. */
  ghost predicate OwnsToken(d: Docs, p: Path)
    requires p in d.devices
  {
    Get(d.owners, d.devices[p].token) == Some(p)
  }

  /** The devices that do not own their token are exactly those that went astray. */
  ghost predicate OwnerInv(w: World) {
    && (forall id :: id in w.open ==> w.open[id].token != "")
    && forall p :: HasToken(w.docs, p) ==> (OwnsToken(w.docs, p) <==> p !in w.astray)
  }

  lemma FinishOwners(w: World, id: nat)
    requires OwnerInv(w) && id in w.open
    ensures OwnerInv(Finished(w, id))
  {
    var reg := w.open[id];
    if reg.path in w.docs.devices {
      forall p | HasToken(Finished(w, id).docs, p)
        ensures OwnsToken(Finished(w, id).docs, p) <==> p !in Finished(w, id).astray
      {
        assert p != reg.path ==> HasToken(w.docs, p);
      }
    }
  }

  lemma NextOwners(limits: Limits, w: World, s: Step)
    requires OwnerInv(w)
    ensures OwnerInv(Next(limits, w, s))
  {
    match s {
      case BeginRegister(_, _, _) => hide Claimed, Assign, Delete;
      case Authenticate(_, _) => hide Claimed, Assign, Delete, Register;
      case BeginOwn(_, _) => hide Claimed, Assign, Delete, Register;
      case Finish(id) =>
        hide Claimed, Assign, Delete, Register, Finished;
        if id in w.open { FinishOwners(w, id); }
      case Abandon(_) => hide Claimed, Assign, Delete, Register;
      case Remove(_, _) => hide Claimed, Assign, Register;
      case Enroll(_) => hide Assign, Delete, Register, ClaimStatus, ClaimAgent;
    }
  }

  lemma {:induction false} RunOwners(limits: Limits, w: World, steps: seq<Step>)
    requires OwnerInv(w)
    ensures OwnerInv(Run(limits, w, steps))
    decreases |steps|
  {
    if steps != [] {
      NextOwners(limits, w, steps[0]);
      RunOwners(limits, Next(limits, w, steps[0]), steps[1..]);
    }
  }

  // ---------------------------------------------------------------- which devices go astray

  /** The step is a registration of the device by an Agent, and takes effect. */
  ghost predicate Writes(limits: Limits, w: World, s: Step, p: Path) {
    s.BeginRegister? && s.path == p && s.id !in w.used && s.token != "" && Register(w.docs, limits, p, s.token).1
  }

  /** It writes a token that points elsewhere, or nowhere yet. */
  ghost predicate Strays(limits: Limits, w: World, s: Step, p: Path) {
    Writes(limits, w, s, p) && Get(w.docs.owners, s.token) != Some(p)
  }

  /** It writes a token that points to the device already, or assigns one to it. */
  ghost predicate PutsRight(limits: Limits, w: World, s: Step, p: Path) {
    || (Writes(limits, w, s, p) && Get(w.docs.owners, s.token) == Some(p))
    || (s.Finish? && s.id in w.open && w.open[s.id].path == p && p in w.docs.devices)
  }

  lemma NextAstray(limits: Limits, w: World, s: Step, p: Path)
    ensures p in Next(limits, w, s).astray <==>
      Strays(limits, w, s, p) || (p in w.astray && !PutsRight(limits, w, s, p))
  {
    hide Claimed, Delete, SelfWrite;
  }

  ghost predicate NotPutRight(limits: Limits, w: World, steps: seq<Step>, from: nat, p: Path) {
    forall j: nat :: from <= j < |steps| ==> !PutsRight(limits, Run(limits, w, steps[..j]), steps[j], p)
  }

  /** Step `i` wrote a token that pointed elsewhere to the device, and nothing put it right since. */
  ghost predicate StrayedAt(limits: Limits, w: World, steps: seq<Step>, i: nat, p: Path) {
    i < |steps| && Strays(limits, Run(limits, w, steps[..i]), steps[i], p) && NotPutRight(limits, w, steps, i + 1, p)
  }

  lemma {:induction false} RunLast(limits: Limits, w: World, steps: seq<Step>)
    requires steps != []
    ensures Run(limits, w, steps) == Next(limits, Run(limits, w, steps[..|steps| - 1]), steps[|steps| - 1])
    decreases |steps|
  {
    var n := |steps| - 1;
    hide Next;
    if n == 0 {
      assert Run(limits, w, steps) == Run(limits, Next(limits, w, steps[0]), []);
    } else {
      assert steps[..n][0] == steps[0] && steps[..n][1..] == steps[1..][..n - 1];
      RunLast(limits, Next(limits, w, steps[0]), steps[1..]);
    }
  }

  lemma StraysBefore(limits: Limits, w: World, steps: seq<Step>, i: nat, p: Path)
    requires i < |steps| - 1
    ensures var n := |steps| - 1;
      StrayedAt(limits, w, steps, i, p) <==>
        StrayedAt(limits, w, steps[..n], i, p) && !PutsRight(limits, Run(limits, w, steps[..n]), steps[n], p)
  {
    var n := |steps| - 1;
    var init := steps[..n];
    hide Strays, PutsRight, Next, Run;
    forall j: nat | j < n ensures init[..j] == steps[..j] && init[j] == steps[j] {
    }
    if NotPutRight(limits, w, steps, i + 1, p) {
      forall j: nat | i + 1 <= j < n ensures !PutsRight(limits, Run(limits, w, init[..j]), init[j], p) {
        assert !PutsRight(limits, Run(limits, w, steps[..j]), steps[j], p);
      }
    }
    if NotPutRight(limits, w, init, i + 1, p) && !PutsRight(limits, Run(limits, w, init), steps[n], p) {
      forall j: nat | i + 1 <= j < |steps| ensures !PutsRight(limits, Run(limits, w, steps[..j]), steps[j], p) {
        if j < n { assert !PutsRight(limits, Run(limits, w, init[..j]), init[j], p); }
      }
    }
  }

  /** What history calls astray is read off the run: some write went astray, and nothing has put it right. */
  lemma {:induction false} AstrayIsLastWrite(limits: Limits, w: World, steps: seq<Step>, p: Path)
    requires p !in w.astray
    ensures p in Run(limits, w, steps).astray <==> exists i: nat :: StrayedAt(limits, w, steps, i, p)
    decreases |steps|
  {
    if steps != [] {
      var n := |steps| - 1;
      AstrayIsLastWrite(limits, w, steps[..n], p);
      RunLast(limits, w, steps);
      NextAstray(limits, Run(limits, w, steps[..n]), steps[n], p);
      assert StrayedAt(limits, w, steps, n, p) <==> Strays(limits, Run(limits, w, steps[..n]), steps[n], p);
      hide Strays, PutsRight, Next, StrayedAt, Run;
      forall i: nat | i < n
        ensures StrayedAt(limits, w, steps, i, p) <==>
          StrayedAt(limits, w, steps[..n], i, p) && !PutsRight(limits, Run(limits, w, steps[..n]), steps[n], p)
      {
        StraysBefore(limits, w, steps, i, p);
      }
      WithinSteps(limits, w, steps, p);
      WithinSteps(limits, w, steps[..n], p);
    }
  }

  lemma WithinSteps(limits: Limits, w: World, steps: seq<Step>, p: Path)
    ensures forall i: nat :: StrayedAt(limits, w, steps, i, p) ==> i < |steps|
  {
  }

  /**
   In every interleaving, with registrations that die between their two writes, a device with a token
   is the one its token points to, unless an Agent wrote it a token that at that moment pointed
   elsewhere, and since then no assignment to the device and no further write has put that right.
   */
  lemma OneOwnerPerToken(limits: Limits, start: World, steps: seq<Step>, p: Path)
    requires Initial(start) && HasToken(Run(limits, start, steps).docs, p)
    ensures OwnsToken(Run(limits, start, steps).docs, p) <==> !exists i: nat :: StrayedAt(limits, start, steps, i, p)
  {
    RunOwners(limits, start, steps);
    AstrayIsLastWrite(limits, start, steps, p);
    hide Run, StrayedAt;
  }

  /** So if two devices hold one token, one of them holds it by such a write. */
  lemma SharedTokenStrayed(limits: Limits, start: World, steps: seq<Step>, p: Path, q: Path)
    requires Initial(start) && p != q && Shares(Run(limits, start, steps).docs, p, q)
    ensures exists i: nat :: StrayedAt(limits, start, steps, i, p) || StrayedAt(limits, start, steps, i, q)
  {
    hide Run, StrayedAt, Initial;
    OneOwnerPerToken(limits, start, steps, p);
    OneOwnerPerToken(limits, start, steps, q);
  }

  ghost predicate Shares(d: Docs, p: Path, q: Path) {
    HasToken(d, p) && HasToken(d, q) && d.devices[q].token == d.devices[p].token
  }

  /** A registration by an Agent that dies before its assignment. */
  ghost function Torn(limits: Limits, w: World, id: nat, p: Path, t: string): World {
    Next(limits, Next(limits, w, BeginRegister(id, p, t)), Abandon(id))
  }

  /** Another device holds the token: the one it points to, or one that went astray with it before. */
  ghost predicate HeldElsewhere(w: World, p: Path, t: string) {
    || (exists q :: Get(w.docs.owners, t) == Some(q) && q != p && q in w.docs.devices && w.docs.devices[q].token == t)
    || (exists q :: q in w.astray && q != p && q in w.docs.devices && w.docs.devices[q].token == t)
  }

  /**
   A registration that dies between its writes leaves its device on one token with another live device,
   and nothing in flight for it, exactly if the token was held elsewhere when it began.
   */
  lemma TornRegistrationSharesIff(limits: Limits, start: World, steps: seq<Step>, id: nat, p: Path, t: string)
    requires Initial(start) && Writes(limits, Run(limits, start, steps), BeginRegister(id, p, t), p)
    ensures var w := Run(limits, start, steps); var torn := Torn(limits, w, id, p, t);
      && HasToken(torn.docs, p) && torn.docs.devices[p].token == t && id !in torn.open
      && ((exists q :: q != p && Shares(torn.docs, p, q)) <==> HeldElsewhere(w, p, t))
      && (OwnsToken(torn.docs, p) <==> Get(w.docs.owners, t) == Some(p))
  {
    RunOwners(limits, start, steps);
    var w := Run(limits, start, steps);
    hide Run, Initial;
    HeldIff(limits, w, id, p, t);
  }

  lemma HeldIff(limits: Limits, w: World, id: nat, p: Path, t: string)
    requires OwnerInv(w) && Writes(limits, w, BeginRegister(id, p, t), p)
    ensures var torn := Torn(limits, w, id, p, t);
      && HasToken(torn.docs, p) && torn.docs.devices[p].token == t && id !in torn.open
      && ((exists q :: q != p && Shares(torn.docs, p, q)) <==> HeldElsewhere(w, p, t))
      && torn.docs.owners == w.docs.owners
  {
    var torn := Torn(limits, w, id, p, t);
    assert forall q :: q != p ==> (Shares(torn.docs, p, q) <==> q in w.docs.devices && w.docs.devices[q].token == t);
    hide Torn, Register, Next;
    if HeldElsewhere(w, p, t) {
      var q :| q != p && q in w.docs.devices && w.docs.devices[q].token == t;
      assert Shares(torn.docs, p, q);
    }
    if q :| q != p && Shares(torn.docs, p, q) {
      assert HasToken(w.docs, q) && (OwnsToken(w.docs, q) <==> q !in w.astray);
    }
  }

  /** A complete registration puts its device right, whatever was torn before. */
  lemma FinishConfirms(limits: Limits, w: World, id: nat)
    requires id in w.open && w.open[id].path in w.docs.devices
    ensures var w' := Next(limits, w, Finish(id)); var reg := w.open[id];
      && reg.path in w'.docs.devices && w'.docs.devices[reg.path].token == reg.token && OwnsToken(w'.docs, reg.path)
      && w'.astray == w.astray - {reg.path}
  {
  }

  /** The input: an Agent registers a device with the token of another, and the process dies. */
  lemma TornRegistrationSharesToken(limits: Limits, w: World, id: nat, p: Path, q: Path)
    requires HasToken(w.docs, q) && OwnsToken(w.docs, q) && p in w.docs.devices && p != q && id !in w.used
    ensures var torn := Torn(limits, w, id, p, w.docs.devices[q].token);
      Shares(torn.docs, p, q) && OwnsToken(torn.docs, q) && id !in torn.open && p in torn.astray
  {
  }

  // ---------------------------------------------------------------- if no process dies

  /** Some registration of the device is between its two writes. */
  ghost predicate InFlight(w: World, p: Path) { exists id :: id in w.open && w.open[id].path == p }

  /** Whatever is astray is being registered. */
  ghost predicate AwaitsAssignment(w: World) {
    && w.open.Keys <= w.used && w.authed.Keys <= w.used && w.open.Keys !! w.authed.Keys
    && forall p :: p in w.astray && HasToken(w.docs, p) ==> InFlight(w, p)
  }

  lemma StaysInFlight(w: World, w': World, p: Path)
    requires InFlight(w, p) && forall id :: id in w.open && w.open[id].path == p ==>
      id in w'.open && w'.open[id].path == p
    ensures InFlight(w', p)
  {
    var id :| id in w.open && w.open[id].path == p;
  }

  lemma RegisterAwaits(limits: Limits, w: World, id: nat, p: Path, t: string)
    requires AwaitsAssignment(w)
    ensures AwaitsAssignment(Next(limits, w, BeginRegister(id, p, t)))
  {
    var w' := Next(limits, w, BeginRegister(id, p, t));
    if Writes(limits, w, BeginRegister(id, p, t), p) {
      assert w'.open == w.open[id := Registration(p, t)];
      assert id in w'.open && InFlight(w', p);
      forall q | q in w'.astray && HasToken(w'.docs, q) && q != p ensures InFlight(w', q) {
        assert HasToken(w.docs, q);
        StaysInFlight(w, w', q);
      }
    }
  }

  lemma FinishAwaits(limits: Limits, w: World, id: nat)
    requires AwaitsAssignment(w)
    ensures AwaitsAssignment(Next(limits, w, Finish(id)))
  {
    var w' := Next(limits, w, Finish(id));
    if id in w.open {
      forall q | q in w'.astray && HasToken(w'.docs, q) ensures InFlight(w', q) {
        assert q != w.open[id].path && HasToken(w.docs, q);
        StaysInFlight(w, w', q);
      }
    }
  }

  lemma OthersAwait(limits: Limits, w: World, s: Step)
    requires AwaitsAssignment(w) && !s.BeginRegister? && !s.Finish? && !s.Abandon?
    ensures AwaitsAssignment(Next(limits, w, s))
  {
    var w' := Next(limits, w, s);
    OthersKeepTokens(limits, w, s);
    hide Next;
    forall q | q in w'.astray && HasToken(w'.docs, q) ensures InFlight(w', q) {
      StaysInFlight(w, w', q);
    }
  }

  lemma OthersKeepTokens(limits: Limits, w: World, s: Step)
    requires !s.BeginRegister? && !s.Finish? && !s.Abandon?
    requires w.authed.Keys <= w.used && w.open.Keys <= w.used && w.open.Keys !! w.authed.Keys
    ensures var w' := Next(limits, w, s);
      && w'.astray == w.astray && (forall q :: HasToken(w'.docs, q) ==> HasToken(w.docs, q))
      && w'.open.Keys <= w'.used && w'.authed.Keys <= w'.used && w'.open.Keys !! w'.authed.Keys
      && forall id :: id in w.open ==> id in w'.open && w'.open[id] == w.open[id]
  {
    hide Assign, Register, ClaimStatus, ClaimAgent;
  }

  lemma NextAwaits(limits: Limits, w: World, s: Step)
    requires AwaitsAssignment(w) && !s.Abandon?
    ensures AwaitsAssignment(Next(limits, w, s))
  {
    hide Next, AwaitsAssignment;
    match s {
      case BeginRegister(id, p, t) => RegisterAwaits(limits, w, id, p, t);
      case Finish(id) => FinishAwaits(limits, w, id);
      case _ => OthersAwait(limits, w, s);
    }
  }

  lemma {:induction false} RunAwaits(limits: Limits, w: World, steps: seq<Step>)
    requires AwaitsAssignment(w) && forall s :: s in steps ==> !s.Abandon?
    ensures AwaitsAssignment(Run(limits, w, steps))
    decreases |steps|
  {
    if steps != [] {
      hide Next, AwaitsAssignment;
      NextAwaits(limits, w, steps[0]);
      RunAwaits(limits, Next(limits, w, steps[0]), steps[1..]);
    }
  }

  /**
   As long as no process dies between its writes, a device with a token and no registration in flight
   is the one its token points to, and shares it with no other such device.
   */
  lemma OneOwnerWithoutDeaths(limits: Limits, start: World, steps: seq<Step>, p: Path, q: Path)
    requires Initial(start) && forall s :: s in steps ==> !s.Abandon?
    requires var w := Run(limits, start, steps); HasToken(w.docs, p) && !InFlight(w, p)
    ensures var w := Run(limits, start, steps);
      OwnsToken(w.docs, p) && (Shares(w.docs, p, q) && !InFlight(w, q) ==> q == p)
  {
    RunOwners(limits, start, steps);
    RunAwaits(limits, start, steps);
    hide Run, InFlight;
  }

  // ---------------------------------------------------------------- a device that changed its token

  ghost function Registered(limits: Limits, w: World, begin: Step, id: nat): World {
    Next(limits, Next(limits, w, begin), Finish(id))
  }

  /** Device `p` owns token `o`, and nobody's registration stands in the way of it taking token `t` as `id`. */
  ghost predicate MayMove(w: World, p: Path, o: string, t: string, id: nat) {
    && p in w.docs.devices && w.docs.devices[p].token == o && Get(w.docs.owners, o) == Some(p)
    && o != "" && t != "" && o != t && id !in w.used && id !in w.open && id !in w.authed
  }

  /**
   An app that registers itself under a new token withdraws the old one; an Agent
   that registers it leaves the old token pointing at it.
   */
  lemma OldTokenAfterMove(limits: Limits, w: World, p: Path, o: string, t: string, id: nat)
    requires MayMove(w, p, o, t, id)
    ensures var own := Registered(limits, Next(limits, w, Authenticate(id, p)), BeginOwn(id, t), id);
      p in own.docs.devices && own.docs.devices[p].token == t && Get(own.docs.owners, o) == None
    ensures var agent := Registered(limits, w, BeginRegister(id, p, t), id);
      p in agent.docs.devices && agent.docs.devices[p].token == t && Get(agent.docs.owners, o) == Some(p)
  {
  }

  /**
   Assigning a token deletes another device exactly when the token still points to
   it, whatever token that device holds by now.
   */
  lemma AssignmentDeletesIff(limits: Limits, w: World, id: nat, p: Path)
    requires id in w.open && w.open[id].path in w.docs.devices && p in w.docs.devices && p != w.open[id].path
    ensures p !in Next(limits, w, Finish(id)).docs.devices <==> Get(w.docs.owners, w.open[id].token) == Some(p)
  {
  }

  // ---------------------------------------------------------------- claims

  ghost predicate SameKey(d: Docs, x: string, y: string)
    requires x in d.agents && y in d.agents
  {
    d.agents[x].publicKey == d.agents[y].publicKey
  }

  /** Both devices were created by one activation. */
  ghost predicate SameActivation(d: Docs, p: Path, d': Docs, q: Path) {
    && p in d.devices && q in d'.devices
    && d.devices[p].activation.Some? && d'.devices[q].activation == d.devices[p].activation
  }

  /** A public key has one Agent. */
  ghost predicate KeysInv(w: World) {
    forall x, y :: x in w.docs.agents && y in w.docs.agents && SameKey(w.docs, x, y) ==> x == y
  }

  /** An activation is claimed exactly when it created its one device. */
  ghost predicate CreatedInv(w: World) {
    && w.created.Keys <= w.docs.activations.Keys
    && (forall a :: a in w.docs.activations ==> (w.docs.activations[a].claimed <==> a in w.created))
    && (forall p :: p in w.docs.devices && w.docs.devices[p].activation.Some? ==>
          Get(w.created, w.docs.devices[p].activation.value) == Some(p))
  }

  /** A ticket is used up exactly when a claim that named it was granted. */
  ghost predicate TicketsInv(w: World) {
    && w.docs.tickets == w.paid.Keys
    && (forall t :: t in w.paid ==> w.paid[t] in w.docs.activations && w.docs.activations[w.paid[t]].ticket == t)
  }

  ghost predicate ClaimInv(w: World) { KeysInv(w) && CreatedInv(w) && TicketsInv(w) }

  /** What a step of claims may change: nothing used up is ever used again. */
  ghost predicate UsedUp(w: World, w': World) {
    && (forall a :: a in w.created ==> a in w'.created && w'.created[a] == w.created[a])
    && (forall t :: t in w.paid ==> t in w'.paid && w'.paid[t] == w.paid[t])
  }

  lemma EnrollShape(limits: Limits, w: World, c: Claim)
    requires ClaimStatus(w.docs, limits, c) == 0
    ensures c.activation in w.docs.activations && !w.docs.activations[c.activation].claimed
    ensures var w' := Next(limits, w, Enroll(c)); var a := w.docs.activations[c.activation];
      var agent := ClaimAgent(w.docs, c, a);
      && w'.docs.activations == w.docs.activations[c.activation := a.(claimed := true)]
      && w'.docs.devices == w.docs.devices[Path(agent, c.device) := Device("", c.deviceSecret, Some(c.activation))]
      && w'.created == w.created[c.activation := Path(agent, c.device)]
      && (if limits.mode.Ticket? then
            && a.ticket !in w.docs.tickets && w'.docs.tickets == w.docs.tickets + {a.ticket}
            && w'.paid == w.paid[a.ticket := c.activation]
          else w'.docs.tickets == w.docs.tickets && w'.paid == w.paid)
      && (w'.docs.agents == w.docs.agents ||
          (w.docs.AgentsWith(a.publicKey) == {} && agent !in w.docs.agents &&
           w'.docs.agents == w.docs.agents[agent := Agent(a.publicKey, a.account, false, c.site)]))
  {
  }

  lemma EnrollKeys(limits: Limits, w: World, c: Claim)
    requires KeysInv(w) && ClaimStatus(w.docs, limits, c) == 0
    ensures KeysInv(Next(limits, w, Enroll(c)))
  {
    EnrollShape(limits, w, c);
    hide ClaimStatus, Claimed, Next, ClaimAgent;
    var a := w.docs.activations[c.activation];
    assert forall x :: x in w.docs.agents && w.docs.agents[x].publicKey == a.publicKey ==>
        x in w.docs.AgentsWith(a.publicKey);
  }

  lemma EnrollCreated(limits: Limits, w: World, c: Claim)
    requires CreatedInv(w) && ClaimStatus(w.docs, limits, c) == 0
    ensures CreatedInv(Next(limits, w, Enroll(c)))
  {
    EnrollShape(limits, w, c);
    hide ClaimStatus, Claimed, Next, ClaimAgent;
  }

  lemma EnrollTickets(limits: Limits, w: World, c: Claim)
    requires TicketsInv(w) && ClaimStatus(w.docs, limits, c) == 0
    ensures TicketsInv(Next(limits, w, Enroll(c)))
  {
    EnrollShape(limits, w, c);
    hide ClaimStatus, Claimed, Next, ClaimAgent;
  }

  lemma EnrollClaims(limits: Limits, w: World, c: Claim)
    requires ClaimInv(w) && ClaimStatus(w.docs, limits, c) == 0
    ensures ClaimInv(Next(limits, w, Enroll(c))) && UsedUp(w, Next(limits, w, Enroll(c)))
  {
    EnrollKeys(limits, w, c);
    EnrollCreated(limits, w, c);
    EnrollTickets(limits, w, c);
    EnrollShape(limits, w, c);
  }

  /** Claims are left alone: devices are only removed, or changed or added without an activation. */
  ghost predicate ClaimsAlone(w: World, w': World) {
    && w'.docs.agents == w.docs.agents
    && w'.docs.activations == w.docs.activations && w'.docs.tickets == w.docs.tickets
    && w'.created == w.created && w'.paid == w.paid
    && forall p :: p in w'.docs.devices && w'.docs.devices[p].activation.Some? ==>
         p in w.docs.devices && w.docs.devices[p].activation == w'.docs.devices[p].activation
  }

  lemma FinishLeavesClaims(w: World, id: nat)
    requires id in w.open
    ensures ClaimsAlone(w, Finished(w, id))
  {
  }

  lemma OthersLeaveClaims(limits: Limits, w: World, s: Step)
    requires !s.Enroll?
    ensures ClaimsAlone(w, Next(limits, w, s))
  {
    match s {
      case BeginRegister(_, _, _) => hide SelfWrite, Assign, Delete, Claimed;
      case BeginOwn(_, _) => hide Register, Assign, Delete, Claimed;
      case Finish(id) =>
        hide Register, SelfWrite, Delete, Claimed, Finished;
        if id in w.open { FinishLeavesClaims(w, id); }
      case Remove(_, _) => hide Register, SelfWrite, Assign, Claimed;
      case _ => hide Register, SelfWrite, Assign, Claimed, Delete;
    }
  }

  lemma NextClaims(limits: Limits, w: World, s: Step)
    requires ClaimInv(w)
    ensures ClaimInv(Next(limits, w, s)) && UsedUp(w, Next(limits, w, s))
  {
    if s.Enroll? {
      hide Next, ClaimInv, UsedUp;
      if ClaimStatus(w.docs, limits, s.claim) == 0 {
        EnrollClaims(limits, w, s.claim);
      } else {
        RefusedClaim(limits, w, s.claim);
      }
    } else {
      OthersLeaveClaims(limits, w, s);
      hide Next;
    }
  }

  lemma RefusedClaim(limits: Limits, w: World, c: Claim)
    requires ClaimStatus(w.docs, limits, c) != 0
    ensures Next(limits, w, Enroll(c)) == w && UsedUp(w, w)
  {
  }

  lemma {:induction false} RunClaims(limits: Limits, w: World, steps: seq<Step>)
    requires ClaimInv(w)
    ensures ClaimInv(Run(limits, w, steps)) && UsedUp(w, Run(limits, w, steps))
    decreases |steps|
  {
    if steps != [] {
      NextClaims(limits, w, steps[0]);
      RunClaims(limits, Next(limits, w, steps[0]), steps[1..]);
    }
  }

  /**
   In every interleaving of claims a public key has at most one Agent, an
   activation creates at most one device, ever, and a ticket pays for at most one claim, ever.
   */
  lemma ClaimsAreSingleUse(limits: Limits, start: World, steps: seq<Step>, more: seq<Step>)
    requires Initial(start)
    ensures var w := Run(limits, start, steps); var w' := Run(limits, w, more);
      && (forall key: string :: |w.docs.AgentsWith(key)| <= 1)
      && (forall p, q :: SameActivation(w.docs, p, w'.docs, q) ==> p == q)
      && (forall t :: t in w.paid ==> t in w'.paid && w'.paid[t] == w.paid[t])
  {
    RunClaims(limits, start, steps);
    var w := Run(limits, start, steps);
    RunClaims(limits, w, more);
    hide Run, Initial, KeysInv, CreatedInv, TicketsInv;
    forall p, q | SameActivation(w.docs, p, Run(limits, w, more).docs, q) ensures p == q {
      OneDevicePerActivation(w, Run(limits, w, more), p, q);
    }
    forall key: string ensures |w.docs.AgentsWith(key)| <= 1 {
      OneAgentPerKey(w, key);
    }
  }

  lemma OneAgentPerKey(w: World, key: string)
    requires KeysInv(w)
    ensures |w.docs.AgentsWith(key)| <= 1
  {
    AtMostOne(w.docs.AgentsWith(key));
  }

  lemma OneDevicePerActivation(w: World, w': World, p: Path, q: Path)
    requires CreatedInv(w) && CreatedInv(w') && UsedUp(w, w') && SameActivation(w.docs, p, w'.docs, q)
    ensures p == q
  {
  }

  lemma AtMostOne(s: set<string>)
    requires forall x, y :: x in s && y in s ==> x == y
    ensures |s| <= 1
  {
    if s != {} {
      var x :| x in s;
      assert s == {x};
    }
  }

  // ---------------------------------------------------------------- the device cap

  ghost function Count(d: Docs, agent: string): nat { |d.DevicesOf(agent)| }

  /** The one way past the cap: an app writes its own device, which was deleted after it had authenticated. */
  ghost predicate Resurrects(w: World, s: Step) {
    s.BeginOwn? && s.id in w.authed && w.authed[s.id] !in w.docs.devices
  }

  lemma Added(d: Docs, p: Path, device: Device, agent: string)
    ensures Count(d.(devices := d.devices[p := device]), agent) ==
      Count(d, agent) + if p.agent == agent && p !in d.devices then 1 else 0
  {
    var d' := d.(devices := d.devices[p := device]);
    assert d'.DevicesOf(agent) == if p.agent == agent then d.DevicesOf(agent) + {p} else d.DevicesOf(agent);
  }

  lemma Fewer(d: Docs, d': Docs, agent: string)
    requires d'.devices.Keys <= d.devices.Keys
    ensures Count(d', agent) <= Count(d, agent)
  {
    assert d.DevicesOf(agent) == d'.DevicesOf(agent) + (d.DevicesOf(agent) - d'.DevicesOf(agent));
  }

  /** Claims, registrations, assignments and removals keep every Agent within its cap. */
  lemma NextWithinCap(limits: Limits, w: World, s: Step, agent: string)
    requires Count(w.docs, agent) <= limits.devices && !Resurrects(w, s)
    ensures Count(Next(limits, w, s).docs, agent) <= limits.devices
  {
    match s {
      case BeginRegister(id, p, token) =>
        Added(w.docs, p, Get(w.docs.devices, p).GetOr(Device("", "", None)).(token := token), agent);
      case Authenticate(_, _) =>
      case BeginOwn(_, _) =>
      case Abandon(_) =>
      case Finish(id) =>
        if id in w.open { Fewer(w.docs, Assign(w.docs, w.open[id].path, w.open[id].token).0, agent); }
      case Remove(p, expected) => Fewer(w.docs, Delete(w.docs, p, expected).0, agent);
      case Enroll(c) =>
        if ClaimStatus(w.docs, limits, c) == 0 {
          var owner := ClaimAgent(w.docs, c, w.docs.activations[c.activation]);
          Added(w.docs, Path(owner, c.device), Device("", c.deviceSecret, Some(c.activation)), agent);
        }
    }
  }

  ghost predicate NoResurrection(limits: Limits, w: World, steps: seq<Step>)
    decreases |steps|
  {
    steps != [] ==> !Resurrects(w, steps[0]) && NoResurrection(limits, Next(limits, w, steps[0]), steps[1..])
  }

  lemma {:induction false} RunWithinCap(limits: Limits, w: World, steps: seq<Step>, agent: string)
    requires Count(w.docs, agent) <= limits.devices && NoResurrection(limits, w, steps)
    ensures Count(Run(limits, w, steps).docs, agent) <= limits.devices
    decreases |steps|
  {
    if steps != [] {
      NextWithinCap(limits, w, steps[0], agent);
      RunWithinCap(limits, Next(limits, w, steps[0]), steps[1..], agent);
    }
  }

  /** A step takes an Agent at its cap past it exactly when it resurrects one of its devices. */
  lemma CapExceededIff(limits: Limits, w: World, s: Step, agent: string)
    requires Count(w.docs, agent) == limits.devices
    ensures Count(Next(limits, w, s).docs, agent) > limits.devices <==>
      Resurrects(w, s) && w.authed[s.id].agent == agent && s.token != ""
  {
    if Resurrects(w, s) {
      Added(w.docs, w.authed[s.id], Device("", "", None), agent);
    } else {
      NextWithinCap(limits, w, s, agent);
    }
  }

  /** What an app can still resurrect did exist: it authenticated as that device, which was removed since. */
  lemma {:induction false} AuthedOnceExisted(limits: Limits, w: World, steps: seq<Step>, id: nat)
    requires id !in w.authed && w.authed.Keys <= w.used && id in Run(limits, w, steps).authed
    ensures exists i: nat :: i < |steps| && Authenticates(limits, w, steps, i, id, Run(limits, w, steps).authed[id])
    decreases |steps|
  {
    var w1 := Next(limits, w, steps[0]);
    StepAuthed(limits, w, steps[0], id);
    if id in w1.authed {
      KeepsAuthed(limits, w1, steps[1..], id);
      assert steps[..0] == [];
      assert Authenticates(limits, w, steps, 0, id, w1.authed[id]);
    } else {
      AuthedOnceExisted(limits, w1, steps[1..], id);
      var i: nat :| i < |steps| - 1 && Authenticates(limits, w1, steps[1..], i, id, Run(limits, w, steps).authed[id]);
      assert steps[..i + 1][0] == steps[0] && steps[..i + 1][1..] == steps[1..][..i];
      assert Authenticates(limits, w, steps, i + 1, id, Run(limits, w, steps).authed[id]);
    }
  }

  /** Step `i` lets `id` authenticate as device `p`, which exists at that moment. */
  ghost predicate Authenticates(limits: Limits, w: World, steps: seq<Step>, i: nat, id: nat, p: Path)
    requires i < |steps|
  {
    steps[i] == Authenticate(id, p) && p in Run(limits, w, steps[..i]).docs.devices
  }

  lemma {:induction false} KeepsAuthed(limits: Limits, w: World, steps: seq<Step>, id: nat)
    requires id in w.used && w.authed.Keys <= w.used && id in Run(limits, w, steps).authed
    ensures id in w.authed && Run(limits, w, steps).authed[id] == w.authed[id]
    decreases |steps|
  {
    if steps != [] {
      StepAuthed(limits, w, steps[0], id);
      KeepsAuthed(limits, Next(limits, w, steps[0]), steps[1..], id);
    }
  }

  lemma StepAuthed(limits: Limits, w: World, s: Step, id: nat)
    requires w.authed.Keys <= w.used
    ensures var w' := Next(limits, w, s);
      && w'.authed.Keys <= w'.used && w.used <= w'.used
      && (id in w.used && id in w'.authed ==> id in w.authed && w'.authed[id] == w.authed[id])
  {
    hide Register, SelfWrite, Assign, Delete, Claimed;
  }

  const ONE_APP := Limits(1, 1, Mode.Open)
  const QR := Activation("s", "k", "", "", Some(0), None, false)
  const TWO_CODES := World(Docs(map[], map[], map[], map["x" := QR, "y" := QR], {}), map[], map[], {}, map[], map[], {})
  const FIRST := Path("a", "d1")
  const SECOND := Path("a", "d2")

  function ClaimOf(code: string, device: string): Claim { Claim(code, "s", "a", "site", device, "h", 0) }

  /**
   A run past a cap of one: an app enrolls and authenticates, its device is removed, another app
   takes its place, and then the first one's write arrives.
   */
  lemma PastTheCap()
    ensures Initial(TWO_CODES)
    ensures var late := [Enroll(ClaimOf("x", "d1")), Authenticate(0, FIRST), Remove(FIRST, ""),
                         Enroll(ClaimOf("y", "d2")), BeginOwn(0, "t")];
      Count(Run(ONE_APP, TWO_CODES, late).docs, "a") > ONE_APP.devices
  {
    var w2 := EnrolledAndAuthenticated();
    ReplacedAndWritten(w2);
    hide Next;
    FiveSteps(ONE_APP, TWO_CODES, Enroll(ClaimOf("x", "d1")), Authenticate(0, FIRST), Remove(FIRST, ""),
              Enroll(ClaimOf("y", "d2")), BeginOwn(0, "t"));
  }

  lemma EnrolledAndAuthenticated() returns (w2: World)
    ensures w2 == Next(ONE_APP, Next(ONE_APP, TWO_CODES, Enroll(ClaimOf("x", "d1"))), Authenticate(0, FIRST))
    ensures w2.docs.devices == map[FIRST := Device("", "h", Some("x"))] && w2.docs.owners == map[]
    ensures w2.docs.tickets == {}
    ensures w2.docs.agents == map["a" := Agent("k", "", false, "site")] && w2.authed == map[0 := FIRST]
    ensures w2.docs.activations == map["x" := QR.(claimed := true), "y" := QR]
  {
    assert TWO_CODES.docs.AgentsWith("k") == {} && TWO_CODES.docs.DevicesOf("a") == {};
    var w1 := Next(ONE_APP, TWO_CODES, Enroll(ClaimOf("x", "d1")));
    w2 := Next(ONE_APP, w1, Authenticate(0, FIRST));
  }

  lemma ReplacedAndWritten(w2: World)
    requires w2.docs.devices == map[FIRST := Device("", "h", Some("x"))] && w2.docs.owners == map[]
    requires w2.docs.tickets == {}
    requires w2.docs.agents == map["a" := Agent("k", "", false, "site")] && w2.authed == map[0 := FIRST]
    requires w2.docs.activations == map["x" := QR.(claimed := true), "y" := QR]
    ensures var replaced := Next(ONE_APP, Next(ONE_APP, w2, Remove(FIRST, "")), Enroll(ClaimOf("y", "d2")));
      Count(Next(ONE_APP, replaced, BeginOwn(0, "t")).docs, "a") >= 2
  {
    var w3 := Next(ONE_APP, w2, Remove(FIRST, ""));
    assert w3.docs.devices == map[] && w3.docs.DevicesOf("a") == {};
    assert "a" in w3.docs.AgentsWith("k") && w3.docs.AgentsWith("k") == {"a"};
    var w4 := Next(ONE_APP, w3, Enroll(ClaimOf("y", "d2")));
    assert SECOND in w4.docs.devices && w4.authed == map[0 := FIRST];
    var w5 := Next(ONE_APP, w4, BeginOwn(0, "t"));
    assert {FIRST, SECOND} <= w5.docs.DevicesOf("a") && FIRST != SECOND;
    assert |{FIRST, SECOND}| == 2;
    SubsetSize({FIRST, SECOND}, w5.docs.DevicesOf("a"));
  }

  lemma FiveSteps(limits: Limits, w: World, a: Step, b: Step, c: Step, d: Step, e: Step)
    ensures Run(limits, w, [a, b, c, d, e]) ==
      Next(limits, Next(limits, Next(limits, Next(limits, Next(limits, w, a), b), c), d), e)
  {
    hide Next;
    var steps := [a, b, c, d, e];
    assert steps[1..] == [b, c, d, e] && steps[1..][1..] == [c, d, e] && steps[1..][1..][1..] == [d, e];
    assert [d, e][1..] == [e] && [e][1..] == [];
    var w1 := Next(limits, w, a);
    var w2 := Next(limits, w1, b);
    assert Run(limits, w, steps) == Run(limits, w1, [b, c, d, e]);
    assert Run(limits, w1, [b, c, d, e]) == Run(limits, w2, [c, d, e]);
    assert Run(limits, w2, [c, d, e]) == Run(limits, Next(limits, w2, c), [d, e]);
    assert Run(limits, Next(limits, w2, c), [d, e]) == Run(limits, Next(limits, Next(limits, w2, c), d), [e]);
  }
}
