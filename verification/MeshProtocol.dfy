/**
 A mesh of appliances as a state machine. Every appliance runs the same code and may own a mesh or belong to one.
 Signed rosters stay available once they are signed: they may be delivered late, twice, to anybody, or never.
 Heartbeats and enrolment requests may be anything at all, whoever made them. All clocks agree.
 */
module MeshProtocol {
  import opened Wrappers
  import opened MeshNames
  import opened MeshState
  import opened NativePolicy

  /** An appliance: its persistent state, the policy file and whether its transport runs. */
  datatype Appliance = Appliance(consumeOnly: bool, state: State, policy: Option<Policy>, running: bool)

  datatype World = World(now: real, nodes: map<Endpoint, Appliance>, net: set<Signed>)

  datatype Command =
    | Create(id: MeshId, meshName: string, nodeName: string,
             selection: seq<(ModelName, Settings)>, ready: set<ModelName>)
    | Share(model: ModelName, settings: Settings, ready: set<ModelName>)
    | Unshare(model: ModelName)
    | Leave
    | Invites(invite: InviteId, secret: string, role: Role, lifetime: int)
    | RevokesInvite(invite: InviteId)
    | RevokesNode(member: Endpoint)
    | Enrolls(proof: Proof)
    | Hears(claim: Claim)
    | Signs(ready: set<ModelName>)
    | Joins(envelope: Envelope, nodeName: string, answer: Signed)
    | Refreshes(answer: Signed)
    | RefreshesOwn(ready: set<ModelName>)
    | WritesPolicy(bootstrap: bool, launch: Launch)

  /** One step: time passes, or one appliance executes one command. */
  datatype Event = Tick(to: real) | Act(node: Endpoint, command: Command)

  // ---------- steps ----------

  /** What a command does to the persistent state. */
  function Outcome(self: Self, s: State, c: Command, now: real): Result<State, MeshError> {
    match c
    case Create(id, meshName, nodeName, selection, ready) =>
      CreateMesh(self, s, id, meshName, nodeName, selection, ready, now)
    case Share(model, settings, ready) => ShareModel(self, s, model, settings, ready)
    case Unshare(model) => UnshareModel(s, model)
    case Leave => Ok(LeaveMesh(s))
    case Invites(invite, secret, role, lifetime) => CreateInvite(self, s, invite, secret, role, lifetime, now)
    case RevokesInvite(invite) => RevokeInvite(self, s, invite)
    case RevokesNode(member) => RevokeNode(self, s, member)
    case Enrolls(proof) => Enroll(self, s, proof, now)
    case Hears(claim) => Heartbeat(self, s, claim, now)
    case Signs(ready) =>
      var signed := SignedRoster(self, s, ready, now);
      if signed.Ok? then Ok(signed.value.0) else Err(signed.error)
    case Joins(envelope, nodeName, answer) => JoinMesh(self, s, envelope, nodeName, answer, now)
    case Refreshes(answer) => RefreshMembership(self, s, answer, now)
    case RefreshesOwn(ready) =>
      var signed := RefreshOwn(self, s, ready, now);
      if signed.Ok? then Ok(signed.value.0) else Err(signed.error)
    case WritesPolicy(_, _) => Ok(s)
  }

  /** The rosters that a command signs. */
  function Sent(self: Self, s: State, c: Command, now: real): set<Signed> {
    if c.Signs? || c.RefreshesOwn? then
      var signed := SignedRoster(self, s, c.ready, now);
      if signed.Ok? then {Signed(self.endpoint, signed.value.1)} else {}
    else {}
  }

  /**
   A signature can only be delivered if it was made. Who asks to join is in no mesh, so it refuses its own request
   (`MeshHistory.NobodyAnswersItself`): the answer to a request to join comes from somebody else.
   */
  predicate Deliverable(n: Endpoint, net: set<Signed>, c: Command) {
    && ((c.Joins? || c.Refreshes?) ==> c.answer in net)
    && (c.Joins? ==> c.answer.signer != n)
  }

  function Runtime(self: Self, a: Appliance, c: Command, now: real): Appliance {
    if c.WritesPolicy? then
      a.(policy := Some(PolicyFor(a.state, now)),
         running := Running(self, a.state, a.running, c.bootstrap, c.launch, now))
    else a
  }

  predicate Succeeds(w: World, n: Endpoint, c: Command) {
    && n in w.nodes
    && Deliverable(n, w.net, c)
    && Outcome(Self(n, w.nodes[n].consumeOnly), w.nodes[n].state, c, w.now).Ok?
  }

  /** A step that is not possible changes nothing, and neither does a command that fails. */
  function Apply(w: World, e: Event): World {
    match e
    case Tick(to) => if to >= w.now then w.(now := to) else w
    case Act(n, c) =>
      if !Succeeds(w, n, c) then w
      else
        var self, a := Self(n, w.nodes[n].consumeOnly), w.nodes[n];
        var next := Runtime(self, a, c, w.now).(state := Outcome(self, a.state, c, w.now).value);
        World(w.now, w.nodes[n := next], w.net + Sent(self, a.state, c, w.now))
  }

  function Run(w: World, events: seq<Event>): World {
    if events == [] then w else Apply(Run(w, events[..|events| - 1]), events[|events| - 1])
  }

  /** Before anything happens, nobody is in a mesh and nothing has been signed. */
  predicate Initial(w: World) {
    && w.now >= 0.0
    && w.net == {}
    && forall n :: n in w.nodes ==>
      w.nodes[n].state == EMPTY && w.nodes[n].policy == None && !w.nodes[n].running
  }

  // ---------- the invariant of one appliance's members ----------

  /** Names are unique, revoked members included; everybody exports under their own name and clients nothing. */
  ghost predicate Namespaced(members: map<Endpoint, Member>) {
    && (forall e :: e in members ==> ValidName(members[e].name))
    && (forall e, f :: e in members && f in members && members[e].name == members[f].name ==> e == f)
    && (forall e :: e in members ==> ExportsOwn(members[e]))
  }

  ghost predicate ExportsOwn(m: Member) {
    && (forall id :: id in m.exports ==> Owns(m.name, id.text))
    && (m.role == Client ==> m.exports == map[])
  }

  /** The owner's own entry carries its name and is not revoked. */
  predicate OwnEntry(self: Endpoint, s: State) {
    && s.node.Some? && s.node.value.role == MagicStick
    && self in s.members
    && s.members[self].name == s.node.value.name
    && s.members[self].role == MagicStick
    && !s.members[self].revoked
  }

  ghost predicate StateOk(self: Endpoint, s: State) {
    && Namespaced(s.members)
    && (forall m :: m in s.shares ==> ValidModel(m.text))
    && (s.mesh.None? ==> s.members == map[] && s.roster.None?)
    && (s.node.Some? ==> ValidName(s.node.value.name))
    && (s.mesh.Some? && s.mesh.value.authority == self <==> self in s.members)
    && (self in s.members ==> OwnEntry(self, s))
  }
}
