/**
 What each operation of the mesh control plane does to the persistent state of one appliance, as a function of
 that state. An operation that fails yields an error and no state: its transaction is rolled back.
 */
module MeshState {
  import opened Wrappers
  import opened MeshNames

  const ROSTER_LIFETIME := 120
  const MAX_EXPORTS := 128

  /** A public key in hexadecimal; it names the member that holds the private key. */
  datatype Endpoint = Endpoint(key: string)
  datatype MeshId = MeshId(hex: string)
  datatype InviteId = InviteId(hex: string)
  datatype ModelName = ModelName(text: string)
  datatype ModelId = ModelId(text: string)

  datatype Role = MagicStick | Client

  datatype Settings = Settings(
    enabled: bool, maxConcurrent: int, rpm: int, tpm: int, maxContext: int, maxOutput: int)

  datatype Export = Export(model: ModelId, settings: Settings)

  datatype Member = Member(
    name: string, role: Role, revoked: bool, joinedAt: int, lastSeen: int, exports: map<ModelId, Settings>)

  /** The digest of the secret stands for the secret: digests do not collide. */
  datatype Invite = Invite(role: Role, expiresAt: int, usedAt: Option<int>, revoked: bool, secret: string)

  datatype Mesh = Mesh(id: MeshId, authority: Endpoint)

  datatype NodeInfo = NodeInfo(name: string, role: Role)

  datatype Nonce = Nonce(endpoint: Endpoint, value: string)

  datatype Roster = Roster(meshId: MeshId, issuedAt: int, expiresAt: int, members: map<Endpoint, Member>)

  /** A roster with a signature that only the holder of the private key of `signer` can make. */
  datatype Signed = Signed(signer: Endpoint, roster: Roster)

  /** What an invite token carries, apart from its signature. */
  datatype Envelope = Envelope(id: InviteId, secret: string, mesh: Mesh, role: Role, expiresAt: int)

  /** A member's heartbeat; `verified` says whether its signature fits its endpoint. */
  datatype Claim = Claim(
    endpoint: Endpoint, timestamp: real, nonce: string, path: string, exports: seq<Export>, verified: bool)

  /** A request to join; `verified` says whether the proof is signed with the key of its endpoint. */
  datatype Proof = Proof(invite: InviteId, secret: string, endpoint: Endpoint, name: string, verified: bool)

  datatype MeshError = BadRequest | Unauthorized | Forbidden | NotFound | Conflict | Internal

  /** The persistent state of an appliance. */
  datatype State = State(
    mesh: Option<Mesh>,
    node: Option<NodeInfo>,
    shares: map<ModelName, Settings>,
    invites: map<InviteId, Invite>,
    members: map<Endpoint, Member>,
    nonces: map<Nonce, real>,
    roster: Option<Roster>)

  const EMPTY := State(None, None, map[], map[], map[], map[], None)

  /** Who the appliance is: its key, and whether it is a companion that only consumes models. */
  datatype Self = Self(endpoint: Endpoint, consumeOnly: bool)

  // ---------- shared checks ----------

  predicate ValidEndpoint(e: Endpoint) {
    HexDigits(e.key, 64)
  }

  predicate ValidSettings(s: Settings) {
    && 1 <= s.maxConcurrent <= 64
    && 1 <= s.rpm <= 10000
    && 1 <= s.tpm <= 10000000
    && 1 <= s.maxContext <= 1048576
    && 1 <= s.maxOutput <= 131072
  }

  /** The appliance created the mesh it is in. */
  predicate Owner(self: Self, s: State) {
    s.mesh.Some? && s.mesh.value.authority == self.endpoint
  }

  function FreshMember(name: string, role: Role, now: real): Member {
    Member(name, role, false, now.Floor, now.Floor, map[])
  }

  // ---------- creating, sharing, leaving ----------

  /** The models a new mesh starts to share, or the error of the first that cannot be shared. */
  function Selected(shares: seq<(ModelName, Settings)>, ready: set<ModelName>):
    Result<map<ModelName, Settings>, MeshError>
  {
    if shares == [] then Ok(map[])
    else
      var k := |shares| - 1;
      var front := Selected(shares[..k], ready);
      if front.Err? then front
      else if !ValidModel(shares[k].0.text) then Err(BadRequest)
      else if shares[k].0 !in ready then Err(Conflict)
      else if !ValidSettings(shares[k].1) then Err(BadRequest)
      else Ok(front.value[shares[k].0 := shares[k].1])
  }

  function CreateMesh(self: Self, s: State, id: MeshId, meshName: string, nodeName: string,
                      shares: seq<(ModelName, Settings)>, ready: set<ModelName>, now: real): Result<State, MeshError>
  {
    if self.consumeOnly then Err(Forbidden)
    else if !ValidName(meshName) || !ValidName(nodeName) then Err(BadRequest)
    else
      var selected := Selected(shares, ready);
      if selected.Err? then Err(selected.error)
      else if s.mesh.Some? then Err(Conflict)
      else Ok(s.(
        mesh := Some(Mesh(id, self.endpoint)),
        node := Some(NodeInfo(nodeName, MagicStick)),
        shares := selected.value,
        members := map[self.endpoint := FreshMember(nodeName, MagicStick, now)],
        invites := map[]))
  }

  function ShareModel(self: Self, s: State, model: ModelName, settings: Settings, ready: set<ModelName>):
    Result<State, MeshError>
  {
    if self.consumeOnly then Err(Forbidden)
    else if !ValidModel(model.text) then Err(BadRequest)
    else if model !in ready then Err(Conflict)
    else if !ValidSettings(settings) then Err(BadRequest)
    else if s.mesh.None? || s.node.None? || s.node.value.role != MagicStick then Err(Forbidden)
    else Ok(s.(shares := s.shares[model := settings]))
  }

  function UnshareModel(s: State, model: ModelName): Result<State, MeshError> {
    if !ValidModel(model.text) then Err(BadRequest) else Ok(s.(shares := s.shares - {model}))
  }

  /** Replay protection outlives the mesh: the nonces stay. */
  function LeaveMesh(s: State): State {
    s.(mesh := None, node := None, roster := None, shares := map[], members := map[], invites := map[])
  }

  function ExportId(node: string, model: ModelName): ModelId {
    ModelId(Prefix(node) + model.text)
  }

  function ModelOf(node: string, id: ModelId): ModelName
    requires |Prefix(node)| <= |id.text|
  {
    ModelName(id.text[|Prefix(node)|..])
  }

  /** The models that are shared, enabled and ready, under the name of this node. */
  function ExportModels(self: Self, s: State, ready: set<ModelName>): map<ModelId, Settings> {
    if self.consumeOnly || s.mesh.None? || s.node.None? || s.node.value.role != MagicStick then map[]
    else
      var node := s.node.value.name;
      var ids := set m | m in s.shares && s.shares[m].enabled && m in ready :: ExportId(node, m);
      map id | id in ids && StartsWith(id.text, Prefix(node)) && ModelOf(node, id) in s.shares
        :: s.shares[ModelOf(node, id)]
  }

  // ---------- membership ----------

  function CreateInvite(self: Self, s: State, id: InviteId, secret: string, role: Role, lifetime: int, now: real):
    Result<State, MeshError>
  {
    if self.consumeOnly then Err(Forbidden)
    else if !(60 <= lifetime <= 86400) then Err(BadRequest)
    else if !Owner(self, s) then Err(Forbidden)
    else Ok(s.(invites := s.invites[id := Invite(role, now.Floor + lifetime, None, false, secret)]))
  }

  function RevokeInvite(self: Self, s: State, id: InviteId): Result<State, MeshError> {
    if !Owner(self, s) then Err(Forbidden)
    else if id !in s.invites then Err(NotFound)
    else Ok(s.(invites := s.invites[id := s.invites[id].(revoked := true)]))
  }

  function RevokeNode(self: Self, s: State, e: Endpoint): Result<State, MeshError> {
    if !Owner(self, s) then Err(Forbidden)
    else if e == self.endpoint then Err(BadRequest)
    else if e !in s.members then Err(NotFound)
    else Ok(s.(members := s.members[e := s.members[e].(revoked := true)]))
  }

  /** An invitation that can still be used. */
  predicate Usable(s: State, id: InviteId, now: real) {
    id in s.invites && !s.invites[id].revoked && s.invites[id].usedAt.None? && s.invites[id].expiresAt as real > now
  }

  predicate NameTaken(members: map<Endpoint, Member>, e: Endpoint, name: string) {
    exists k :: k in members && k != e && members[k].name == name
  }

  function Enroll(self: Self, s: State, p: Proof, now: real): Result<State, MeshError> {
    if self.consumeOnly then Err(Forbidden)
    else if !ValidEndpoint(p.endpoint) || !ValidName(p.name) then Err(BadRequest)
    else if !p.verified then Err(Unauthorized)
    else if !Owner(self, s) then Err(Forbidden)
    else if !Usable(s, p.invite, now) || s.invites[p.invite].secret != p.secret then Err(Unauthorized)
    else if p.endpoint == self.endpoint || NameTaken(s.members, p.endpoint, p.name) then Err(Conflict)
    else Ok(s.(
      members := s.members[p.endpoint := FreshMember(p.name, s.invites[p.invite].role, now)],
      invites := s.invites[p.invite := s.invites[p.invite].(usedAt := Some(now.Floor))]))
  }

  /** The roster that the owner signs; its own entry is brought up to date first. */
  function SignedRoster(self: Self, s: State, ready: set<ModelName>, now: real): Result<(State, Roster), MeshError> {
    if self.consumeOnly || !Owner(self, s) then Err(Forbidden)
    else if self.endpoint !in s.members then Err(Internal)
    else
      var own := s.members[self.endpoint].(lastSeen := now.Floor, exports := ExportModels(self, s, ready));
      var members := s.members[self.endpoint := own];
      Ok((s.(members := members),
          Roster(s.mesh.value.id, now.Floor, now.Floor + ROSTER_LIFETIME, members)))
  }

  function Abs(x: real): real {
    if x < 0.0 then -x else x
  }

  /** Nonces are forgotten when their 60 seconds are over. */
  function Unexpired(nonces: map<Nonce, real>, now: real): map<Nonce, real> {
    map k | k in nonces && nonces[k] > now :: nonces[k]
  }

  /** The error of the first publication a node called `name` may not make. */
  function ExportError(name: string, exports: seq<Export>): Option<MeshError> {
    if exports == [] then None
    else
      var k := |exports| - 1;
      var front := ExportError(name, exports[..k]);
      if front.Some? then front
      else if !Owns(name, exports[k].model.text) then Some(Forbidden)
      else if !ValidSettings(exports[k].settings) then Some(BadRequest)
      else None
  }

  function AsMap(exports: seq<Export>): map<ModelId, Settings> {
    if exports == [] then map[]
    else AsMap(exports[..|exports| - 1])[exports[|exports| - 1].model := exports[|exports| - 1].settings]
  }

  function PublicationError(m: Member, exports: seq<Export>): Option<MeshError> {
    if |exports| > MAX_EXPORTS then Some(BadRequest)
    else if m.role == Client && exports != [] then Some(Forbidden)
    else ExportError(m.name, exports)
  }

  /** The owner's side of a heartbeat, up to the signing of the answer. */
  function Heartbeat(self: Self, s: State, c: Claim, now: real): Result<State, MeshError> {
    if self.consumeOnly then Err(Forbidden)
    else if !ValidEndpoint(c.endpoint) || !c.verified then Err(Unauthorized)
    else if !Owner(self, s) then Err(Forbidden)
    else if c.endpoint !in s.members || s.members[c.endpoint].revoked || c.path != "/mesh/heartbeat"
         || Abs(now - c.timestamp) > 30.0 then Err(Forbidden)
    else
      var nonces := Unexpired(s.nonces, now);
      var key := Nonce(c.endpoint, c.nonce);
      if !HexDigits(c.nonce, 32) || key in nonces then Err(Unauthorized)
      else
        var member := s.members[c.endpoint];
        var refusal := PublicationError(member, c.exports);
        if refusal.Some? then Err(refusal.value)
        else Ok(s.(
          nonces := nonces[key := now + 60.0],
          members := s.members[c.endpoint := member.(lastSeen := now.Floor, exports := AsMap(c.exports))]))
  }

  // ---------- the member's side ----------

  function VerifyRoster(mesh: Mesh, signed: Signed, now: real): Result<Roster, MeshError> {
    var r := signed.roster;
    if signed.signer != mesh.authority then Err(Unauthorized)
    else if r.meshId != mesh.id
         || !(now - 10.0 <= r.issuedAt as real <= now + 30.0)
         || !(now < r.expiresAt as real <= now + ROSTER_LIFETIME as real + 30.0) then Err(Unauthorized)
    else Ok(r)
  }

  /** `e` is listed and not revoked. */
  predicate Admits(members: map<Endpoint, Member>, e: Endpoint) {
    e in members && !members[e].revoked
  }

  /** Joining with a decoded invite, once the owner's answer is there. */
  function JoinMesh(self: Self, s: State, invite: Envelope, nodeName: string, answer: Signed, now: real):
    Result<State, MeshError>
  {
    if s.mesh.Some? then Err(Conflict)
    else if invite.expiresAt as real <= now then Err(Unauthorized)
    else if self.consumeOnly && invite.role != Client then Err(Forbidden)
    else if !ValidName(nodeName) then Err(BadRequest)
    else
      var roster := VerifyRoster(invite.mesh, answer, now);
      if roster.Err? then Err(roster.error)
      else if !Admits(roster.value.members, self.endpoint)
           || roster.value.members[self.endpoint].role != invite.role then Err(Unauthorized)
      else
        var member := roster.value.members[self.endpoint];
        Ok(s.(
          mesh := Some(invite.mesh),
          node := Some(NodeInfo(member.name, member.role)),
          roster := Some(roster.value),
          shares := map[]))
  }

  predicate RuntimeAllowed(self: Self, s: State) {
    self.consumeOnly ==> s.node.Some? && s.node.value.role == Client
  }

  /** A member stores the owner's answer to its heartbeat. */
  function RefreshMembership(self: Self, s: State, answer: Signed, now: real): Result<State, MeshError> {
    if s.mesh.None? then Ok(s)
    else if !RuntimeAllowed(self, s) then Err(Forbidden)
    else if Owner(self, s) then Err(Internal)
    else
      var roster := VerifyRoster(s.mesh.value, answer, now);
      if roster.Err? then Err(roster.error)
      else if !Admits(roster.value.members, self.endpoint) then Err(Forbidden)
      else Ok(s.(roster := Some(roster.value)))
  }

  /** The owner stores a roster that it signs for itself. */
  function RefreshOwn(self: Self, s: State, ready: set<ModelName>, now: real): Result<(State, Roster), MeshError> {
    var signed := SignedRoster(self, s, ready, now);
    if signed.Err? then signed
    else Ok((signed.value.0.(roster := Some(signed.value.1)), signed.value.1))
  }

  /** The members of the stored roster, or nobody once it has expired. */
  function ActiveMembers(s: State, now: real): map<Endpoint, Member> {
    if s.roster.Some? && s.roster.value.expiresAt as real > now then s.roster.value.members else map[]
  }

  /** Whether the export bridge serves a peer that the transport has authenticated. */
  function Authorize(self: Self, s: State, tokenMatches: bool, peer: Endpoint, now: real): Result<(), MeshError> {
    if !tokenMatches then Err(Unauthorized)
    else if self.consumeOnly then Err(Forbidden)
    else if !Admits(ActiveMembers(s, now), peer) then Err(Forbidden)
    else Ok(())
  }
}
