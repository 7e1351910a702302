/** What every command of the control plane keeps about the persistent state of an appliance. */
module MeshInvariants {
  import opened Wrappers
  import opened MeshNames
  import opened MeshState
  import opened NativePolicy
  import opened MeshProtocol

  // ---------- exports ----------

  lemma {:induction false} SelectedAreValid(shares: seq<(ModelName, Settings)>, ready: set<ModelName>)
    requires Selected(shares, ready).Ok?
    ensures forall m :: m in Selected(shares, ready).value ==> ValidModel(m.text) && m in ready
  {
    if shares != [] {
      SelectedAreValid(shares[..|shares| - 1], ready);
    }
  }

  /** What an appliance publishes: exactly its enabled and ready shares, each under its own name. */
  lemma ExportsAreTheReadyShares(self: Self, s: State, ready: set<ModelName>, m: ModelName)
    requires !self.consumeOnly && s.mesh.Some? && s.node.Some? && s.node.value.role == MagicStick
    ensures ExportId(s.node.value.name, m) in ExportModels(self, s, ready)
            <==> m in s.shares && s.shares[m].enabled && m in ready
    ensures m in s.shares && s.shares[m].enabled && m in ready
            ==> ExportModels(self, s, ready)[ExportId(s.node.value.name, m)] == s.shares[m]
  {
    ExportNameRoundTrip(s.node.value.name, m.text);
    forall k: ModelName | ExportId(s.node.value.name, k) == ExportId(s.node.value.name, m)
      ensures k == m
    {
      ExportNameRoundTrip(s.node.value.name, k.text);
    }
  }

  /** Nothing else is published, and nothing at all outside a mesh, as a client or as a companion. */
  lemma NothingElseIsPublished(self: Self, s: State, ready: set<ModelName>, id: ModelId)
    requires id in ExportModels(self, s, ready)
    ensures !self.consumeOnly && s.mesh.Some? && s.node.Some? && s.node.value.role == MagicStick
    ensures exists m :: id == ExportId(s.node.value.name, m) && m in s.shares && s.shares[m].enabled && m in ready
  {
  }

  /** From one state to another, exactly one model starts to be published under its name, once it is ready. */
  ghost predicate PublishesAlso(self: Self, before: State, after: State, model: ModelName, settings: Settings) {
    after.node.Some? && forall ready: set<ModelName> ::
      var id := ExportId(after.node.value.name, model);
      ExportModels(self, after, ready) ==
        if settings.enabled && model in ready then ExportModels(self, before, ready)[id := settings]
        else ExportModels(self, before, ready) - {id}
  }

  lemma SharingPublishes(self: Self, s: State, model: ModelName, settings: Settings, ready: set<ModelName>)
    requires ShareModel(self, s, model, settings, ready).Ok?
    ensures PublishesAlso(self, s, ShareModel(self, s, model, settings, ready).value, model, settings)
  {
    var u := ShareModel(self, s, model, settings, ready).value;
    var node := s.node.value.name;
    forall now: set<ModelName>
      ensures ExportModels(self, u, now) ==
        if settings.enabled && model in now then ExportModels(self, s, now)[ExportId(node, model) := settings]
        else ExportModels(self, s, now) - {ExportId(node, model)}
    {
      SharingChangesOneExport(self, s, u, model, settings, now);
    }
  }

  lemma SharingChangesOneExport(self: Self, s: State, u: State, model: ModelName, settings: Settings,
                                ready: set<ModelName>)
    requires !self.consumeOnly && s.mesh.Some? && s.node.Some? && s.node.value.role == MagicStick
    requires u == s.(shares := s.shares[model := settings])
    ensures ExportModels(self, u, ready) ==
      var id := ExportId(s.node.value.name, model);
      if settings.enabled && model in ready then ExportModels(self, s, ready)[id := settings]
      else ExportModels(self, s, ready) - {id}
  {
    var node := s.node.value.name;
    var before, after := ExportModels(self, s, ready), ExportModels(self, u, ready);
    var expected := if settings.enabled && model in ready then before[ExportId(node, model) := settings]
                    else before - {ExportId(node, model)};
    forall id | id in after || id in expected ensures id in after && id in expected && after[id] == expected[id] {
      ExportNameRoundTrip(node, model.text);
      var m := ModelOf(node, id);
      assert ExportId(node, m).text == id.text;
      ExportsAreTheReadyShares(self, s, ready, m);
      ExportsAreTheReadyShares(self, u, ready, m);
      ExportsAreTheReadyShares(self, u, ready, model);
    }
  }

  lemma ExportsAreOwn(self: Self, s: State, ready: set<ModelName>, id: ModelId)
    requires forall m :: m in s.shares ==> ValidModel(m.text)
    requires id in ExportModels(self, s, ready)
    ensures s.node.Some? && s.node.value.role == MagicStick && Owns(s.node.value.name, id.text)
  {
    var node := s.node.value.name;
    var m := ModelOf(node, id);
    assert ValidModel(m.text);
  }

  lemma {:induction false} PublishedAreOwn(name: string, exports: seq<Export>)
    requires ExportError(name, exports).None?
    ensures forall id :: id in AsMap(exports) ==> Owns(name, id.text) && ValidSettings(AsMap(exports)[id])
  {
    if exports != [] {
      PublishedAreOwn(name, exports[..|exports| - 1]);
    }
  }

  // ---------- the operations that write members ----------

  lemma EnrollKeeps(self: Self, s: State, p: Proof, now: real)
    requires StateOk(self.endpoint, s) && Enroll(self, s, p, now).Ok?
    ensures StateOk(self.endpoint, Enroll(self, s, p, now).value)
  {
    assert forall k :: k in s.members && k != p.endpoint ==> s.members[k].name != p.name by {
      assert !NameTaken(s.members, p.endpoint, p.name);
    }
  }

  /** Bringing an entry up to date keeps names unique. */
  lemma UpdateKeeps(members: map<Endpoint, Member>, e: Endpoint, m: Member)
    requires Namespaced(members) && e in members && m.name == members[e].name && ExportsOwn(m)
    ensures Namespaced(members[e := m])
  {
  }

  lemma HeartbeatKeeps(self: Self, s: State, c: Claim, now: real)
    requires StateOk(self.endpoint, s) && Heartbeat(self, s, c, now).Ok?
    ensures StateOk(self.endpoint, Heartbeat(self, s, c, now).value)
  {
    var m := s.members[c.endpoint];
    var updated := m.(lastSeen := now.Floor, exports := AsMap(c.exports));
    PublishedAreOwn(m.name, c.exports);
    assert ExportsOwn(updated);
    UpdateKeeps(s.members, c.endpoint, updated);
  }

  lemma SignedRosterKeeps(self: Self, s: State, ready: set<ModelName>, now: real)
    requires StateOk(self.endpoint, s) && SignedRoster(self, s, ready, now).Ok?
    ensures StateOk(self.endpoint, SignedRoster(self, s, ready, now).value.0)
    ensures Namespaced(SignedRoster(self, s, ready, now).value.1.members)
    ensures SignedRoster(self, s, ready, now).value.1.members == SignedRoster(self, s, ready, now).value.0.members
  {
    var m := s.members[self.endpoint];
    var updated := m.(lastSeen := now.Floor, exports := ExportModels(self, s, ready));
    forall id | id in updated.exports ensures Owns(m.name, id.text) {
      ExportsAreOwn(self, s, ready, id);
    }
    assert ExportsOwn(updated);
    UpdateKeeps(s.members, self.endpoint, updated);
  }

  lemma RevokeKeeps(self: Self, s: State, e: Endpoint)
    requires StateOk(self.endpoint, s) && RevokeNode(self, s, e).Ok?
    ensures StateOk(self.endpoint, RevokeNode(self, s, e).value)
  {
    UpdateKeeps(s.members, e, s.members[e].(revoked := true));
  }

  lemma JoinKeeps(self: Self, s: State, invite: Envelope, nodeName: string, answer: Signed, now: real)
    requires StateOk(self.endpoint, s) && Namespaced(answer.roster.members) && answer.signer != self.endpoint
    requires JoinMesh(self, s, invite, nodeName, answer, now).Ok?
    ensures StateOk(self.endpoint, JoinMesh(self, s, invite, nodeName, answer, now).value)
  {
  }

  lemma CreateKeeps(self: Self, s: State, id: MeshId, meshName: string, nodeName: string,
                    shares: seq<(ModelName, Settings)>, ready: set<ModelName>, now: real)
    requires StateOk(self.endpoint, s)
    requires CreateMesh(self, s, id, meshName, nodeName, shares, ready, now).Ok?
    ensures StateOk(self.endpoint, CreateMesh(self, s, id, meshName, nodeName, shares, ready, now).value)
  {
    SelectedAreValid(shares, ready);
  }

  /** The commands that leave the entries of the members alone, or remove all of them. */
  lemma OthersKeep(self: Self, s: State, c: Command, now: real)
    requires StateOk(self.endpoint, s) && Outcome(self, s, c, now).Ok?
    requires c.Share? || c.Unshare? || c.Leave? || c.Invites? || c.RevokesInvite? || c.Refreshes? || c.WritesPolicy?
    ensures StateOk(self.endpoint, Outcome(self, s, c, now).value)
  {
  }

  /** Every command keeps the invariant; an answer that is accepted must itself be well-formed. */
  lemma OutcomeKeeps(self: Self, s: State, c: Command, now: real)
    requires StateOk(self.endpoint, s) && Outcome(self, s, c, now).Ok?
    requires (c.Joins? || c.Refreshes?) ==> Namespaced(c.answer.roster.members)
    requires c.Joins? ==> c.answer.signer != self.endpoint
    ensures StateOk(self.endpoint, Outcome(self, s, c, now).value)
  {
    match c
    case Create(id, meshName, nodeName, selection, ready) =>
      CreateKeeps(self, s, id, meshName, nodeName, selection, ready, now);
    case Enrolls(proof) => EnrollKeeps(self, s, proof, now);
    case Hears(claim) => HeartbeatKeeps(self, s, claim, now);
    case Signs(ready) => SignedRosterKeeps(self, s, ready, now);
    case RefreshesOwn(ready) => SignedRosterKeeps(self, s, ready, now);
    case Joins(envelope, nodeName, answer) => JoinKeeps(self, s, envelope, nodeName, answer, now);
    case RevokesNode(member) => RevokeKeeps(self, s, member);
    case _ => OthersKeep(self, s, c, now);
  }
}
