/**
 What the operations of the mesh control plane mean to a caller: exactly when each of them succeeds, and what has
 changed then, in terms of what is stored.
 */
module MeshEffects {
  import opened Wrappers
  import opened MeshNames
  import opened MeshState

  /** The appliance is no companion and has created the mesh that it is in. */
  ghost predicate Governs(self: Self, s: State) {
    !self.consumeOnly && s.mesh.Some? && s.mesh.value.authority == self.endpoint
  }

  // ---------- models ----------

  /** A local model that is ready, with settings within their bounds. */
  ghost predicate Sharable(model: ModelName, s: Settings, ready: set<ModelName>) {
    && ValidModel(model.text) && model in ready && WithinBounds(s)
  }

  ghost predicate WithinBounds(s: Settings) {
    && 1 <= s.maxConcurrent <= 64 && 1 <= s.rpm <= 10000 && 1 <= s.tpm <= 10000000
    && 1 <= s.maxContext <= 1048576 && 1 <= s.maxOutput <= 131072
  }

  /** The entry counts: no later one is for the same model. */
  ghost predicate Counts<K(!new), V(!new)>(entries: seq<(K, V)>, i: int) {
    0 <= i < |entries| && forall k :: i < k < |entries| ==> entries[k].0 != entries[i].0
  }

  ghost predicate Has<K(!new), V(!new)>(entries: seq<(K, V)>, x: K) {
    exists i :: 0 <= i < |entries| && entries[i].0 == x
  }

  /** The map that a list of entries stands for. */
  ghost predicate ReadAs<K(!new), V(!new)>(entries: seq<(K, V)>, m: map<K, V>) {
    && (forall x :: x in m <==> Has(entries, x))
    && (forall i :: Counts(entries, i) ==> entries[i].0 in m && m[entries[i].0] == entries[i].1)
  }

  lemma ReadOneMore<K(!new), V(!new)>(front: seq<(K, V)>, k: K, v: V, m: map<K, V>)
    requires ReadAs(front, m)
    ensures ReadAs(front + [(k, v)], m[k := v])
  {
    var entries := front + [(k, v)];
    assert entries[|front|] == (k, v);
    forall x ensures x in m[k := v] <==> Has(entries, x) {
      if Has(front, x) {
        var i :| 0 <= i < |front| && front[i].0 == x;
        assert entries[i].0 == x;
      }
      if Has(entries, x) && x != k {
        var i :| 0 <= i < |entries| && entries[i].0 == x;
        assert front[i].0 == x;
      }
    }
    forall i | Counts(entries, i) ensures m[k := v][entries[i].0] == entries[i].1 {
      if i < |front| {
        assert entries[|front|].0 != entries[i].0;
        assert forall j :: 0 <= j < |front| ==> front[j] == entries[j];
        assert Counts(front, i);
      }
    }
  }

  ghost predicate AllSharable(shares: seq<(ModelName, Settings)>, ready: set<ModelName>) {
    forall i :: 0 <= i < |shares| ==> Sharable(shares[i].0, shares[i].1, ready)
  }

  lemma AllButOne(front: seq<(ModelName, Settings)>, last: (ModelName, Settings), ready: set<ModelName>)
    ensures AllSharable(front + [last], ready) <==> AllSharable(front, ready) && Sharable(last.0, last.1, ready)
  {
    var shares := front + [last];
    assert shares[|front|] == last;
    assert forall i :: 0 <= i < |front| ==> shares[i] == front[i];
    hide Sharable;
  }

  lemma NothingIsSelected(shares: seq<(ModelName, Settings)>, ready: set<ModelName>)
    requires shares == []
    ensures Selected(shares, ready) == Ok(map[]) && AllSharable(shares, ready) && ReadAs(shares, map[])
  {
  }

  /** One more share joins the selection of those before it, if that has not failed and it can be shared. */
  lemma SelectedSnoc(shares: seq<(ModelName, Settings)>, ready: set<ModelName>)
    requires shares != []
    ensures var front, last := shares[..|shares| - 1], shares[|shares| - 1];
      && (Selected(shares, ready).Ok? <==> Selected(front, ready).Ok? && Sharable(last.0, last.1, ready))
      && (Selected(shares, ready).Ok? ==> Selected(shares, ready).value == Selected(front, ready).value[last.0 := last.1])
  {
  }

  lemma {:induction false} SelectionIsSeen(shares: seq<(ModelName, Settings)>, ready: set<ModelName>)
    ensures Selected(shares, ready).Ok? <==> AllSharable(shares, ready)
    ensures Selected(shares, ready).Ok? ==> ReadAs(shares, Selected(shares, ready).value)
  {
    hide ReadAs, AllSharable, Selected, Sharable;
    if shares == [] {
      NothingIsSelected(shares, ready);
    } else {
      var front, last := shares[..|shares| - 1], shares[|shares| - 1];
      assert shares == front + [last];
      SelectionIsSeen(front, ready);
      SelectedSnoc(shares, ready);
      AllButOne(front, last, ready);
      if Selected(shares, ready).Ok? {
        assert [last] == [(last.0, last.1)];
        ReadOneMore(front, last.0, last.1, Selected(front, ready).value);
      }
    }
  }

  ghost predicate MayCreate(self: Self, s: State, meshName: string, nodeName: string,
                            shares: seq<(ModelName, Settings)>, ready: set<ModelName>) {
    && !self.consumeOnly && s.mesh.None? && ValidName(meshName) && ValidName(nodeName)
    && AllSharable(shares, ready)
  }

  /** A new mesh: the appliance owns it, is its only member, and offers the models it has chosen. */
  ghost predicate Created(self: Self, s: State, t: State, id: MeshId, nodeName: string,
                          shares: seq<(ModelName, Settings)>, now: real) {
    && t.mesh == Some(Mesh(id, self.endpoint)) && t.node == Some(NodeInfo(nodeName, MagicStick))
    && t.members == map[self.endpoint := Member(nodeName, MagicStick, false, now.Floor, now.Floor, map[])]
    && ReadAs(shares, t.shares) && t.invites == map[]
    && t.nonces == s.nonces && t.roster == s.roster
  }

  lemma CreationIsSeen(self: Self, s: State, id: MeshId, meshName: string, nodeName: string,
                       shares: seq<(ModelName, Settings)>, ready: set<ModelName>, now: real)
    ensures var r := CreateMesh(self, s, id, meshName, nodeName, shares, ready, now);
      && (r.Ok? <==> MayCreate(self, s, meshName, nodeName, shares, ready))
      && (r.Ok? ==> Created(self, s, r.value, id, nodeName, shares, now))
  {
    SelectionIsSeen(shares, ready);
  }

  ghost predicate MayShare(self: Self, s: State, model: ModelName, settings: Settings, ready: set<ModelName>) {
    && !self.consumeOnly && Sharable(model, settings, ready)
    && s.mesh.Some? && s.node.Some? && s.node.value.role == MagicStick
  }

  lemma SharingIsSeen(self: Self, s: State, model: ModelName, settings: Settings, ready: set<ModelName>)
    ensures var r := ShareModel(self, s, model, settings, ready);
      && (r.Ok? <==> MayShare(self, s, model, settings, ready))
      && (r.Ok? ==> Stored(s.shares, r.value.shares, model, settings) && r.value == s.(shares := r.value.shares))
  {
  }

  /** One entry is stored, and all others are as before. */
  ghost predicate Stored<K(!new), V(!new)>(before: map<K, V>, after: map<K, V>, k: K, v: V) {
    && k in after && after[k] == v
    && forall x :: x != k ==> (x in after <==> x in before) && (x in after ==> after[x] == before[x])
  }

  // ---------- invites and members ----------

  ghost predicate MayInvite(self: Self, s: State, lifetime: int) {
    Governs(self, s) && 60 <= lifetime <= 86400
  }

  /** A new invite, unused and unrevoked, which ends after its lifetime. */
  ghost predicate Invited(s: State, t: State, id: InviteId, secret: string, role: Role, lifetime: int, now: real) {
    && t == s.(invites := t.invites)
    && Stored(s.invites, t.invites, id, Invite(role, now.Floor + lifetime, None, false, secret))
  }

  lemma InvitingIsSeen(self: Self, s: State, id: InviteId, secret: string, role: Role, lifetime: int, now: real)
    ensures var r := CreateInvite(self, s, id, secret, role, lifetime, now);
      && (r.Ok? <==> MayInvite(self, s, lifetime))
      && (r.Ok? ==> Invited(s, r.value, id, secret, role, lifetime, now))
  {
  }

  /** The owner has an invite by this name that is neither revoked nor used nor over, and its secret was presented. */
  ghost predicate Presents(s: State, p: Proof, now: real) {
    && p.invite in s.invites
    && var i := s.invites[p.invite];
       i.secret == p.secret && !i.revoked && i.usedAt.None? && now < i.expiresAt as real
  }

  /** No other member bears the name, whether it is revoked or not. */
  ghost predicate NameIsFree(s: State, p: Proof) {
    forall e :: e in s.members && s.members[e].name == p.name ==> e == p.endpoint
  }

  ghost predicate MayEnrol(self: Self, s: State, p: Proof, now: real) {
    && Governs(self, s) && HexDigits(p.endpoint.key, 64) && ValidName(p.name) && p.verified
    && Presents(s, p, now) && p.endpoint != self.endpoint && NameIsFree(s, p)
  }

  /** The new member has the role of the invite, which is used from now on. */
  ghost predicate Enrolled(s: State, t: State, p: Proof, now: real)
    requires p.invite in s.invites
  {
    && t == s.(members := t.members, invites := t.invites)
    && Stored(s.members, t.members, p.endpoint,
              Member(p.name, s.invites[p.invite].role, false, now.Floor, now.Floor, map[]))
    && Stored(s.invites, t.invites, p.invite, s.invites[p.invite].(usedAt := Some(now.Floor)))
  }

  lemma EnrolmentIsSeen(self: Self, s: State, p: Proof, now: real)
    ensures var r := Enroll(self, s, p, now);
      && (r.Ok? <==> MayEnrol(self, s, p, now))
      && (r.Ok? ==> Enrolled(s, r.value, p, now))
  {
    assert NameTaken(s.members, p.endpoint, p.name) <==> !NameIsFree(s, p);
  }

  /** Which error a refused enrolment reports: of several, the first that the appliance comes upon. */
  lemma RefusalIsSeen(self: Self, s: State, p: Proof, now: real)
    requires !MayEnrol(self, s, p, now)
    ensures var e := Enroll(self, s, p, now).error;
      && (e == BadRequest <==> !self.consumeOnly && !(HexDigits(p.endpoint.key, 64) && ValidName(p.name)))
      && (e == Conflict ==> Presents(s, p, now) && (p.endpoint == self.endpoint || !NameIsFree(s, p)))
      && (e == Unauthorized ==> !p.verified || !Presents(s, p, now))
      && (e == Forbidden ==> !Governs(self, s))
      && e in {BadRequest, Conflict, Unauthorized, Forbidden}
  {
    EnrolmentIsSeen(self, s, p, now);
    assert NameTaken(s.members, p.endpoint, p.name) <==> !NameIsFree(s, p);
  }

  lemma RevocationIsSeen(self: Self, s: State, e: Endpoint)
    ensures var r := RevokeNode(self, s, e);
      && (r.Ok? <==> Owner(self, s) && e != self.endpoint && e in s.members)
      && (r.Ok? ==> r.value == s.(members := r.value.members)
                    && Stored(s.members, r.value.members, e, s.members[e].(revoked := true)))
  {
  }

  lemma WithdrawalIsSeen(self: Self, s: State, id: InviteId)
    ensures var r := RevokeInvite(self, s, id);
      && (r.Ok? <==> Owner(self, s) && id in s.invites)
      && (r.Ok? ==> r.value == s.(invites := r.value.invites)
                    && Stored(s.invites, r.value.invites, id, s.invites[id].(revoked := true)))
  {
  }

  // ---------- rosters ----------

  ghost predicate MaySign(self: Self, s: State) {
    Governs(self, s) && self.endpoint in s.members
  }

  /** Only the owner's entry has changed: it is brought up to date. */
  ghost predicate Renewed(self: Self, s: State, t: State, ready: set<ModelName>, now: real) {
    && t == s.(members := t.members)
    && self.endpoint in s.members
    && Stored(s.members, t.members, self.endpoint,
              s.members[self.endpoint].(lastSeen := now.Floor, exports := ExportModels(self, s, ready)))
  }

  /** A roster that lists the members of the mesh as they are stored, for two minutes from this second. */
  ghost predicate Answers(self: Self, t: State, answer: Signed, now: real) {
    && t.mesh.Some?
    && answer == Signed(self.endpoint, Roster(t.mesh.value.id, now.Floor, now.Floor + 120, t.members))
  }

  lemma SigningIsSeen(self: Self, s: State, ready: set<ModelName>, now: real)
    ensures var r := SignedRoster(self, s, ready, now);
      && (r.Ok? <==> MaySign(self, s))
      && (r.Ok? ==> Renewed(self, s, r.value.0, ready, now))
      && (r.Ok? ==> Answers(self, r.value.0, Signed(self.endpoint, r.value.1), now))
  {
  }

  /**
   A roster of this mesh, signed by its owner, dated 10 seconds back at most and 30 seconds ahead at most, which is not
   over and will be within 150 seconds.
   */
  ghost predicate Current(mesh: Mesh, signed: Signed, now: real) {
    && signed.signer == mesh.authority && signed.roster.meshId == mesh.id
    && signed.roster.issuedAt as real - 30.0 <= now <= signed.roster.issuedAt as real + 10.0
    && signed.roster.expiresAt as real - 150.0 <= now < signed.roster.expiresAt as real
  }

  lemma VerifyingIsSeen(mesh: Mesh, signed: Signed, now: real)
    ensures VerifyRoster(mesh, signed, now) == if Current(mesh, signed, now) then Ok(signed.roster) else Err(Unauthorized)
  {
  }

  ghost predicate MayJoin(self: Self, s: State, invite: Envelope, nodeName: string, answer: Signed, now: real) {
    && s.mesh.None? && now < invite.expiresAt as real && (self.consumeOnly ==> invite.role == Client)
    && ValidName(nodeName) && Current(invite.mesh, answer, now)
    && self.endpoint in answer.roster.members
    && var m := answer.roster.members[self.endpoint]; !m.revoked && m.role == invite.role
  }

  ghost predicate Joined(self: Self, s: State, t: State, invite: Envelope, answer: Signed)
    requires self.endpoint in answer.roster.members
  {
    && t.mesh == Some(invite.mesh) && t.roster == Some(answer.roster) && t.shares == map[]
    && t.node == Some(NodeInfo(answer.roster.members[self.endpoint].name, invite.role))
    && t.members == s.members && t.invites == s.invites && t.nonces == s.nonces
  }

  lemma JoiningIsSeen(self: Self, s: State, invite: Envelope, nodeName: string, answer: Signed, now: real)
    ensures var r := JoinMesh(self, s, invite, nodeName, answer, now);
      && (r.Ok? <==> MayJoin(self, s, invite, nodeName, answer, now))
      && (r.Ok? ==> Joined(self, s, r.value, invite, answer))
  {
  }

  /** A member takes over a current answer of its owner that lists it and does not revoke it. */
  ghost predicate MayTakeOver(self: Self, s: State, answer: Signed, now: real) {
    && s.mesh.Some? && Current(s.mesh.value, answer, now)
    && self.endpoint in answer.roster.members && !answer.roster.members[self.endpoint].revoked
    && (self.consumeOnly ==> s.node.Some? && s.node.value.role == Client)
  }

  lemma RefreshIsSeen(self: Self, s: State, answer: Signed, now: real)
    requires s.mesh.Some? && s.mesh.value.authority != self.endpoint
    ensures var r := RefreshMembership(self, s, answer, now);
      && (r.Ok? <==> MayTakeOver(self, s, answer, now))
      && (r.Ok? ==> r.value == s.(roster := Some(answer.roster)))
  {
  }

  /** Whom the export bridge serves: a peer that the stored roster admits, while that is not over. */
  lemma AuthorizedExactly(self: Self, s: State, tokenMatches: bool, peer: Endpoint, now: real)
    ensures Authorize(self, s, tokenMatches, peer, now).Ok? <==>
      && tokenMatches && !self.consumeOnly
      && s.roster.Some? && now < s.roster.value.expiresAt as real
      && peer in s.roster.value.members && !s.roster.value.members[peer].revoked
  {
  }

  // ---------- heartbeats ----------

  /** The member may publish all of this: models under its own name, within their bounds, and as a client nothing. */
  ghost predicate MayPublish(m: Member, exports: seq<Export>) {
    && |exports| <= 128 && (m.role == Client ==> exports == [])
    && forall i :: 0 <= i < |exports| ==> Owns(m.name, exports[i].model.text) && WithinBounds(exports[i].settings)
  }

  lemma {:induction false} FirstErrorIsSeen(name: string, exports: seq<Export>)
    ensures ExportError(name, exports).None? <==>
      forall i :: 0 <= i < |exports| ==> Owns(name, exports[i].model.text) && WithinBounds(exports[i].settings)
  {
    if exports != [] {
      var front, last := exports[..|exports| - 1], exports[|exports| - 1];
      FirstErrorIsSeen(name, front);
      if forall i :: 0 <= i < |exports| ==> Owns(name, exports[i].model.text) && WithinBounds(exports[i].settings) {
        assert forall i :: 0 <= i < |front| ==> front[i] == exports[i];
        assert Owns(name, last.model.text) && WithinBounds(last.settings);
      } else {
        var i :| 0 <= i < |exports| && !(Owns(name, exports[i].model.text) && WithinBounds(exports[i].settings));
        assert i < |front| ==> front[i] == exports[i];
      }
    }
  }

  ghost function Entries(exports: seq<Export>): (entries: seq<(ModelId, Settings)>)
    ensures |entries| == |exports|
    ensures forall i :: 0 <= i < |exports| ==> entries[i] == (exports[i].model, exports[i].settings)
  {
    seq(|exports|, i requires 0 <= i < |exports| => (exports[i].model, exports[i].settings))
  }

  lemma {:induction false} PublicationIsRead(exports: seq<Export>)
    ensures ReadAs(Entries(exports), AsMap(exports))
  {
    hide ReadAs, Entries;
    if exports == [] {
      NothingIsRead<ModelId, Settings>(Entries(exports));
    } else {
      var front, last := exports[..|exports| - 1], exports[|exports| - 1];
      PublicationIsRead(front);
      EntriesSnoc(exports);
      ReadOneMore(Entries(front), last.model, last.settings, AsMap(front));
    }
  }

  lemma NothingIsRead<K(!new), V(!new)>(entries: seq<(K, V)>)
    requires |entries| == 0
    ensures ReadAs(entries, map[])
  {
  }

  lemma EntriesSnoc(exports: seq<Export>)
    requires exports != []
    ensures var last := exports[|exports| - 1];
      Entries(exports) == Entries(exports[..|exports| - 1]) + [(last.model, last.settings)]
  {
  }

  /** The nonce has been used within the last 60 seconds. */
  ghost predicate Replayed(s: State, c: Claim, now: real) {
    Nonce(c.endpoint, c.nonce) in s.nonces && now < s.nonces[Nonce(c.endpoint, c.nonce)]
  }

  ghost predicate MayBeHeard(self: Self, s: State, c: Claim, now: real) {
    && Governs(self, s) && HexDigits(c.endpoint.key, 64) && c.verified
    && c.endpoint in s.members && !s.members[c.endpoint].revoked
    && c.path == "/mesh/heartbeat" && now - 30.0 <= c.timestamp <= now + 30.0
    && HexDigits(c.nonce, 32) && !Replayed(s, c, now)
    && MayPublish(s.members[c.endpoint], c.exports)
  }

  /** The member's publication replaces its last one, and its nonce is remembered for 60 seconds. */
  ghost predicate Heard(s: State, t: State, c: Claim, now: real)
    requires c.endpoint in s.members
  {
    && t == s.(members := t.members, nonces := t.nonces)
    && c.endpoint in t.members && ReadAs(Entries(c.exports), t.members[c.endpoint].exports)
    && Stored(s.members, t.members, c.endpoint,
              s.members[c.endpoint].(lastSeen := now.Floor, exports := t.members[c.endpoint].exports))
    && var key := Nonce(c.endpoint, c.nonce);
       && (forall k :: k in t.nonces <==> k == key || (k in s.nonces && now < s.nonces[k]))
       && (forall k :: k in t.nonces ==> t.nonces[k] == if k == key then now + 60.0 else s.nonces[k])
  }

  lemma NoncesAreSeen(nonces: map<Nonce, real>, key: Nonce, now: real)
    ensures var after := Unexpired(nonces, now)[key := now + 60.0];
      && (forall k :: k in after <==> k == key || (k in nonces && now < nonces[k]))
      && (forall k :: k in after ==> after[k] == if k == key then now + 60.0 else nonces[k])
    ensures key in Unexpired(nonces, now) <==> key in nonces && now < nonces[key]
  {
  }

  lemma HeardExactly(self: Self, s: State, c: Claim, now: real)
    ensures Heartbeat(self, s, c, now).Ok? <==> MayBeHeard(self, s, c, now)
  {
    if c.endpoint in s.members {
      FirstErrorIsSeen(s.members[c.endpoint].name, c.exports);
    }
    NoncesAreSeen(s.nonces, Nonce(c.endpoint, c.nonce), now);
    hide AsMap, ExportError, HexDigits, WithinBounds, Owns, Unexpired;
  }

  lemma HearingIsSeen(self: Self, s: State, c: Claim, now: real)
    ensures var r := Heartbeat(self, s, c, now);
      && (r.Ok? <==> MayBeHeard(self, s, c, now))
      && (r.Ok? ==> Heard(s, r.value, c, now))
  {
    HeardExactly(self, s, c, now);
    PublicationIsRead(c.exports);
    NoncesAreSeen(s.nonces, Nonce(c.endpoint, c.nonce), now);
    hide ReadAs, AsMap, PublicationError, Entries, HexDigits, MayPublish, Unexpired;
  }
}
