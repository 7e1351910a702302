/** The control plane of one appliance, which edits its persistent state in transactions. */
module MeshService {
  import opened Wrappers
  import opened MeshNames
  import MeshState
  import opened MeshEffects
  import opened MeshInvariants
  import opened MeshProtocol
  import MeshHistory

  type State = MeshState.State
  type MeshError = MeshState.MeshError

  /** A transaction commits what its operation computes, or is rolled back and reports the error. */
  ghost predicate Committed(before: State, after: State, r: Result<(), MeshError>, outcome: Result<State, MeshError>) {
    if outcome.Ok? then r == Ok(()) && after == outcome.value else r == Err(outcome.error) && after == before
  }

  /** An operation that ends by signing a roster: its own transaction stays even if the signing fails. */
  ghost predicate CommittedAndSigned(self: MeshState.Self, ready: set<MeshState.ModelName>, now: real,
                                     before: State, after: State, r: Result<MeshState.Signed, MeshError>,
                                     outcome: Result<State, MeshError>) {
    if outcome.Err? then r == Err(outcome.error) && after == before
    else
      var signed := MeshState.SignedRoster(self, outcome.value, ready, now);
      if signed.Err? then r == Err(signed.error) && after == outcome.value
      else r == Ok(MeshState.Signed(self.endpoint, signed.value.1)) && after == signed.value.0
  }

  class MeshService {
    const self: MeshState.Self
    var state: State

    constructor (self: MeshState.Self)
      ensures this.self == self && state == MeshState.EMPTY
    {
      this.self := self;
      state := MeshState.EMPTY;
    }

    method CreateMesh(id: MeshState.MeshId, meshName: string, nodeName: string,
                      shares: seq<(MeshState.ModelName, MeshState.Settings)>, ready: set<MeshState.ModelName>, now: real)
      returns (r: Result<(), MeshError>)
      modifies `state
      ensures Committed(old(state), state, r,
                        MeshState.CreateMesh(self, old(state), id, meshName, nodeName, shares, ready, now))
      ensures r.Ok? <==> MayCreate(self, old(state), meshName, nodeName, shares, ready)
      ensures r.Ok? ==> Created(self, old(state), state, id, nodeName, shares, now) && OwnEntry(self.endpoint, state)
      ensures r.Err? ==> state == old(state)
    {
      CreationIsSeen(self, state, id, meshName, nodeName, shares, ready, now);
      hide Created, MayCreate;
      if self.consumeOnly { return Err(MeshState.Forbidden); }
      if !ValidName(meshName) || !ValidName(nodeName) { return Err(MeshState.BadRequest); }
      var selected: map<MeshState.ModelName, MeshState.Settings> := map[];
      var i := 0;
      while i < |shares|
        invariant 0 <= i <= |shares|
        invariant MeshState.Selected(shares[..i], ready) == Ok(selected)
        invariant state == old(state)
      {
        assert shares[..i + 1][..i] == shares[..i];
        var error := CheckShare(shares[i].0, shares[i].1, ready);
        if error.Some? {
          SelectionFails(shares, i + 1, ready);
          return Err(error.value);
        }
        selected := selected[shares[i].0 := shares[i].1];
        i := i + 1;
      }
      assert shares[..i] == shares;
      if state.mesh.Some? { return Err(MeshState.Conflict); }
      var current := state;
      current := current.(mesh := Some(MeshState.Mesh(id, self.endpoint)));
      current := current.(node := Some(MeshState.NodeInfo(nodeName, MeshState.MagicStick)));
      current := current.(shares := selected);
      current := current.(members := map[self.endpoint := MeshState.FreshMember(nodeName, MeshState.MagicStick, now)]);
      current := current.(invites := map[]);
      state := current;
      return Ok(());
    }

    method CheckShare(model: MeshState.ModelName, settings: MeshState.Settings, ready: set<MeshState.ModelName>)
      returns (error: Option<MeshError>)
      ensures error.None? <==> ValidModel(model.text) && model in ready && MeshState.ValidSettings(settings)
      ensures error.Some? ==>
        error.value == if ValidModel(model.text) && model !in ready then MeshState.Conflict else MeshState.BadRequest
    {
      if !ValidModel(model.text) { return Some(MeshState.BadRequest); }
      if model !in ready { return Some(MeshState.Conflict); }
      if !MeshState.ValidSettings(settings) { return Some(MeshState.BadRequest); }
      return None;
    }

    method ShareModel(model: MeshState.ModelName, settings: MeshState.Settings, ready: set<MeshState.ModelName>)
      returns (r: Result<(), MeshError>)
      modifies `state
      ensures Committed(old(state), state, r, MeshState.ShareModel(self, old(state), model, settings, ready))
      ensures r.Ok? ==> PublishesAlso(self, old(state), state, model, settings)
      ensures r.Ok? <==> MayShare(self, old(state), model, settings, ready)
      ensures state == if r.Ok? then old(state).(shares := state.shares) else old(state)
      ensures r.Ok? ==> Stored(old(state).shares, state.shares, model, settings)
    {
      SharingIsSeen(self, state, model, settings, ready);
      if self.consumeOnly { return Err(MeshState.Forbidden); }
      var error := CheckShare(model, settings, ready);
      if error.Some? { return Err(error.value); }
      if state.mesh.None? || state.node.None? || state.node.value.role != MeshState.MagicStick {
        return Err(MeshState.Forbidden);
      }
      SharingPublishes(self, state, model, settings, ready);
      state := state.(shares := state.shares[model := settings]);
      return Ok(());
    }

    method UnshareModel(model: MeshState.ModelName) returns (r: Result<(), MeshError>)
      modifies `state
      ensures Committed(old(state), state, r, MeshState.UnshareModel(old(state), model))
      ensures r.Ok? <==> ValidModel(model.text)
      ensures state == old(state).(shares := if r.Ok? then old(state).shares - {model} else old(state).shares)
    {
      if !ValidModel(model.text) { return Err(MeshState.BadRequest); }
      state := state.(shares := state.shares - {model});
      return Ok(());
    }

    method ExportModels(ready: set<MeshState.ModelName>)
      returns (exports: map<MeshState.ModelId, MeshState.Settings>)
      ensures exports == MeshState.ExportModels(self, state, ready)
      ensures forall id :: id in exports ==>
        && !self.consumeOnly && state.mesh.Some? && state.node.Some? && state.node.value.role == MeshState.MagicStick
        && exists m :: id == MeshState.ExportId(state.node.value.name, m)
                       && m in state.shares && state.shares[m].enabled && m in ready && exports[id] == state.shares[m]
      ensures !self.consumeOnly && state.mesh.Some? && state.node.Some? && state.node.value.role == MeshState.MagicStick ==>
        forall m :: m in state.shares && state.shares[m].enabled && m in ready ==>
          MeshState.ExportId(state.node.value.name, m) in exports
    {
      exports := map[];
      if self.consumeOnly || state.mesh.None? || state.node.None? || state.node.value.role != MeshState.MagicStick {
        return;
      }
      var node, shares := state.node.value.name, state.shares;
      var rest := shares.Keys;
      while rest != {}
        invariant rest <= shares.Keys
        invariant forall id :: id in exports ==>
          StartsWith(id.text, Prefix(node)) && MeshState.ModelOf(node, id) in shares.Keys - rest
        invariant forall m :: m in shares.Keys - rest ==>
          (MeshState.ExportId(node, m) in exports <==> shares[m].enabled && m in ready)
        invariant forall m :: m in shares.Keys - rest && MeshState.ExportId(node, m) in exports ==>
          exports[MeshState.ExportId(node, m)] == shares[m]
      {
        var name :| name in rest;
        if shares[name].enabled && name in ready {
          exports := exports[MeshState.ExportId(node, name) := shares[name]];
        }
        rest := rest - {name};
        forall k: MeshState.ModelName ensures MeshState.ModelOf(node, MeshState.ExportId(node, k)) == k {
          ExportNameRoundTrip(node, k.text);
        }
      }
      ExportsMatch(self, state, ready, exports);
    }

    method CreateInvite(id: MeshState.InviteId, secret: string, role: MeshState.Role, lifetime: int, now: real)
      returns (r: Result<MeshState.Envelope, MeshError>)
      modifies `state
      ensures var outcome := MeshState.CreateInvite(self, old(state), id, secret, role, lifetime, now);
        if outcome.Err? then r == Err(outcome.error) && state == old(state)
        else
          && state == outcome.value
          && r == Ok(MeshState.Envelope(id, secret, state.mesh.value, role, state.invites[id].expiresAt))
      ensures r.Ok? ==> MeshState.Usable(state, id, now)
      ensures r.Ok? <==> MayInvite(self, old(state), lifetime)
      ensures r.Err? ==> state == old(state)
      ensures r.Ok? ==> Invited(old(state), state, id, secret, role, lifetime, now)
      ensures r.Ok? ==> r.value == MeshState.Envelope(id, secret, state.mesh.value, role, now.Floor + lifetime)
    {
      if self.consumeOnly { return Err(MeshState.Forbidden); }
      if !(60 <= lifetime <= 86400) { return Err(MeshState.BadRequest); }
      if !MeshState.Owner(self, state) { return Err(MeshState.Forbidden); }
      var invite := MeshState.Invite(role, now.Floor + lifetime, None, false, secret);
      state := state.(invites := state.invites[id := invite]);
      return Ok(MeshState.Envelope(id, secret, state.mesh.value, role, invite.expiresAt));
    }

    method RevokeInvite(id: MeshState.InviteId) returns (r: Result<(), MeshError>)
      modifies `state
      ensures Committed(old(state), state, r, MeshState.RevokeInvite(self, old(state), id))
      ensures r.Ok? ==> forall t: real :: !MeshState.Usable(state, id, t)
      ensures r.Ok? ==> forall other, t: real :: other != id ==>
        (MeshState.Usable(state, other, t) <==> MeshState.Usable(old(state), other, t))
      ensures r.Ok? <==> MeshState.Owner(self, old(state)) && id in old(state).invites
      ensures state == if r.Ok? then old(state).(invites := state.invites) else old(state)
      ensures r.Ok? ==> Stored(old(state).invites, state.invites, id, old(state).invites[id].(revoked := true))
    {
      if !MeshState.Owner(self, state) { return Err(MeshState.Forbidden); }
      if id !in state.invites { return Err(MeshState.NotFound); }
      state := state.(invites := state.invites[id := state.invites[id].(revoked := true)]);
      return Ok(());
    }

    method RevokeNode(e: MeshState.Endpoint) returns (r: Result<(), MeshError>)
      modifies `state
      ensures Committed(old(state), state, r, MeshState.RevokeNode(self, old(state), e))
      ensures r.Ok? ==> !MeshState.Admits(state.members, e)
      ensures r.Ok? <==> MeshState.Owner(self, old(state)) && e != self.endpoint && e in old(state).members
      ensures state == if r.Ok? then old(state).(members := state.members) else old(state)
      ensures r.Ok? ==> Stored(old(state).members, state.members, e, old(state).members[e].(revoked := true))
    {
      if !MeshState.Owner(self, state) { return Err(MeshState.Forbidden); }
      if e == self.endpoint { return Err(MeshState.BadRequest); }
      if e !in state.members { return Err(MeshState.NotFound); }
      state := state.(members := state.members[e := state.members[e].(revoked := true)]);
      return Ok(());
    }

    method Enroll(p: MeshState.Proof, ready: set<MeshState.ModelName>, now: real)
      returns (r: Result<MeshState.Signed, MeshError>)
      modifies `state
      ensures CommittedAndSigned(self, ready, now, old(state), state, r, MeshState.Enroll(self, old(state), p, now))
      ensures r.Ok? <==> MayEnrol(self, old(state), p, now) && self.endpoint in old(state).members
      ensures !MayEnrol(self, old(state), p, now) ==> state == old(state)
      ensures MayEnrol(self, old(state), p, now) ==>
        exists mid :: Enrolled(old(state), mid, p, now)
                      && if r.Ok? then Renewed(self, mid, state, ready, now) else state == mid
      ensures r.Ok? ==> Answers(self, state, r.value, now)
    {
      EnrolmentIsSeen(self, state, p, now);
      hide MayEnrol, Renewed, Answers;
      if self.consumeOnly { return Err(MeshState.Forbidden); }
      if !MeshState.ValidEndpoint(p.endpoint) || !ValidName(p.name) { return Err(MeshState.BadRequest); }
      if !p.verified { return Err(MeshState.Unauthorized); }
      var current := state;
      if !MeshState.Owner(self, current) { return Err(MeshState.Forbidden); }
      if p.invite !in current.invites { return Err(MeshState.Unauthorized); }
      var invitation := current.invites[p.invite];
      if invitation.revoked || invitation.usedAt.Some? || invitation.expiresAt as real <= now
         || invitation.secret != p.secret {
        return Err(MeshState.Unauthorized);
      }
      if p.endpoint == self.endpoint || MeshState.NameTaken(current.members, p.endpoint, p.name) {
        return Err(MeshState.Conflict);
      }
      current := current.(members := current.members[p.endpoint := MeshState.FreshMember(p.name, invitation.role, now)]);
      current := current.(invites := current.invites[p.invite := invitation.(usedAt := Some(now.Floor))]);
      assert Enrolled(state, current, p, now);
      state := current;
      r := SignedRoster(ready, now);
    }

    method SignedRoster(ready: set<MeshState.ModelName>, now: real) returns (r: Result<MeshState.Signed, MeshError>)
      modifies `state
      ensures CommittedAndSigned(self, ready, now, old(state), state, r, Ok(old(state)))
      ensures r.Ok? <==> MaySign(self, old(state))
      ensures if r.Ok? then Renewed(self, old(state), state, ready, now) && Answers(self, state, r.value, now)
              else state == old(state)
    {
      SigningIsSeen(self, state, ready, now);
      if self.consumeOnly { return Err(MeshState.Forbidden); }
      var exports := ExportModels(ready);
      var current := state;
      if !MeshState.Owner(self, current) { return Err(MeshState.Forbidden); }
      if self.endpoint !in current.members { return Err(MeshState.Internal); }
      var own := current.members[self.endpoint].(lastSeen := now.Floor, exports := exports);
      current := current.(members := current.members[self.endpoint := own]);
      var roster := MeshState.Roster(
        current.mesh.value.id, now.Floor, now.Floor + MeshState.ROSTER_LIFETIME, current.members);
      state := current;
      return Ok(MeshState.Signed(self.endpoint, roster));
    }

    /** Checks a publication entry by entry; the entries are stored as they are. */
    method CheckPublication(member: MeshState.Member, exports: seq<MeshState.Export>)
      returns (error: Option<MeshError>)
      ensures error == MeshState.PublicationError(member, exports)
    {
      if |exports| > MeshState.MAX_EXPORTS { return Some(MeshState.BadRequest); }
      if member.role == MeshState.Client && exports != [] { return Some(MeshState.Forbidden); }
      var i := 0;
      while i < |exports|
        invariant 0 <= i <= |exports|
        invariant MeshState.ExportError(member.name, exports[..i]).None?
      {
        assert exports[..i + 1][..i] == exports[..i];
        if !Owns(member.name, exports[i].model.text) {
          PublicationFails(member.name, exports, i + 1);
          return Some(MeshState.Forbidden);
        }
        if !MeshState.ValidSettings(exports[i].settings) {
          PublicationFails(member.name, exports, i + 1);
          return Some(MeshState.BadRequest);
        }
        i := i + 1;
      }
      assert exports[..i] == exports;
      return None;
    }

    method Heartbeat(c: MeshState.Claim, ready: set<MeshState.ModelName>, now: real)
      returns (r: Result<MeshState.Signed, MeshError>)
      modifies `state
      ensures CommittedAndSigned(self, ready, now, old(state), state, r, MeshState.Heartbeat(self, old(state), c, now))
      ensures r.Ok? <==> MayBeHeard(self, old(state), c, now) && self.endpoint in old(state).members
      ensures !MayBeHeard(self, old(state), c, now) ==> state == old(state)
      ensures MayBeHeard(self, old(state), c, now) ==>
        exists mid :: Heard(old(state), mid, c, now)
                      && if r.Ok? then Renewed(self, mid, state, ready, now) else state == mid
      ensures r.Ok? ==> Answers(self, state, r.value, now)
    {
      HearingIsSeen(self, state, c, now);
      hide MayBeHeard, Heard, Renewed, Answers;
      if self.consumeOnly { return Err(MeshState.Forbidden); }
      if !MeshState.ValidEndpoint(c.endpoint) || !c.verified { return Err(MeshState.Unauthorized); }
      var current := state;
      if !MeshState.Owner(self, current) { return Err(MeshState.Forbidden); }
      if c.endpoint !in current.members || current.members[c.endpoint].revoked || c.path != "/mesh/heartbeat"
         || MeshState.Abs(now - c.timestamp) > 30.0 {
        return Err(MeshState.Forbidden);
      }
      var nonces := map k | k in current.nonces && current.nonces[k] > now :: current.nonces[k];
      var key := MeshState.Nonce(c.endpoint, c.nonce);
      if !HexDigits(c.nonce, 32) || key in nonces { return Err(MeshState.Unauthorized); }
      nonces := nonces[key := now + 60.0];
      current := current.(nonces := nonces);
      var member := current.members[c.endpoint];
      var error := CheckPublication(member, c.exports);
      if error.Some? { return Err(error.value); }
      member := member.(lastSeen := now.Floor, exports := MeshState.AsMap(c.exports));
      current := current.(members := current.members[c.endpoint := member]);
      assert Heard(state, current, c, now);
      state := current;
      r := SignedRoster(ready, now);
    }

    method JoinMesh(invite: MeshState.Envelope, nodeName: string, answer: MeshState.Signed, now: real)
      returns (r: Result<(), MeshError>)
      modifies `state
      ensures Committed(old(state), state, r, MeshState.JoinMesh(self, old(state), invite, nodeName, answer, now))
      ensures r.Ok? ==> MeshHistory.AuthorizedBy(self, old(state), state, invite, answer, now)
      ensures r.Ok? <==> MayJoin(self, old(state), invite, nodeName, answer, now)
      ensures if r.Ok? then Joined(self, old(state), state, invite, answer) else state == old(state)
    {
      JoiningIsSeen(self, state, invite, nodeName, answer, now);
      if state.mesh.Some? { return Err(MeshState.Conflict); }
      if invite.expiresAt as real <= now { return Err(MeshState.Unauthorized); }
      if self.consumeOnly && invite.role != MeshState.Client { return Err(MeshState.Forbidden); }
      if !ValidName(nodeName) { return Err(MeshState.BadRequest); }
      var roster :- MeshState.VerifyRoster(invite.mesh, answer, now);
      if self.endpoint !in roster.members { return Err(MeshState.Unauthorized); }
      var member := roster.members[self.endpoint];
      if member.revoked || member.role != invite.role { return Err(MeshState.Unauthorized); }
      var current := state;
      current := current.(mesh := Some(invite.mesh));
      current := current.(node := Some(MeshState.NodeInfo(member.name, member.role)));
      current := current.(roster := Some(roster));
      current := current.(shares := map[]);
      state := current;
      return Ok(());
    }

    /** The answer is the owner's; an owner signs its own roster instead. */
    method RefreshMembership(answer: MeshState.Signed, ready: set<MeshState.ModelName>, now: real)
      returns (r: Result<(), MeshError>)
      modifies `state
      ensures MeshState.Owner(self, old(state)) ==>
        var outcome := MeshState.RefreshOwn(self, old(state), ready, now);
        if outcome.Ok? then r == Ok(()) && state == outcome.value.0
        else r == Err(outcome.error) && state == old(state)
      ensures !MeshState.Owner(self, old(state)) ==>
        Committed(old(state), state, r, MeshState.RefreshMembership(self, old(state), answer, now))
      ensures old(state).mesh.None? ==> r.Ok? && state == old(state)
      ensures old(state).mesh.Some? && old(state).mesh.value.authority != self.endpoint ==>
        && (r.Ok? <==> MayTakeOver(self, old(state), answer, now))
        && state == if r.Ok? then old(state).(roster := Some(answer.roster)) else old(state)
      ensures MeshState.Owner(self, old(state)) ==> (r.Ok? <==> MaySign(self, old(state)))
      ensures MeshState.Owner(self, old(state)) ==>
        if r.Err? then state == old(state)
        else exists mid :: Renewed(self, old(state), mid, ready, now) && state == mid.(roster := state.roster)
                           && state.roster.Some? && Answers(self, mid, MeshState.Signed(self.endpoint, state.roster.value), now)
    {
      if state.mesh.Some? && !MeshState.Owner(self, state) { RefreshIsSeen(self, state, answer, now); }
      hide Renewed, MayTakeOver, Answers;
      if state.mesh.None? { return Ok(()); }
      if !MeshState.RuntimeAllowed(self, state) { return Err(MeshState.Forbidden); }
      var roster;
      if MeshState.Owner(self, state) {
        var signed :- SignedRoster(ready, now);
        roster := signed.roster;
      } else {
        roster :- MeshState.VerifyRoster(state.mesh.value, answer, now);
        if self.endpoint !in roster.members || roster.members[self.endpoint].revoked {
          return Err(MeshState.Forbidden);
        }
      }
      state := state.(roster := Some(roster));
      return Ok(());
    }

    method LeaveMesh()
      modifies `state
      ensures state == MeshState.LeaveMesh(old(state))
      ensures forall p: MeshState.Proof, t: real :: MeshState.Enroll(self, state, p, t).Err?
      ensures forall e, t: real :: !MeshState.Admits(MeshState.ActiveMembers(state, t), e)
      ensures forall ready :: MeshState.ExportModels(self, state, ready) == map[]
      ensures state.mesh.None? && state.node.None? && state.roster.None?
      ensures state.shares == map[] && state.members == map[] && state.invites == map[] && state.nonces == old(state).nonces
    {
      state := state.(mesh := None, node := None, roster := None);
      state := state.(shares := map[], members := map[], invites := map[]);
    }
  }

  // ---------- facts the loops use ----------

  lemma {:induction false} SelectionFails(shares: seq<(MeshState.ModelName, MeshState.Settings)>, k: nat,
                                          ready: set<MeshState.ModelName>)
    requires k <= |shares| && MeshState.Selected(shares[..k], ready).Err?
    ensures MeshState.Selected(shares, ready) == MeshState.Selected(shares[..k], ready)
  {
    if k < |shares| {
      var front := shares[..|shares| - 1];
      assert front[..k] == shares[..k];
      SelectionFails(front, k, ready);
    } else {
      assert shares[..k] == shares;
    }
  }

  lemma {:induction false} PublicationFails(name: string, exports: seq<MeshState.Export>, k: nat)
    requires k <= |exports| && MeshState.ExportError(name, exports[..k]).Some?
    ensures MeshState.ExportError(name, exports) == MeshState.ExportError(name, exports[..k])
  {
    if k < |exports| {
      var front := exports[..|exports| - 1];
      assert front[..k] == exports[..k];
      PublicationFails(name, front, k);
    } else {
      assert exports[..k] == exports;
    }
  }

  lemma ExportsMatch(self: MeshState.Self, s: State, ready: set<MeshState.ModelName>,
                     exports: map<MeshState.ModelId, MeshState.Settings>)
    requires !self.consumeOnly && s.mesh.Some? && s.node.Some? && s.node.value.role == MeshState.MagicStick
    requires forall id :: id in exports ==>
      StartsWith(id.text, Prefix(s.node.value.name)) && MeshState.ModelOf(s.node.value.name, id) in s.shares
    requires forall m :: m in s.shares ==>
      (MeshState.ExportId(s.node.value.name, m) in exports <==> s.shares[m].enabled && m in ready)
    requires forall m :: m in s.shares && MeshState.ExportId(s.node.value.name, m) in exports ==>
      exports[MeshState.ExportId(s.node.value.name, m)] == s.shares[m]
    ensures exports == MeshState.ExportModels(self, s, ready)
  {
    var node, expected := s.node.value.name, MeshState.ExportModels(self, s, ready);
    forall id | id in exports || id in expected ensures id in exports && id in expected && exports[id] == expected[id] {
      var m := MeshState.ModelOf(node, id);
      assert MeshState.ExportId(node, m).text == id.text;
      ExportsAreTheReadyShares(self, s, ready, m);
    }
  }
}
