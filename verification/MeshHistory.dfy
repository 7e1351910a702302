/** Properties of whole histories of a mesh: invites, roles, the owner's entry and heartbeats. */
module MeshHistory {
  import opened Wrappers
  import opened MeshNames
  import opened MeshState
  import opened NativePolicy
  import opened MeshEffects
  import opened MeshProtocol
  import opened MeshInvariants
  import opened MeshSafety

  // ---------- invites ----------

  /** No enrolment with this invite can succeed: it is gone, used, revoked or expired. */
  predicate Dead(w: World, n: Endpoint, id: InviteId) {
    n in w.nodes && !Usable(w.nodes[n].state, id, w.now)
  }

  /** Invite identifiers are random, so none is issued twice. */
  predicate Reissues(event: Event, n: Endpoint, id: InviteId) {
    event.Act? && event.node == n && event.command.Invites? && event.command.invite == id
  }

  predicate NeverReissues(events: seq<Event>, n: Endpoint, id: InviteId) {
    forall i :: 0 <= i < |events| ==> !Reissues(events[i], n, id)
  }

  lemma OutcomeStaysDead(self: Self, s: State, c: Command, id: InviteId, now: real)
    requires !Usable(s, id, now) && Outcome(self, s, c, now).Ok? && !(c.Invites? && c.invite == id)
    ensures !Usable(Outcome(self, s, c, now).value, id, now)
  {
  }

  lemma StepStaysDead(w: World, event: Event, n: Endpoint, id: InviteId)
    requires Dead(w, n, id) && !Reissues(event, n, id)
    ensures Dead(Apply(w, event), n, id)
  {
    if event.Act? && event.node == n && Succeeds(w, n, event.command) {
      OutcomeStaysDead(Self(n, w.nodes[n].consumeOnly), w.nodes[n].state, event.command, id, w.now);
    }
  }

  /** Once dead, an invite stays dead. */
  lemma {:induction false} RunStaysDead(w: World, events: seq<Event>, n: Endpoint, id: InviteId)
    requires Dead(w, n, id) && NeverReissues(events, n, id)
    ensures Dead(Run(w, events), n, id)
  {
    if events != [] {
      RunStaysDead(w, events[..|events| - 1], n, id);
      StepStaysDead(Run(w, events[..|events| - 1]), events[|events| - 1], n, id);
    }
  }

  lemma DeadMeansRefused(w: World, n: Endpoint, p: Proof)
    requires Dead(w, n, p.invite)
    ensures !Succeeds(w, n, Enrolls(p))
  {
  }

  /** An invite yields at most one enrolment, whoever presents it and whatever happens in between. */
  lemma InvitesAreSingleUse(w: World, n: Endpoint, p: Proof, after: seq<Event>, q: Proof)
    requires Succeeds(w, n, Enrolls(p)) && q.invite == p.invite
    requires NeverReissues(after, n, p.invite)
    ensures !Succeeds(Run(Apply(w, Act(n, Enrolls(p))), after), n, Enrolls(q))
  {
    var first := Apply(w, Act(n, Enrolls(p)));
    assert Dead(first, n, p.invite);
    RunStaysDead(first, after, n, p.invite);
    DeadMeansRefused(Run(first, after), n, q);
  }

  /** It yields none after its revocation, its expiry, or the end of the mesh it was issued for. */
  lemma NoEnrolmentAfterTheEnd(w: World, n: Endpoint, event: Event, after: seq<Event>, q: Proof)
    requires n in w.nodes && NeverReissues(after, n, q.invite)
    requires
      || (event == Act(n, RevokesInvite(q.invite)) && Succeeds(w, n, event.command))
      || event == Act(n, Leave)
      || (event.Tick? && event.to >= w.now
          && q.invite in w.nodes[n].state.invites
          && event.to >= w.nodes[n].state.invites[q.invite].expiresAt as real)
    ensures !Succeeds(Run(Apply(w, event), after), n, Enrolls(q))
  {
    var first := Apply(w, event);
    assert Dead(first, n, q.invite);
    RunStaysDead(first, after, n, q.invite);
    DeadMeansRefused(Run(first, after), n, q);
  }

  // ---------- the secrets of invites ----------

  /** Event `k` of the run issued this invite: by this secret, for this role, until the end of its lifetime. */
  ghost predicate IssuedBy(start: World, events: seq<Event>, k: int, n: Endpoint, id: InviteId, invite: Invite) {
    && 0 <= k < |events|
    && events[k].Act? && events[k].node == n && events[k].command.Invites? && events[k].command.invite == id
    && Succeeds(Run(start, events[..k]), n, events[k].command)
    && events[k].command.secret == invite.secret && events[k].command.role == invite.role
    && invite.expiresAt == Run(start, events[..k]).now.Floor + events[k].command.lifetime
  }

  /** Nothing else puts an invite in place or changes its secret, role or end. */
  lemma OutcomeKeepsInvites(self: Self, s: State, c: Command, now: real, id: InviteId)
    requires Outcome(self, s, c, now).Ok? && id in Outcome(self, s, c, now).value.invites
    requires !(c.Invites? && c.invite == id)
    ensures id in s.invites
    ensures var i := Outcome(self, s, c, now).value.invites[id];
      i.secret == s.invites[id].secret && i.role == s.invites[id].role && i.expiresAt == s.invites[id].expiresAt
  {
  }

  /** Every invite that an appliance has on record was issued by it in the course of the run, as it stands there. */
  lemma {:induction false} InvitesWereIssued(start: World, events: seq<Event>, n: Endpoint, id: InviteId) returns (k: int)
    requires Initial(start) && n in Run(start, events).nodes && id in Run(start, events).nodes[n].state.invites
    ensures IssuedBy(start, events, k, n, id, Run(start, events).nodes[n].state.invites[id])
  {
    var front, event := events[..|events| - 1], events[|events| - 1];
    var w := Run(start, front);
    if event.Act? && event.node == n && event.command.Invites? && event.command.invite == id && Succeeds(w, n, event.command) {
      k := |events| - 1;
    } else {
      if event.Act? && event.node == n && Succeeds(w, n, event.command) {
        OutcomeKeepsInvites(Self(n, w.nodes[n].consumeOnly), w.nodes[n].state, event.command, w.now, id);
      }
      k := InvitesWereIssued(start, front, n, id);
      assert front[..k] == events[..k];
    }
  }

  /**
   Whoever is enrolled has presented the secret with which its invite was issued, by the owner that enrols it, before
   the end of the lifetime that it was issued for; and its role is the one that was named then.
   */
  lemma EnrolmentsPresentTheirSecret(start: World, events: seq<Event>, n: Endpoint, p: Proof)
    requires Initial(start) && Succeeds(Run(start, events), n, Enrolls(p))
    ensures exists k ::
      && 0 <= k < |events|
      && events[k].Act? && events[k].node == n && events[k].command.Invites? && events[k].command.invite == p.invite
      && Succeeds(Run(start, events[..k]), n, events[k].command)
      && events[k].command.secret == p.secret
      && Run(start, events).now < (Run(start, events[..k]).now.Floor + events[k].command.lifetime) as real
      && Apply(Run(start, events), Act(n, Enrolls(p))).nodes[n].state.members[p.endpoint].role == events[k].command.role
  {
    var w := Run(start, events);
    EnrolmentIsSeen(Self(n, w.nodes[n].consumeOnly), w.nodes[n].state, p, w.now);
    var k := InvitesWereIssued(start, events, n, p.invite);
  }

  // ---------- roles ----------

  /** A member of the mesh of an owner. */
  datatype Enrolment = Enrolment(owner: Endpoint, member: Endpoint)

  /** For every member, the type of the invite with which it enrolled last. */
  function LastInvited(w: World, events: seq<Event>): map<Enrolment, Role> {
    if events == [] then map[]
    else
      var before, front, event := LastInvited(w, events[..|events| - 1]), Run(w, events[..|events| - 1]), events[|events| - 1];
      if event.Act? && event.command.Enrolls? && Succeeds(front, event.node, event.command) then
        var p := event.command.proof;
        before[Enrolment(event.node, p.endpoint) := front.nodes[event.node].state.invites[p.invite].role]
      else before
  }

  ghost predicate RolesFrom(w: World, n: Endpoint, log: map<Enrolment, Role>)
    requires n in w.nodes
  {
    var members := w.nodes[n].state.members;
    forall e :: e in members && e != n ==>
      Enrolment(n, e) in log && log[Enrolment(n, e)] == members[e].role
  }

  /** Nothing but an enrolment adds a member or changes the role of one. */
  lemma OutcomeKeepsRoles(self: Self, s: State, c: Command, now: real, e: Endpoint)
    requires Outcome(self, s, c, now).Ok? && !(c.Enrolls? && c.proof.endpoint == e)
    requires e != self.endpoint && e in Outcome(self, s, c, now).value.members
    ensures e in s.members && Outcome(self, s, c, now).value.members[e].role == s.members[e].role
  {
  }

  /** The role of every member but the owner is the type of the invite it consumed last. */
  lemma {:induction false} RolesComeFromInvites(start: World, events: seq<Event>, n: Endpoint)
    requires Initial(start) && n in Run(start, events).nodes
    ensures RolesFrom(Run(start, events), n, LastInvited(start, events))
  {
    if events != [] {
      var front, event := events[..|events| - 1], events[|events| - 1];
      var w := Run(start, front);
      RolesComeFromInvites(start, front, n);
      if event.Act? && event.node == n && Succeeds(w, n, event.command) {
        var self, s, c := Self(n, w.nodes[n].consumeOnly), w.nodes[n].state, event.command;
        forall e | e in Outcome(self, s, c, w.now).value.members && e != n && !(c.Enrolls? && c.proof.endpoint == e)
          ensures e in s.members && Outcome(self, s, c, w.now).value.members[e].role == s.members[e].role
        {
          OutcomeKeepsRoles(self, s, c, w.now, e);
        }
      }
    }
  }

  // ---------- the owner's entry ----------

  /** The appliance holds the mesh it created, with an entry for itself that is in force. */
  predicate Holds(w: World, n: Endpoint, name: string, joinedAt: int) {
    && n in w.nodes
    && Owner(Self(n, w.nodes[n].consumeOnly), w.nodes[n].state)
    && n in w.nodes[n].state.members
    && var own := w.nodes[n].state.members[n];
      own.name == name && own.joinedAt == joinedAt && own.role == MagicStick && !own.revoked
  }

  /** An appliance in no mesh, as one that asks to join must be, accepts no enrolment and signs no roster. */
  lemma NobodyAnswersItself(w: World, n: Endpoint, p: Proof, ready: set<ModelName>)
    requires n in w.nodes && w.nodes[n].state.mesh.None?
    ensures !Succeeds(w, n, Enrolls(p)) && !Succeeds(w, n, Signs(ready))
  {
  }

  lemma CreatorHolds(w: World, n: Endpoint, c: Command)
    requires c.Create? && Succeeds(w, n, c)
    ensures Holds(Apply(w, Act(n, c)), n, c.nodeName, w.now.Floor)
  {
  }

  lemma OutcomeHolds(self: Self, s: State, c: Command, now: real)
    requires Owner(self, s) && self.endpoint in s.members && !s.members[self.endpoint].revoked
    requires Outcome(self, s, c, now).Ok? && !c.Leave?
    ensures Owner(self, Outcome(self, s, c, now).value)
    ensures var members := Outcome(self, s, c, now).value.members;
      && self.endpoint in members
      && members[self.endpoint].name == s.members[self.endpoint].name
      && members[self.endpoint].joinedAt == s.members[self.endpoint].joinedAt
      && members[self.endpoint].role == s.members[self.endpoint].role
      && !members[self.endpoint].revoked
  {
  }

  /** As long as it does not leave, no run revokes the owner, renames it or puts somebody else in its place. */
  lemma {:induction false} OwnEntryStays(w: World, events: seq<Event>, n: Endpoint, name: string, joinedAt: int)
    requires Holds(w, n, name, joinedAt)
    requires forall i :: 0 <= i < |events| ==> events[i] != Act(n, Leave)
    ensures Holds(Run(w, events), n, name, joinedAt)
  {
    if events != [] {
      var front, event := events[..|events| - 1], events[|events| - 1];
      OwnEntryStays(w, front, n, name, joinedAt);
      var u := Run(w, front);
      if event.Act? && event.node == n && Succeeds(u, n, event.command) {
        OutcomeHolds(Self(n, u.nodes[n].consumeOnly), u.nodes[n].state, event.command, u.now);
      }
    }
  }

  /** So whoever creates a mesh keeps its entry until it leaves. */
  lemma CreatorKeepsItsEntry(w: World, n: Endpoint, c: Command, events: seq<Event>)
    requires c.Create? && Succeeds(w, n, c)
    requires forall i :: 0 <= i < |events| ==> events[i] != Act(n, Leave)
    ensures Holds(Run(Apply(w, Act(n, c)), events), n, c.nodeName, w.now.Floor)
  {
    CreatorHolds(w, n, c);
    OwnEntryStays(Apply(w, Act(n, c)), events, n, c.nodeName, w.now.Floor);
  }

  /** In every reachable state, the owner of a mesh is listed in it and in force, and can sign its roster. */
  lemma OwnersCanSign(start: World, events: seq<Event>, n: Endpoint, ready: set<ModelName>)
    requires Initial(start) && n in Run(start, events).nodes
    requires Owner(Self(n, Run(start, events).nodes[n].consumeOnly), Run(start, events).nodes[n].state)
    ensures OwnEntry(n, Run(start, events).nodes[n].state)
    ensures Succeeds(Run(start, events), n, Signs(ready))
  {
    var w := Run(start, events);
    InitialIsOk(start);
    EveryRunIsOk(start, events);
    assert NodeOk(n, w.nodes[n], w.net);
    CompanionsOnlyConsume(start, events, n, ready);
  }

  // ---------- heartbeats ----------

  /** Until `until`, the nonce is remembered. */
  predicate Remembered(w: World, n: Endpoint, key: Nonce, until: real) {
    && n in w.nodes
    && (w.now >= until || (key in w.nodes[n].state.nonces && w.nodes[n].state.nonces[key] >= until))
  }

  lemma OutcomeRemembers(self: Self, s: State, c: Command, now: real, key: Nonce, until: real)
    requires Outcome(self, s, c, now).Ok? && now < until
    requires key in s.nonces && s.nonces[key] >= until
    ensures key in Outcome(self, s, c, now).value.nonces && Outcome(self, s, c, now).value.nonces[key] >= until
  {
  }

  lemma {:induction false} RunRemembers(w: World, events: seq<Event>, n: Endpoint, key: Nonce, until: real)
    requires Remembered(w, n, key, until)
    ensures Remembered(Run(w, events), n, key, until)
  {
    if events != [] {
      var front, event := events[..|events| - 1], events[|events| - 1];
      RunRemembers(w, front, n, key, until);
      var u := Run(w, front);
      if event.Act? && event.node == n && Succeeds(u, n, event.command) && u.now < until {
        OutcomeRemembers(Self(n, u.nodes[n].consumeOnly), u.nodes[n].state, event.command, u.now, key, until);
      }
    }
  }

  lemma NotForgottenEarly(nonces: map<Nonce, real>, key: Nonce, now: real)
    ensures key in Unexpired(nonces, now) <==> key in nonces && nonces[key] > now
  {
  }

  /**
   A claim that was accepted is accepted again only if it was dated exactly 30 seconds ahead of the owner, and
   then only exactly 60 seconds later. A claim dated less far ahead is accepted at most once, in every run.
   */
  lemma ClaimsAreAcceptedOnce(w: World, n: Endpoint, claim: Claim, after: seq<Event>)
    requires Succeeds(w, n, Hears(claim))
    requires Succeeds(Run(Apply(w, Act(n, Hears(claim))), after), n, Hears(claim))
    ensures claim.timestamp == w.now + 30.0
    ensures Run(Apply(w, Act(n, Hears(claim))), after).now == w.now + 60.0
  {
    var first := Apply(w, Act(n, Hears(claim)));
    var key := Nonce(claim.endpoint, claim.nonce);
    assert Remembered(first, n, key, w.now + 60.0);
    RunRemembers(first, after, n, key, w.now + 60.0);
    var again := Run(first, after);
    NotForgottenEarly(again.nodes[n].state.nonces, key, again.now);
  }

  /** At that boundary the replay does get through, and nowhere else. */
  lemma ReplayAtTheBoundary(w: World, n: Endpoint, claim: Claim, later: real)
    requires Succeeds(w, n, Hears(claim)) && later >= w.now
    ensures Succeeds(Apply(Apply(w, Act(n, Hears(claim))), Tick(later)), n, Hears(claim))
            <==> claim.timestamp == w.now + 30.0 && later == w.now + 60.0
  {
    var first := Apply(w, Act(n, Hears(claim)));
    var again := Apply(first, Tick(later));
    var key := Nonce(claim.endpoint, claim.nonce);
    assert first.nodes[n].state.nonces[key] == w.now + 60.0;
    assert key in Unexpired(again.nodes[n].state.nonces, later) <==> w.now + 60.0 > later;
  }

  // ---------- companions that only consume ----------

  /** A companion is at most a client in a mesh of somebody else, and only appliances have signed anything. */
  ghost predicate ConsumersOk(w: World) {
    && (forall n :: n in w.nodes && w.nodes[n].consumeOnly ==> Consumes(n, w.nodes[n].state))
    && (forall sr :: sr in w.net ==> sr.signer in w.nodes && !w.nodes[sr.signer].consumeOnly)
  }

  predicate Consumes(n: Endpoint, s: State) {
    s.mesh.Some? ==> s.mesh.value.authority != n && s.node.Some? && s.node.value.role == Client
  }

  /** The only way for a companion into a mesh is a client's invite, and the owner's signature on the answer. */
  lemma OutcomeConsumes(self: Self, s: State, c: Command, net: set<Signed>, now: real)
    requires self.consumeOnly && Consumes(self.endpoint, s) && Deliverable(self.endpoint, net, c) && Outcome(self, s, c, now).Ok?
    requires forall sr :: sr in net ==> sr.signer != self.endpoint
    ensures Consumes(self.endpoint, Outcome(self, s, c, now).value)
    ensures Sent(self, s, c, now) == {}
  {
  }

  lemma StepKeepsConsumers(w: World, event: Event)
    requires ConsumersOk(w)
    ensures ConsumersOk(Apply(w, event))
  {
    if event.Act? && Succeeds(w, event.node, event.command) {
      var n, c := event.node, event.command;
      var self, s := Self(n, w.nodes[n].consumeOnly), w.nodes[n].state;
      if self.consumeOnly {
        OutcomeConsumes(self, s, c, w.net, w.now);
      } else {
        assert forall sr :: sr in Sent(self, s, c, w.now) ==> sr.signer == n;
      }
    }
  }

  /**
   In every run, a companion never owns a mesh, is a client wherever it belongs, and publishes nothing: its exports
   are empty, and no roster bears its signature.
   */
  lemma {:induction false} CompanionsOnlyConsume(start: World, events: seq<Event>, n: Endpoint, ready: set<ModelName>)
    requires Initial(start)
    ensures ConsumersOk(Run(start, events))
    ensures var w := Run(start, events);
      n in w.nodes && w.nodes[n].consumeOnly ==>
        && !Owner(Self(n, true), w.nodes[n].state)
        && ExportModels(Self(n, true), w.nodes[n].state, ready) == map[]
        && forall sr :: sr in w.net ==> sr.signer != n
  {
    if events != [] {
      CompanionsOnlyConsume(start, events[..|events| - 1], n, ready);
      StepKeepsConsumers(Run(start, events[..|events| - 1]), events[|events| - 1]);
    }
  }

  // ---------- joining ----------

  /**
   Who joins holds a current roster of exactly the mesh of its invite, signed by that mesh's owner, which lists it
   with the role of the invite; and it takes over its name and role from there.
   */
  lemma JoiningIsAuthorized(self: Self, s: State, invite: Envelope, nodeName: string, answer: Signed, now: real)
    requires JoinMesh(self, s, invite, nodeName, answer, now).Ok?
    ensures AuthorizedBy(self, s, JoinMesh(self, s, invite, nodeName, answer, now).value, invite, answer, now)
  {
  }

  predicate AuthorizedBy(self: Self, before: State, joined: State, invite: Envelope, answer: Signed, now: real) {
    && answer.signer == invite.mesh.authority && answer.roster.meshId == invite.mesh.id
    && joined.mesh == Some(invite.mesh) && joined.roster == Some(answer.roster)
    && Admits(ActiveMembers(joined, now), self.endpoint)
    && joined.node == Some(NodeInfo(ActiveMembers(joined, now)[self.endpoint].name, invite.role))
    && joined.shares == map[] && joined.members == before.members
  }
}
