/** Revocation is bounded: 120 seconds after it, nothing admits the revoked member any more. */
module MeshRevocation {
  import opened Wrappers
  import opened MeshState
  import opened NativePolicy
  import opened MeshProtocol
  import opened MeshInvariants
  import opened MeshSafety

  /** The step by which owner `a` takes `e` in again. */
  predicate Readmits(w: World, event: Event, a: Endpoint, e: Endpoint) {
    && event.Act? && event.node == a
    && event.command.Enrolls? && event.command.proof.endpoint == e
    && Succeeds(w, a, event.command)
  }

  ghost predicate NeverReadmits(w: World, events: seq<Event>, a: Endpoint, e: Endpoint) {
    forall i :: 0 <= i < |events| ==> !Readmits(Run(w, events[..i]), events[i], a, e)
  }

  /** The owner does not admit `e`, and the rosters that it signed and that do are over at `limit`. */
  ghost predicate Barred(w: World, a: Endpoint, e: Endpoint, limit: int) {
    && a in w.nodes && a != e
    && !Admits(w.nodes[a].state.members, e)
    && forall sr :: sr in w.net && sr.signer == a && Admits(sr.roster.members, e) ==> sr.roster.expiresAt <= limit
  }

  /** Only an enrolment makes an owner admit somebody else. */
  lemma OutcomeBars(self: Self, s: State, c: Command, e: Endpoint, now: real)
    requires !Admits(s.members, e) && e != self.endpoint
    requires Outcome(self, s, c, now).Ok? && !(c.Enrolls? && c.proof.endpoint == e)
    ensures !Admits(Outcome(self, s, c, now).value.members, e)
    ensures forall sr :: sr in Sent(self, s, c, now) ==> !Admits(sr.roster.members, e)
  {
  }

  lemma StepBars(w: World, event: Event, a: Endpoint, e: Endpoint, limit: int)
    requires WorldOk(w) && Barred(w, a, e, limit) && !Readmits(w, event, a, e)
    ensures Barred(Apply(w, event), a, e, limit)
  {
    if event.Act? && Succeeds(w, event.node, event.command) {
      var n := event.node;
      var self, s := Self(n, w.nodes[n].consumeOnly), w.nodes[n].state;
      assert NodeOk(n, w.nodes[n], w.net);
      SentOk(self, s, event.command, w.now);
      if n == a {
        OutcomeBars(self, s, event.command, e, w.now);
      }
    }
  }

  lemma {:induction false} RunBars(w: World, events: seq<Event>, a: Endpoint, e: Endpoint, limit: int)
    requires WorldOk(w) && Barred(w, a, e, limit) && NeverReadmits(w, events, a, e)
    ensures Barred(Run(w, events), a, e, limit)
  {
    if events != [] {
      var front := events[..|events| - 1];
      assert forall i :: 0 <= i < |front| ==> front[..i] == events[..i] && front[i] == events[i];
      RunBars(w, front, a, e, limit);
      EveryRunIsOk(w, front);
      StepBars(Run(w, front), events[|events| - 1], a, e, limit);
    }
  }

  /** A successful revocation bars the member, with the whole second of the revocation plus 120 as the limit. */
  lemma RevocationBars(w: World, a: Endpoint, e: Endpoint)
    requires WorldOk(w) && Succeeds(w, a, RevokesNode(e))
    ensures Barred(Apply(w, Act(a, RevokesNode(e))), a, e, w.now.Floor + ROSTER_LIFETIME)
  {
    forall sr | sr in w.net ensures sr.roster.expiresAt <= w.now.Floor + ROSTER_LIFETIME {
      assert SignedOk(sr, w.now);
    }
  }

  // ---------- what a barred member can still do ----------

  /** No appliance in the owner's mesh has an active roster that admits `e`, nor serves its requests. */
  ghost predicate Refused(w: World, n: Endpoint, e: Endpoint)
    requires n in w.nodes
  {
    var self, s := Self(n, w.nodes[n].consumeOnly), w.nodes[n].state;
    && !Admits(ActiveMembers(s, w.now), e)
    && forall token: bool :: Authorize(self, s, token, e, w.now).Err?
  }

  /** If the transport of an appliance still lists `e`, somebody other than `a` has signed for it. */
  ghost predicate Vouched(w: World, n: Endpoint, a: Endpoint, e: Endpoint)
    requires n in w.nodes
  {
    w.nodes[n].policy.Some? && Listed(w.nodes[n].policy.value, e, w.now).Some? ==>
      exists sr :: sr in w.net && sr.signer != a && w.nodes[n].policy.value == FromRoster(sr.roster)
  }

  lemma BarredIsRefused(w: World, n: Endpoint, a: Endpoint, e: Endpoint, limit: int)
    requires WorldOk(w) && Barred(w, a, e, limit) && w.now >= limit as real
    requires n in w.nodes && w.nodes[n].state.mesh.Some? && w.nodes[n].state.mesh.value.authority == a
    ensures Refused(w, n, e)
  {
    var s := w.nodes[n].state;
    assert NodeOk(n, w.nodes[n], w.net);
    if s.roster.Some? {
      assert Signed(a, s.roster.value) in w.net;
    }
  }

  lemma BarredIsNotListed(w: World, n: Endpoint, a: Endpoint, e: Endpoint, limit: int)
    requires WorldOk(w) && Barred(w, a, e, limit) && w.now >= limit as real
    requires n in w.nodes
    ensures Vouched(w, n, a, e)
  {
    assert NodeOk(n, w.nodes[n], w.net);
    if w.nodes[n].policy.Some? && Listed(w.nodes[n].policy.value, e, w.now).Some? {
      var p := w.nodes[n].policy.value;
      var sr :| sr in w.net && p == FromRoster(sr.roster);
      FloorGrows(limit as real, w.now);
      assert sr.roster.expiresAt > limit && Admits(sr.roster.members, e);
    }
  }

  /**
   Bounded revocation. Owner `a` revokes `e`, anything at all happens except that `a` enrols `e` again, and 120
   seconds pass. Then no appliance of the owner's mesh has an active roster that admits `e` or serves it, and a
   native policy file that lists `e` comes from a roster that a different owner signed.
   */
  lemma RevocationIsBounded(start: World, before: seq<Event>, a: Endpoint, e: Endpoint, after: seq<Event>)
    requires Initial(start)
    requires Succeeds(Run(start, before), a, RevokesNode(e))
    requires NeverReadmits(Apply(Run(start, before), Act(a, RevokesNode(e))), after, a, e)
    ensures var revoked := Run(start, before);
      var w := Run(Apply(revoked, Act(a, RevokesNode(e))), after);
      w.now >= revoked.now + ROSTER_LIFETIME as real ==>
        forall n :: n in w.nodes ==>
          && (w.nodes[n].state.mesh.Some? && w.nodes[n].state.mesh.value.authority == a ==> Refused(w, n, e))
          && Vouched(w, n, a, e)
  {
    InitialIsOk(start);
    EveryRunIsOk(start, before);
    var revoked := Run(start, before);
    var limit := revoked.now.Floor + ROSTER_LIFETIME;
    RevocationBars(revoked, a, e);
    var first := Apply(revoked, Act(a, RevokesNode(e)));
    StepKeepsInvariant(revoked, Act(a, RevokesNode(e)));
    RunBars(first, after, a, e, limit);
    EveryRunIsOk(first, after);
    var w := Run(first, after);
    if w.now >= revoked.now + ROSTER_LIFETIME as real {
      forall n | n in w.nodes
        ensures w.nodes[n].state.mesh.Some? && w.nodes[n].state.mesh.value.authority == a ==> Refused(w, n, e)
        ensures Vouched(w, n, a, e)
      {
        if w.nodes[n].state.mesh.Some? && w.nodes[n].state.mesh.value.authority == a {
          BarredIsRefused(w, n, a, e, limit);
        }
        BarredIsNotListed(w, n, a, e, limit);
      }
    }
  }

  /** Where all rosters come from one owner, nothing of what the transport decides favours the revoked member. */
  lemma RevokedPeerIsCutOff(w: World, n: Endpoint, a: Endpoint, e: Endpoint, limit: int,
                            kind: nat, announcement: Announcement)
    requires WorldOk(w) && Barred(w, a, e, limit) && w.now >= limit as real
    requires forall sr :: sr in w.net ==> sr.signer == a
    requires n in w.nodes && w.nodes[n].policy.Some?
    ensures var p := w.nodes[n].policy.value;
      && !CanServe(p, e, w.now)
      && !AllowStream(p, e, kind, w.now)
      && !AcceptAnnouncement(p, e, announcement, w.now)
  {
    BarredIsNotListed(w, n, a, e, limit);
  }

  /**
   The bound cannot be improved: a roster signed right before the revocation admits the member until the last
   moment before its whole second of signing plus 120, wherever it has been stored.
   */
  lemma ARosterSurvivesItsLifetime(self: Self, s: State, ready: set<ModelName>, signedAt: real, e: Endpoint,
                                   holder: State, now: real)
    requires SignedRoster(self, s, ready, signedAt).Ok? && Admits(s.members, e)
    requires holder.roster == Some(SignedRoster(self, s, ready, signedAt).value.1)
    ensures Admits(ActiveMembers(holder, now), e) <==> now < (signedAt.Floor + ROSTER_LIFETIME) as real
  {
  }
}
