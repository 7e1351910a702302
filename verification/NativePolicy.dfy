/**
 The policy file that the runtime writes from the stored roster, and what the native transport, which reads the
 file for every decision and knows the time in whole seconds only, lets a peer do.
 */
module NativePolicy {
  import opened Wrappers
  import opened MeshNames
  import opened MeshState

  datatype Policy = Policy(expiresAt: int, members: map<Endpoint, Member>)

  /** What a peer says about itself. */
  datatype Announcement = Announcement(
    asClient: bool, serving: seq<ModelId>, hosted: seq<ModelId>, described: seq<ModelId>, available: seq<ModelId>)

  /** How an attempt to have the transport running ended. */
  datatype Launch = Kept | Started | Failed

  // ---------- writing the file ----------

  function PolicyFor(s: State, now: real): Policy {
    if s.roster.Some? && s.roster.value.expiresAt as real > now then FromRoster(s.roster.value) else Policy(0, map[])
  }

  function FromRoster(r: Roster): Policy {
    Policy(r.expiresAt, map e | e in r.members && !r.members[e].revoked :: r.members[e])
  }

  /** Whether the transport runs after a pass of the runtime, which writes the policy file first. */
  function Running(self: Self, s: State, running: bool, bootstrap: bool, launch: Launch, now: real): bool {
    if s.mesh.None? || !RuntimeAllowed(self, s) || !Admits(ActiveMembers(s, now), self.endpoint) then false
    else if !Owner(self, s) && !bootstrap then running
    else match launch
      case Kept => running
      case Started => true
      case Failed => false
  }

  // ---------- reading it ----------

  function Listed(p: Policy, e: Endpoint, now: real): Option<Member> {
    if p.expiresAt > now.Floor && e in p.members && !p.members[e].revoked then Some(p.members[e]) else None
  }

  predicate CanServe(p: Policy, e: Endpoint, now: real) {
    var m := Listed(p, e, now);
    m.Some? && m.value.role == MagicStick
  }

  predicate AllowStream(p: Policy, e: Endpoint, kind: nat, now: real) {
    kind in {0x01, 0x04, 0x06, 0x07, 0x0e} && Listed(p, e, now).Some?
  }

  function Announced(a: Announcement): seq<ModelId> {
    a.serving + a.hosted + a.described
  }

  predicate AcceptAnnouncement(p: Policy, e: Endpoint, a: Announcement, now: real) {
    var m := Listed(p, e, now);
    && m.Some?
    && if m.value.role == Client then a.asClient && Announced(a) == [] && a.available == []
       else forall id :: id in Announced(a) ==> StartsWith(id.text, Prefix(m.value.name)) && id in m.value.exports
  }

  // ---------- what the readings of the two clocks agree on ----------

  /** A file written from a roster is live for the transport no longer than the roster is for the control plane. */
  lemma WholeSecondsAgree(s: State, now: real, e: Endpoint)
    requires now >= 0.0
    ensures Listed(PolicyFor(s, now), e, now).Some? <==> Admits(ActiveMembers(s, now), e)
  {
    if s.roster.Some? {
      var expires := s.roster.value.expiresAt;
      assert expires > now.Floor <==> expires as real > now by {
        if expires as real > now { assert expires > now.Floor; } else { assert expires <= now.Floor; }
      }
    }
  }

  /** A running transport has just been found entitled to run. */
  lemma RunsOnlyForMembers(self: Self, s: State, running: bool, bootstrap: bool, launch: Launch, now: real)
    requires Running(self, s, running, bootstrap, launch, now)
    ensures s.mesh.Some? && Admits(ActiveMembers(s, now), self.endpoint)
    ensures self.consumeOnly ==> s.node.Some? && s.node.value.role == Client
  {
  }

  // ---------- what the transport lets a peer do, by the roster from which the file was written ----------

  /** The stored roster lists the peer, does not revoke it, and is not over. */
  ghost predicate InForce(s: State, e: Endpoint, now: real) {
    && s.roster.Some? && now < s.roster.value.expiresAt as real
    && e in s.roster.value.members && !s.roster.value.members[e].revoked
  }

  lemma ListedAsStored(s: State, now: real, e: Endpoint)
    requires now >= 0.0
    ensures Listed(PolicyFor(s, now), e, now) == if InForce(s, e, now) then Some(s.roster.value.members[e]) else None
  {
    WholeSecondsAgree(s, now, e);
  }

  /** Peers in force serve models unless they are clients, and nobody else does. */
  lemma ServesExactly(s: State, now: real, e: Endpoint)
    requires now >= 0.0
    ensures CanServe(PolicyFor(s, now), e, now) <==> InForce(s, e, now) && s.roster.value.members[e].role != Client
  {
    ListedAsStored(s, now, e);
  }

  /** Of the kinds of streams, five are open to a peer in force, and none to others. */
  lemma StreamsExactly(s: State, now: real, e: Endpoint, kind: nat)
    requires now >= 0.0
    ensures AllowStream(PolicyFor(s, now), e, kind, now)
            <==> InForce(s, e, now) && (kind == 1 || kind == 4 || kind == 6 || kind == 7 || kind == 14)
  {
    ListedAsStored(s, now, e);
  }

  /**
   A client's announcement is accepted if it says so and names no model; that of another peer in force, if all the
   models that it serves, hosts or describes bear its name and are published by it.
   */
  lemma AnnouncesExactly(s: State, now: real, e: Endpoint, a: Announcement)
    requires now >= 0.0
    ensures AcceptAnnouncement(PolicyFor(s, now), e, a, now) <==>
      && InForce(s, e, now)
      && var m := s.roster.value.members[e];
         if m.role == Client then a == Announcement(true, [], [], [], [])
         else forall id :: id in a.serving || id in a.hosted || id in a.described ==>
           StartsWith(id.text, "share/" + m.name + "/") && id in m.exports
  {
    ListedAsStored(s, now, e);
    assert Announced(a) == [] <==> a.serving == [] && a.hosted == [] && a.described == [];
    assert forall id :: id in Announced(a) <==> id in a.serving || id in a.hosted || id in a.described;
  }

  /** Exactly when the transport runs after a pass of the runtime. */
  lemma RunsExactly(self: Self, s: State, running: bool, bootstrap: bool, launch: Launch, now: real)
    ensures Running(self, s, running, bootstrap, launch, now) <==>
      && s.mesh.Some? && InForce(s, self.endpoint, now)
      && (self.consumeOnly ==> s.node.Some? && s.node.value.role == Client)
      && if s.mesh.value.authority == self.endpoint || bootstrap then launch == Started || (launch == Kept && running)
         else running
  {
  }
}
