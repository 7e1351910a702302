/** What holds in every reachable state of the mesh, whatever is delivered and whenever. */
module MeshSafety {
  import opened Wrappers
  import opened MeshNames
  import opened MeshState
  import opened NativePolicy
  import opened MeshProtocol
  import opened MeshInvariants

  // ---------- the invariant ----------

  /** A stored roster was signed by the owner of the mesh the appliance is in. */
  ghost predicate RosterKnown(s: State, net: set<Signed>) {
    s.roster.Some? ==> s.mesh.Some? && Signed(s.mesh.value.authority, s.roster.value) in net
  }

  /** A policy file admits nobody, or was written from a signed roster. */
  ghost predicate PolicyKnown(p: Option<Policy>, net: set<Signed>) {
    p.Some? && p.value != Policy(0, map[]) ==> exists sr :: sr in net && p.value == FromRoster(sr.roster)
  }

  ghost predicate SignedOk(sr: Signed, now: real) {
    && Namespaced(sr.roster.members)
    && sr.roster.expiresAt == sr.roster.issuedAt + ROSTER_LIFETIME
    && sr.roster.issuedAt <= now.Floor
  }

  ghost predicate NodeOk(n: Endpoint, a: Appliance, net: set<Signed>) {
    StateOk(n, a.state) && RosterKnown(a.state, net) && PolicyKnown(a.policy, net)
  }

  ghost predicate WorldOk(w: World) {
    && w.now >= 0.0
    && (forall n :: n in w.nodes ==> NodeOk(n, w.nodes[n], w.net))
    && (forall sr :: sr in w.net ==> SignedOk(sr, w.now))
  }

  lemma SentOk(self: Self, s: State, c: Command, now: real)
    requires StateOk(self.endpoint, s)
    ensures forall sr :: sr in Sent(self, s, c, now) ==> SignedOk(sr, now) && sr.signer == self.endpoint
  {
    if (c.Signs? || c.RefreshesOwn?) && SignedRoster(self, s, c.ready, now).Ok? {
      SignedRosterKeeps(self, s, c.ready, now);
    }
  }

  /** Only five commands touch the mesh or the stored roster. */
  lemma RosterUntouched(self: Self, s: State, c: Command, now: real)
    requires Outcome(self, s, c, now).Ok?
    requires !c.Create? && !c.Leave? && !c.Joins? && !c.Refreshes? && !c.RefreshesOwn?
    ensures Outcome(self, s, c, now).value.mesh == s.mesh && Outcome(self, s, c, now).value.roster == s.roster
  {
  }

  lemma RosterKept(self: Self, s: State, c: Command, net: set<Signed>, now: real)
    requires StateOk(self.endpoint, s) && RosterKnown(s, net) && Deliverable(self.endpoint, net, c)
    requires Outcome(self, s, c, now).Ok?
    ensures RosterKnown(Outcome(self, s, c, now).value, net + Sent(self, s, c, now))
  {
    match c
    case Create(_, _, _, _, _) =>
    case Leave =>
    case Joins(_, _, _) =>
    case Refreshes(_) =>
    case RefreshesOwn(_) =>
    case _ => RosterUntouched(self, s, c, now);
  }

  lemma PolicyKept(self: Self, a: Appliance, c: Command, net: set<Signed>, now: real)
    requires RosterKnown(a.state, net) && PolicyKnown(a.policy, net)
    ensures PolicyKnown(Runtime(self, a, c, now).policy, net)
  {
    if c.WritesPolicy? && PolicyFor(a.state, now) != Policy(0, map[]) {
      var sr := Signed(a.state.mesh.value.authority, a.state.roster.value);
      assert sr in net && PolicyFor(a.state, now) == FromRoster(sr.roster);
    }
  }

  /** What is known about an appliance stays known when more rosters are signed. */
  lemma NetGrows(n: Endpoint, a: Appliance, net: set<Signed>, more: set<Signed>)
    requires NodeOk(n, a, net)
    ensures NodeOk(n, a, net + more)
  {
    if a.policy.Some? && a.policy.value != Policy(0, map[]) {
      var sr :| sr in net && a.policy.value == FromRoster(sr.roster);
      assert sr in net + more;
    }
  }

  lemma ActKeeps(w: World, n: Endpoint, c: Command)
    requires WorldOk(w) && Succeeds(w, n, c)
    ensures WorldOk(Apply(w, Act(n, c)))
  {
    var self, a := Self(n, w.nodes[n].consumeOnly), w.nodes[n];
    var sent := Sent(self, a.state, c, w.now);
    assert NodeOk(n, a, w.net);
    SentOk(self, a.state, c, w.now);
    OutcomeKeeps(self, a.state, c, w.now);
    RosterKept(self, a.state, c, w.net, w.now);
    PolicyKept(self, a, c, w.net, w.now);
    var middle := a.(policy := Runtime(self, a, c, w.now).policy);
    NetGrows(n, middle, w.net, sent);
    forall m | m in w.nodes ensures NodeOk(m, w.nodes[m], w.net + sent) {
      NetGrows(m, w.nodes[m], w.net, sent);
    }
  }

  lemma FloorGrows(a: real, b: real)
    requires a <= b
    ensures a.Floor <= b.Floor
  {
  }

  /** One step keeps the invariant. */
  lemma StepKeepsInvariant(w: World, e: Event)
    requires WorldOk(w)
    ensures WorldOk(Apply(w, e))
  {
    match e
    case Tick(to) => if to >= w.now { FloorGrows(w.now, to); }
    case Act(n, c) => if Succeeds(w, n, c) { ActKeeps(w, n, c); }
  }

  /** The invariant holds in every state that a run reaches. */
  lemma {:induction false} EveryRunIsOk(w: World, events: seq<Event>)
    requires WorldOk(w)
    ensures WorldOk(Run(w, events))
  {
    if events != [] {
      EveryRunIsOk(w, events[..|events| - 1]);
      StepKeepsInvariant(Run(w, events[..|events| - 1]), events[|events| - 1]);
    }
  }

  lemma InitialIsOk(w: World)
    requires Initial(w)
    ensures WorldOk(w)
  {
  }

  // ---------- namespaces ----------

  /** No model belongs to two members, and its name says to which. */
  lemma OneMemberPerModel(members: map<Endpoint, Member>, e: Endpoint, f: Endpoint, id: ModelId)
    requires Namespaced(members) && e in members && f in members
    requires StartsWith(id.text, Prefix(members[e].name)) && StartsWith(id.text, Prefix(members[f].name))
    ensures e == f
  {
    OneOwner(members[e].name, members[f].name, id.text);
  }

  /** The owner's books, and every roster that was ever signed. */
  ghost predicate Recorded(w: World, members: map<Endpoint, Member>) {
    || (exists sr :: sr in w.net && members == sr.roster.members)
    || (exists n :: n in w.nodes && members == w.nodes[n].state.members)
  }

  lemma RecordsAreNamespaced(w: World, members: map<Endpoint, Member>)
    requires WorldOk(w) && Recorded(w, members)
    ensures Namespaced(members)
  {
    if n :| n in w.nodes && members == w.nodes[n].state.members {
      assert NodeOk(n, w.nodes[n], w.net);
    } else {
      var sr :| sr in w.net && members == sr.roster.members;
      assert SignedOk(sr, w.now);
    }
  }

  /**
   In every reachable state, in the owner's books and in every roster that was ever signed: names are unique,
   clients export nothing, and a model that two members export makes them the same member.
   */
  lemma NamespacesAreDisjoint(start: World, events: seq<Event>, members: map<Endpoint, Member>,
                              e: Endpoint, f: Endpoint, id: ModelId)
    requires Initial(start) && Recorded(Run(start, events), members)
    requires e in members && f in members
    ensures members[e].name == members[f].name ==> e == f
    ensures id in members[e].exports ==> Owns(members[e].name, id.text) && members[e].role == MagicStick
    ensures id in members[e].exports && id in members[f].exports ==> e == f
  {
    assert Namespaced(members) by {
      InitialIsOk(start);
      EveryRunIsOk(start, events);
      RecordsAreNamespaced(Run(start, events), members);
    }
    assert ExportsOwn(members[e]) && ExportsOwn(members[f]);
    if id in members[e].exports && id in members[f].exports {
      OneMemberPerModel(members, e, f, id);
    }
  }

  /** Two different peers never get announcements of the same model past the transport of one appliance. */
  lemma AnnouncementsAreDisjoint(start: World, events: seq<Event>, n: Endpoint, e: Endpoint, f: Endpoint,
                                 a: Announcement, b: Announcement, id: ModelId)
    requires Initial(start)
    requires var w := Run(start, events);
      && n in w.nodes && w.nodes[n].policy.Some?
      && AcceptAnnouncement(w.nodes[n].policy.value, e, a, w.now)
      && AcceptAnnouncement(w.nodes[n].policy.value, f, b, w.now)
    requires id in Announced(a) && id in Announced(b)
    ensures e == f
  {
    InitialIsOk(start);
    EveryRunIsOk(start, events);
    var w := Run(start, events);
    assert NodeOk(n, w.nodes[n], w.net);
    var p := w.nodes[n].policy.value;
    var sr :| sr in w.net && p == FromRoster(sr.roster);
    assert SignedOk(sr, w.now);
    OneMemberPerModel(sr.roster.members, e, f, id);
  }
}
