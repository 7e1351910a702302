/**
 Every roster that an appliance acts on lists it, under its own name, as long as the owner of its mesh does not enrol it
 again under another one. So what `MeshRouting` asks of rosters holds of every appliance of a mesh.
 */
module MeshListing {
  import opened Wrappers
  import opened MeshState
  import opened MeshProtocol
  import opened MeshInvariants
  import opened MeshSafety
  import ModelSync
  import MeshRouting

  // ---------- an appliance acts on rosters that admit it ----------

  /** The stored roster admits the appliance; that of an owner, under the name that the owner has taken. */
  ghost predicate SelfAdmitted(n: Endpoint, s: State) {
    s.roster.Some? ==>
      && Admits(s.roster.value.members, n)
      && (s.mesh.Some? && s.mesh.value.authority == n ==>
            s.node.Some? && s.roster.value.members[n].name == s.node.value.name)
  }

  lemma OutcomeAdmits(self: Self, s: State, c: Command, now: real)
    requires StateOk(self.endpoint, s) && SelfAdmitted(self.endpoint, s) && Outcome(self, s, c, now).Ok?
    requires c.Joins? ==> c.answer.signer != self.endpoint
    ensures SelfAdmitted(self.endpoint, Outcome(self, s, c, now).value)
  {
  }

  ghost predicate AllAdmitted(w: World) {
    forall n :: n in w.nodes ==> SelfAdmitted(n, w.nodes[n].state)
  }

  lemma StepAdmits(w: World, event: Event)
    requires WorldOk(w) && AllAdmitted(w)
    ensures AllAdmitted(Apply(w, event))
  {
    if event.Act? && Succeeds(w, event.node, event.command) {
      var n := event.node;
      assert NodeOk(n, w.nodes[n], w.net);
      OutcomeAdmits(Self(n, w.nodes[n].consumeOnly), w.nodes[n].state, event.command, w.now);
    }
  }

  lemma {:induction false} EveryoneIsAdmitted(start: World, events: seq<Event>)
    requires Initial(start)
    ensures WorldOk(Run(start, events)) && AllAdmitted(Run(start, events))
  {
    InitialIsOk(start);
    EveryRunIsOk(start, events);
    if events != [] {
      EveryoneIsAdmitted(start, events[..|events| - 1]);
      StepAdmits(Run(start, events[..|events| - 1]), events[|events| - 1]);
    }
  }

  // ---------- one name per member ----------

  /** Owner `a` enrols `n` under this name only. */
  predicate EnrolsAs(event: Event, a: Endpoint, n: Endpoint, name: string) {
    event.Act? && event.node == a && event.command.Enrolls? && event.command.proof.endpoint == n ==>
      event.command.proof.name == name
  }

  ghost predicate OneName(events: seq<Event>, a: Endpoint, n: Endpoint, name: string) {
    forall i :: 0 <= i < |events| ==> EnrolsAs(events[i], a, n, name)
  }

  predicate NamedIn(members: map<Endpoint, Member>, n: Endpoint, name: string) {
    n in members ==> members[n].name == name
  }

  /** In the books of the owner, and on all rosters that it has signed, the member has this name. */
  ghost predicate NamedBy(w: World, a: Endpoint, n: Endpoint, name: string) {
    && (a in w.nodes ==> NamedIn(w.nodes[a].state.members, n, name))
    && (forall sr :: sr in w.net && sr.signer == a ==> NamedIn(sr.roster.members, n, name))
  }

  lemma OutcomeNames(self: Self, s: State, c: Command, now: real, n: Endpoint, name: string)
    requires n != self.endpoint && NamedIn(s.members, n, name) && Outcome(self, s, c, now).Ok?
    requires c.Enrolls? && c.proof.endpoint == n ==> c.proof.name == name
    ensures NamedIn(Outcome(self, s, c, now).value.members, n, name)
    ensures forall sr :: sr in Sent(self, s, c, now) ==> NamedIn(sr.roster.members, n, name)
  {
  }

  lemma StepNames(w: World, event: Event, a: Endpoint, n: Endpoint, name: string)
    requires WorldOk(w) && NamedBy(w, a, n, name) && n != a && EnrolsAs(event, a, n, name)
    ensures NamedBy(Apply(w, event), a, n, name)
  {
    if event.Act? && Succeeds(w, event.node, event.command) {
      var m := event.node;
      var self, s := Self(m, w.nodes[m].consumeOnly), w.nodes[m].state;
      assert NodeOk(m, w.nodes[m], w.net);
      SentOk(self, s, event.command, w.now);
      if m == a { OutcomeNames(self, s, event.command, w.now, n, name); }
    }
  }

  lemma {:induction false} RunNames(start: World, events: seq<Event>, a: Endpoint, n: Endpoint, name: string)
    requires Initial(start) && n != a && OneName(events, a, n, name)
    ensures NamedBy(Run(start, events), a, n, name)
  {
    if events != [] {
      var front := events[..|events| - 1];
      RunNames(start, front, a, n, name);
      InitialIsOk(start);
      EveryRunIsOk(start, front);
      StepNames(Run(start, front), events[|events| - 1], a, n, name);
    }
  }

  // ---------- what reconciliations read ----------

  /** The reconciliation reads the roster of appliance `n`, if that is active. */
  ghost predicate Reads(w: World, n: Endpoint, i: ModelSync.Inputs) {
    && n in w.nodes && i.own == n
    && (i.roster.Some? ==>
          w.nodes[n].state.roster.Some? && i.roster.value == w.nodes[n].state.roster.value.members)
  }

  /** Among the members of a mesh, everybody is listed under the name that the owner gave it. */
  lemma MembersAreListed(start: World, events: seq<Event>, a: Endpoint, n: Endpoint, name: string, i: ModelSync.Inputs)
    requires Initial(start) && n != a && OneName(events, a, n, name) && Reads(Run(start, events), n, i)
    requires var s := Run(start, events).nodes[n].state; s.mesh.Some? ==> s.mesh.value.authority == a
    ensures MeshRouting.Listed(name, i)
  {
    var w := Run(start, events);
    EveryoneIsAdmitted(start, events);
    RunNames(start, events, a, n, name);
    assert NodeOk(n, w.nodes[n], w.net) && SelfAdmitted(n, w.nodes[n].state);
    if i.roster.Some? {
      var sr := Signed(a, w.nodes[n].state.roster.value);
      assert sr in w.net && SignedOk(sr, w.now) && NamedIn(sr.roster.members, n, name);
    }
  }

  /** And so is the owner, under the name that it has taken. */
  lemma OwnersAreListed(start: World, events: seq<Event>, n: Endpoint, i: ModelSync.Inputs)
    requires Initial(start) && Reads(Run(start, events), n, i)
    requires Owner(Self(n, Run(start, events).nodes[n].consumeOnly), Run(start, events).nodes[n].state)
    ensures Run(start, events).nodes[n].state.node.Some?
    ensures MeshRouting.Listed(Run(start, events).nodes[n].state.node.value.name, i)
  {
    var w := Run(start, events);
    EveryoneIsAdmitted(start, events);
    assert NodeOk(n, w.nodes[n], w.net) && SelfAdmitted(n, w.nodes[n].state);
    if i.roster.Some? {
      var sr := Signed(n, w.nodes[n].state.roster.value);
      assert sr in w.net && SignedOk(sr, w.now);
    }
  }

  /** The reconciliation was made at some moment of the run, while the appliance was in no mesh but that of `a`. */
  ghost predicate MadeIn(start: World, events: seq<Event>, a: Endpoint, n: Endpoint, i: ModelSync.Inputs) {
    exists k :: 0 <= k <= |events| && MadeAt(Run(start, events[..k]), a, n, i)
  }

  ghost predicate MadeAt(w: World, a: Endpoint, n: Endpoint, i: ModelSync.Inputs) {
    && Reads(w, n, i)
    && (w.nodes[n].state.mesh.Some? ==> w.nodes[n].state.mesh.value.authority == a)
  }

  /**
   From joining to leaving and beyond: a member that its owner has only ever enrolled under one name never has an import
   under that name, whatever rosters were delivered to it and however many reconciliations it has made.
   */
  lemma MembersNeverImportThemselves(start: World, events: seq<Event>, a: Endpoint, n: Endpoint, name: string,
                                     passes: seq<ModelSync.Inputs>)
    requires Initial(start) && n != a && OneName(events, a, n, name)
    requires forall j :: 0 <= j < |passes| ==> MadeIn(start, events, a, n, passes[j])
    ensures forall j :: 0 <= j < |passes| ==> MeshRouting.Listed(name, passes[j])
    ensures MeshRouting.NoneOwn(name, MeshRouting.ImportsAfter(passes))
  {
    forall j | 0 <= j < |passes| ensures MeshRouting.Listed(name, passes[j]) {
      var k :| 0 <= k <= |events| && MadeAt(Run(start, events[..k]), a, n, passes[j]);
      MembersAreListed(start, events[..k], a, n, name, passes[j]);
    }
    MeshRouting.NeverImportsItself(name, passes);
  }
}
