/** Where requests end up once all appliances have reconciled their tables: at most one hop away, and never back. */
module MeshRouting {
  import opened Wrappers
  import opened ModelSync
  import MeshState
  import MeshNames
  import MeshProtocol

  /**
   An appliance with its name in the mesh, the inputs of all its reconciliations so far, and its table before and
   after the last one.
   */
  datatype Appliance = Appliance(name: string, passes: seq<Inputs>, before: map<Id, Entry>, table: map<Id, Entry>) {
    /** The inputs of the last reconciliation. */
    function Inputs(): Inputs
      requires passes != []
    {
      passes[|passes| - 1]
    }

    function Imports(): map<Remote, Import> {
      ImportsAfter(passes)
    }
  }

  /** Somebody handles a request with a deployment of its table. */
  datatype Visit = Visit(at: Endpoint, id: Id)

  // ---------- no appliance imports from itself ----------

  ghost predicate NoneOwn(name: string, imports: map<Remote, Import>) {
    forall r :: r in imports ==> r.node != name
  }

  /** The roster, if there is one, is well-formed and lists the appliance under its name. */
  ghost predicate Listed(name: string, i: Inputs) {
    i.roster.Some? ==>
      MeshProtocol.Namespaced(i.roster.value) && i.own in i.roster.value && i.roster.value[i.own].name == name
  }

  /** What a sequence of reconciliations makes of the imports, of which there are none at first. */
  function ImportsAfter(passes: seq<Inputs>): map<Remote, Import> {
    if passes == [] then map[] else NextImports(passes[|passes| - 1], ImportsAfter(passes[..|passes| - 1]))
  }

  /**
   Names are unique, so nothing that another member exports bears the appliance's own name; and whatever is not on
   the roster is dropped as soon as there is one.
   */
  lemma NoneOwnIsKept(name: string, i: Inputs, imports: map<Remote, Import>)
    requires Listed(name, i) && (NoneOwn(name, imports) || i.roster.Some?)
    ensures NoneOwn(name, NextImports(i, imports))
  {
    forall r | r in NextImports(i, imports) ensures r.node != name {
      if r !in imports || i.roster.Some? {
        assert Authorized(i, r);
        var e :| e in i.roster.value && Offers(i, e, r);
      }
    }
  }

  lemma {:induction false} NeverImportsItself(name: string, passes: seq<Inputs>)
    requires forall k :: 0 <= k < |passes| ==> Listed(name, passes[k])
    ensures NoneOwn(name, ImportsAfter(passes))
  {
    if passes != [] {
      NeverImportsItself(name, passes[..|passes| - 1]);
      NoneOwnIsKept(name, passes[|passes| - 1], ImportsAfter(passes[..|passes| - 1]));
    }
  }

  // ---------- what a reconciliation leaves behind ----------

  /**
   The last reconciliation succeeded, all of them had rosters that list the appliance under its name, and the last
   one read the local models of its exports as ready.
   */
  ghost predicate Synced(a: Appliance) {
    && a.passes != []
    && Reconciled(a.Inputs(), a.Imports(), a.before, a.table)
    && Faithful(a.Inputs().own, a.table)
    && (forall k :: 0 <= k < |a.passes| ==> Listed(a.name, a.passes[k]))
    && (forall r :: r in a.Inputs().exports ==>
          a.Inputs().inMesh && a.Inputs().publishes && a.Inputs().exports[r].model in a.Inputs().local)
  }

  /** What was wanted, and free of conflicts, before the reconciliation is so in the table that it has made. */
  lemma ReconciledIsInPlace(i: Inputs, imports: map<Remote, Import>, before: map<Id, Entry>, after: map<Id, Entry>)
    requires Reconciled(i, imports, before, after)
    ensures Matches(i.own, after, Desired(i, imports, after)) && NoConflict(i.own, after, Desired(i, imports, after))
  {
    hide Desired, Matches;
    DesiredStays(i, imports, before, i, imports, after);
    var desired := Desired(i, imports, after);
    forall k | k in desired && !k.LogicalKey? ensures !Occupied(i.own, after, desired[k].name) {
      if Occupied(i.own, after, desired[k].name) {
        OccupiedStays(i.own, before, after, desired[k].name);
      }
    }
  }

  lemma OccupiedStays(own: Endpoint, before: map<Id, Entry>, after: map<Id, Entry>, name: Name)
    requires OthersUntouched(own, before, after) && Occupied(own, after, name)
    ensures Occupied(own, before, name)
  {
    var id :| id in after && !Owned(own, after[id]) && after[id].name == name;
    assert ForeignAt(own, after, id) && ForeignAt(own, before, id);
  }

  // ---------- routing ----------

  ghost predicate At(net: map<Endpoint, Appliance>, v: Visit) {
    v.at in net && net[v.at].passes != [] && net[v.at].Inputs().own == v.at && v.id in net[v.at].table
  }

  /** The export of another member that a deployment forwards its requests to. */
  function Forwarded(a: Appliance, id: Id): Option<Remote>
    requires id in a.table && a.passes != []
  {
    var e := a.table[id];
    if Owned(a.Inputs().own, e) && e.fingerprint.Some? && e.fingerprint.value.target.Mesh? then
      Some(e.fingerprint.value.target.remote)
    else None
  }

  /** The mesh delivers to the member of that name, whose bridge serves what it exports, under the export's name. */
  ghost predicate Hop(net: map<Endpoint, Appliance>, v: Visit, w: Visit)
    requires At(net, v) && At(net, w)
  {
    var r := Forwarded(net[v.at], v.id);
    && r.Some?
    && net[w.at].name == r.value.node
    && r.value in net[w.at].Inputs().exports
    && net[w.at].table[w.id].name == ShareName(r.value)
  }

  ghost predicate Chain(net: map<Endpoint, Appliance>, visits: seq<Visit>) {
    && (forall k :: 0 <= k < |visits| ==> At(net, visits[k]))
    && (forall k :: 0 < k < |visits| ==> Hop(net, visits[k - 1], visits[k]))
  }

  /** A deployment that forwards is an import, so it points at somebody else. */
  lemma ForwardsElsewhere(a: Appliance, id: Id)
    requires Synced(a) && id in a.table && Forwarded(a, id).Some?
    ensures Forwarded(a, id).value.node != a.name
  {
    hide Desired, ImportsAfter;
    ReconciledIsInPlace(a.Inputs(), a.Imports(), a.before, a.table);
    NeverImportsItself(a.name, a.passes);
    var desired := Desired(a.Inputs(), a.Imports(), a.table);
    assert Wants(desired, id);
    var k :| k in desired && IdOf(desired[k]) == id;
    assert Carries(a.table[id], desired[k]);
    MeshTargetsAreImports(a.Inputs(), a.Imports(), a.table, k);
  }

  lemma MeshTargetsAreImports(i: Inputs, imports: map<Remote, Import>, table: map<Id, Entry>, k: Key)
    requires k in Desired(i, imports, table) && Desired(i, imports, table)[k].target.Mesh?
    ensures Desired(i, imports, table)[k].target.remote in imports
  {
    DesiredIs(i, imports, table, k);
  }

  /** Whoever else has an entry of that name is found out as a conflict. */
  lemma ExportsAreOwn(a: Appliance, id: Id, r: Remote)
    requires Synced(a) && id in a.table && r in a.Inputs().exports && a.table[id].name == ShareName(r)
    ensures Owned(a.Inputs().own, a.table[id])
  {
    ReconciledIsInPlace(a.Inputs(), a.Imports(), a.before, a.table);
    var desired := Desired(a.Inputs(), a.Imports(), a.table);
    DesiredIs(a.Inputs(), a.Imports(), a.table, ShareKey(r));
    assert !Occupied(a.Inputs().own, a.table, desired[ShareKey(r)].name);
  }

  lemma ShareNamesAreExports(i: Inputs, imports: map<Remote, Import>, table: map<Id, Entry>, k: Key, r: Remote)
    requires k in Desired(i, imports, table) && Desired(i, imports, table)[k].name == ShareName(r)
    ensures r in i.exports && i.exports[r].model in i.local && Desired(i, imports, table)[k] == ExportDeployment(i, r)
  {
    DesiredIs(i, imports, table, k);
  }

  /** What serves an exported model is a deployment of the appliance itself, for one of its ready local models. */
  lemma ExportsAreServedLocally(a: Appliance, id: Id, r: Remote)
    requires Synced(a) && id in a.table && r in a.Inputs().exports && a.table[id].name == ShareName(r)
    requires Owned(a.Inputs().own, a.table[id])
    ensures r in a.Inputs().exports && a.Inputs().exports[r].model in a.Inputs().local
    ensures a.table[id].fingerprint == Some(ExportDeployment(a.Inputs(), r))
  {
    hide Desired, ImportsAfter;
    ReconciledIsInPlace(a.Inputs(), a.Imports(), a.before, a.table);
    var desired := Desired(a.Inputs(), a.Imports(), a.table);
    assert Wants(desired, id);
    var k :| k in desired && IdOf(desired[k]) == id;
    assert Carries(a.table[id], desired[k]);
    ShareNamesAreExports(a.Inputs(), a.Imports(), a.table, k, r);
  }

  /**
   Every chain of deployments that a request passes is at most two long. The second appliance is another one than
   the first, and it serves the request with a ready local model.
   */
  lemma RoutingIsLoopFree(net: map<Endpoint, Appliance>, visits: seq<Visit>)
    requires Chain(net, visits)
    requires forall k :: 0 <= k < |visits| ==> Synced(net[visits[k].at])
    ensures |visits| <= 2
    ensures |visits| == 2 ==>
      var a := net[visits[1].at];
      && visits[1].at != visits[0].at
      && a.table[visits[1].id].fingerprint.Some?
      && a.table[visits[1].id].fingerprint.value.target.Runtime?
      && a.table[visits[1].id].fingerprint.value.target.model in a.Inputs().local
  {
    if |visits| >= 2 {
      assert Hop(net, visits[0], visits[1]);
      assert |visits| > 2 ==> Hop(net, visits[1], visits[2]);
      var first, second := net[visits[0].at], net[visits[1].at];
      var r := Forwarded(first, visits[0].id).value;
      ForwardsElsewhere(first, visits[0].id);
      ExportsAreOwn(second, visits[1].id, r);
      ExportsAreServedLocally(second, visits[1].id, r);
    }
  }
}
