/**
 Reconciliation of LiteLLM's routing table with the mesh: which deployments an appliance wants, how it gets there
 by calls that may fail, and where requests end up.
 */
module ModelSync {
  import opened Wrappers
  import ExportKeys
  import MeshState
  import MeshProtocol

  const GRACE := 120.0

  type Endpoint = MeshState.Endpoint

  /** An export of a member, `share/<node>/<model>`. */
  type Remote = ExportKeys.Remote

  /** The names under which models are offered. Strings that are no name of the mesh are plain. */
  datatype Name = LocalName(model: string) | ShareName(remote: Remote) | MeshName(remote: Remote) | Plain(text: string)

  /** What a deployment sends its requests to: a local runtime, or an export of another member. */
  datatype Target = Runtime(model: string) | Mesh(remote: Remote)

  datatype Source = FromLocal | ForExport | FromImport

  /** `priority` marks a deployment whose local engine is vLLM. */
  datatype Deployment = Deployment(
    owner: Endpoint, name: Name, target: Target, source: Source, priority: bool, order: int)

  /** Identifiers are derived from the owner, the name and the backend, without collisions (see `ModelIds`). */
  datatype Id = Derived(owner: Endpoint, name: Name, target: Target) | Foreign(number: int)

  /**
   An entry of the table: who says to own it, its name, the fingerprint it carries, and whether it is a local
   default that the model catalog manages.
   */
  datatype Entry = Entry(owner: Option<Endpoint>, name: Name, fingerprint: Option<Deployment>, localDefault: bool)

  datatype Import = Import(lastSeen: real, missingSince: Option<real>)

  datatype Key = LocalKey(model: string) | ShareKey(remote: Remote) | ImportKey(remote: Remote) | LogicalKey(remote: Remote)

  datatype MeshError = Conflict | Unavailable

  /**
   What a reconciliation starts from, apart from the table and the imports. `local` are the local models that are
   ready, each with whether its engine is vLLM, and `exports` are the exported ones.
   */
  datatype Inputs = Inputs(
    own: Endpoint,
    canExport: bool,
    inMesh: bool,
    publishes: bool,
    local: map<string, bool>,
    exports: map<Remote, ExportKeys.Config>,
    roster: Option<map<Endpoint, MeshState.Member>>,
    discovered: set<Remote>,
    now: real)

  // ---------- what is wanted ----------

  /** The text of the name of an export. */
  function Text(r: Remote): MeshState.ModelId {
    MeshState.ModelId("share/" + r.node + "/" + r.model)
  }

  /** Some other member of the roster, in force and not a client, exports the model under its own name. */
  predicate Authorized(i: Inputs, r: Remote) {
    && i.canExport && i.roster.Some?
    && exists e :: e in i.roster.value && Offers(i, e, r)
  }

  predicate Offers(i: Inputs, e: Endpoint, r: Remote)
    requires i.roster.Some? && e in i.roster.value
  {
    var m := i.roster.value[e];
    e != i.own && !m.revoked && m.role == MeshState.MagicStick && m.name == r.node && Text(r) in m.exports
  }

  /** The import of a model after a pass: seen now, missing since some time, or gone. */
  function NextImport(i: Inputs, imports: map<Remote, Import>, r: Remote): Option<Import> {
    if !(r in imports || (r in i.discovered && Authorized(i, r))) then None
    else
      var e := if r in i.discovered && Authorized(i, r) then Import(i.now, None) else imports[r];
      var next := if r !in i.discovered && e.missingSince.None? then e.(missingSince := Some(i.now)) else e;
      if Dropped(i, next, r) then None else Some(next)
  }

  predicate Dropped(i: Inputs, e: Import, r: Remote) {
    || !i.canExport || !i.inMesh
    || (i.roster.Some? && !Authorized(i, r))
    || (e.missingSince.Some? && i.now - e.missingSince.value >= GRACE)
  }

  function NextImports(i: Inputs, imports: map<Remote, Import>): map<Remote, Import> {
    map r | r in imports.Keys + i.discovered && NextImport(i, imports, r).Some? :: NextImport(i, imports, r).value
  }

  function LocalDeployment(i: Inputs, m: string): Deployment
    requires m in i.local
  {
    Deployment(i.own, LocalName(m), Runtime(m), FromLocal, i.local[m], 0)
  }

  function ExportDeployment(i: Inputs, r: Remote): Deployment
    requires r in i.exports && i.exports[r].model in i.local
  {
    Deployment(i.own, ShareName(r), Runtime(i.exports[r].model), ForExport, i.local[i.exports[r].model], 0)
  }

  function ImportDeployment(i: Inputs, r: Remote): Deployment {
    Deployment(i.own, MeshName(r), Mesh(r), FromImport, false, 1)
  }

  function LogicalDeployment(i: Inputs, r: Remote): Deployment {
    Deployment(i.own, Plain(r.model), Mesh(r), FromImport, false, 1)
  }

  predicate Owned(own: Endpoint, e: Entry) {
    e.owner == Some(own)
  }

  /** An entry of somebody else has the name. */
  predicate Occupied(own: Endpoint, table: map<Id, Entry>, name: Name) {
    exists id :: id in table && !Owned(own, table[id]) && table[id].name == name
  }

  /** A remote model joins the logical group of its name unless anything but local defaults is in it. */
  predicate Groupable(own: Endpoint, table: map<Id, Entry>, model: string) {
    forall id :: id in table && !Owned(own, table[id]) && table[id].name == Plain(model) ==> table[id].localDefault
  }

  /** The deployments that an appliance wants, given its imports and the entries of others. */
  function Wanted(i: Inputs, imports: map<Remote, Import>, table: map<Id, Entry>, k: Key): Option<Deployment> {
    match k
    case LocalKey(m) =>
      if i.inMesh && i.publishes && m in i.local then Some(LocalDeployment(i, m)) else None
    case ShareKey(r) =>
      if i.inMesh && i.publishes && r in i.exports && i.exports[r].model in i.local then Some(ExportDeployment(i, r)) else None
    case ImportKey(r) =>
      if r in imports then Some(ImportDeployment(i, r)) else None
    case LogicalKey(r) =>
      if r in imports && Groupable(i.own, table, r.model) then Some(LogicalDeployment(i, r)) else None
  }

  function Keys(i: Inputs, imports: map<Remote, Import>): set<Key> {
    (set m | m in i.local :: LocalKey(m)) + (set r | r in i.exports :: ShareKey(r))
      + (set r | r in imports :: ImportKey(r)) + (set r | r in imports :: LogicalKey(r))
  }

  function Desired(i: Inputs, imports: map<Remote, Import>, table: map<Id, Entry>): map<Key, Deployment> {
    map k | k in Keys(i, imports) && Wanted(i, imports, table, k).Some? :: Wanted(i, imports, table, k).value
  }

  function IdOf(d: Deployment): Id {
    Derived(d.owner, d.name, d.target)
  }

  function EntryOf(d: Deployment): Entry {
    Entry(Some(d.owner), d.name, Some(d), false)
  }

  lemma DesiredIs(i: Inputs, imports: map<Remote, Import>, table: map<Id, Entry>, k: Key)
    ensures k in Desired(i, imports, table) <==> Wanted(i, imports, table, k).Some?
    ensures k in Desired(i, imports, table) ==> Desired(i, imports, table)[k] == Wanted(i, imports, table, k).value
  {
  }

  /** Different wishes never share an identifier. */
  lemma IdsAreDistinct(i: Inputs, imports: map<Remote, Import>, table: map<Id, Entry>, k: Key, l: Key)
    requires var d := Desired(i, imports, table); k in d && l in d && IdOf(d[k]) == IdOf(d[l])
    ensures k == l
  {
  }

  // ---------- the state of the table ----------

  /** The entry is the appliance's own and carries the fingerprint of the deployment. */
  predicate Carries(e: Entry, d: Deployment) {
    Owned(d.owner, e) && e.fingerprint == Some(d)
  }

  /** The entries of this appliance are exactly the wanted ones, with their fingerprints. */
  ghost predicate Matches(own: Endpoint, table: map<Id, Entry>, desired: map<Key, Deployment>) {
    && (forall k :: k in desired ==> IdOf(desired[k]) in table && Carries(table[IdOf(desired[k])], desired[k]))
    && (forall id :: id in table && Owned(own, table[id]) ==> Wants(desired, id))
  }

  predicate Wants(desired: map<Key, Deployment>, id: Id) {
    exists k :: k in desired && IdOf(desired[k]) == id
  }

  predicate ForeignAt(own: Endpoint, table: map<Id, Entry>, id: Id) {
    id in table && !Owned(own, table[id])
  }

  /** The entries of others are untouched, and none has been added to them. */
  ghost predicate OthersUntouched(own: Endpoint, before: map<Id, Entry>, after: map<Id, Entry>) {
    forall id ::
      && (ForeignAt(own, before, id) <==> ForeignAt(own, after, id))
      && (ForeignAt(own, before, id) ==> after[id] == before[id])
  }

  /** Derived identifiers of this appliance belong to its own entries. */
  ghost predicate WellOwned(own: Endpoint, table: map<Id, Entry>) {
    forall id :: ForeignAt(own, table, id) ==> !(id.Derived? && id.owner == own)
  }

  ghost predicate NoConflict(own: Endpoint, table: map<Id, Entry>, desired: map<Key, Deployment>) {
    forall k :: k in desired && !k.LogicalKey? ==> !Occupied(own, table, desired[k].name)
  }

  /** All wishes are the appliance's own and have identifiers of their own. */
  ghost predicate WishesOk(own: Endpoint, desired: map<Key, Deployment>) {
    && (forall k :: k in desired ==> desired[k].owner == own)
    && (forall k, l :: k in desired && l in desired && IdOf(desired[k]) == IdOf(desired[l]) ==> k == l)
  }

  lemma DesiredIsOk(i: Inputs, imports: map<Remote, Import>, table: map<Id, Entry>)
    ensures WishesOk(i.own, Desired(i, imports, table))
  {
    var d := Desired(i, imports, table);
    forall k, l | k in d && l in d && IdOf(d[k]) == IdOf(d[l]) ensures k == l {
      IdsAreDistinct(i, imports, table, k, l);
    }
  }

  /** The name of an own entry is the one that its fingerprint was taken of. */
  ghost predicate Faithful(own: Endpoint, table: map<Id, Entry>) {
    forall id :: id in table && Owned(own, table[id]) && table[id].fingerprint.Some? ==>
      table[id].name == table[id].fingerprint.value.name
  }

  /** What a successful reconciliation has made of the table `before`. */
  ghost predicate Reconciled(i: Inputs, imports: map<Remote, Import>, before: map<Id, Entry>, after: map<Id, Entry>) {
    && OthersUntouched(i.own, before, after)
    && Matches(i.own, after, Desired(i, imports, before))
    && NoConflict(i.own, before, Desired(i, imports, before))
  }

  // ---------- what a caller sees ----------

  /** The member is somebody else, in force and no client, bears the name of the node and exports the model. */
  ghost predicate Exporter(i: Inputs, e: Endpoint, m: MeshState.Member, r: Remote) {
    && e != i.own && !m.revoked && m.role != MeshState.Client
    && m.name == r.node && MeshState.ModelId("share/" + r.node + "/" + r.model) in m.exports
  }

  ghost predicate ExportedElsewhere(i: Inputs, r: Remote) {
    i.roster.Some? && exists e :: e in i.roster.value && Exporter(i, e, i.roster.value[e], r)
  }

  /**
   An import was there before and is not missing for two minutes yet; and if there is a roster, it still names somebody
   who exports the model.
   */
  ghost predicate StillHeld(i: Inputs, before: map<Remote, Import>, r: Remote) {
    && r in before && (i.roster.Some? ==> ExportedElsewhere(i, r))
    && (before[r].missingSince.Some? ==> i.now - before[r].missingSince.value < 120.0)
  }

  /**
   The imports after a pass of an appliance in a mesh: what has been found and is exported, as seen now, and what is
   still held, as missing if it has not been found. Companions and appliances outside a mesh import nothing.
   */
  ghost predicate ImportsFit(i: Inputs, before: map<Remote, Import>, after: map<Remote, Import>) {
    forall r :: ImportFits(i, before, after, r)
  }

  ghost predicate ImportFits(i: Inputs, before: map<Remote, Import>, after: map<Remote, Import>, r: Remote) {
    var found := r in i.discovered && ExportedElsewhere(i, r);
    && (r in after <==> i.canExport && i.inMesh && (found || StillHeld(i, before, r)))
    && (r in after && found ==> after[r] == Import(i.now, None))
    && (r in after && !found ==>
          after[r] == if r in i.discovered || before[r].missingSince.Some? then before[r]
                      else Import(before[r].lastSeen, Some(i.now)))
  }

  lemma AuthorizedIsSeen(i: Inputs, r: Remote)
    ensures i.canExport ==> (Authorized(i, r) <==> ExportedElsewhere(i, r))
  {
    if i.roster.Some? {
      assert forall e :: e in i.roster.value ==> (Offers(i, e, r) <==> Exporter(i, e, i.roster.value[e], r));
    }
  }

  lemma ImportsAreSeen(i: Inputs, imports: map<Remote, Import>)
    ensures ImportsFit(i, imports, NextImports(i, imports))
    ensures i.roster.Some? ==> forall r :: r in NextImports(i, imports) ==> ExportedElsewhere(i, r)
  {
    hide ImportFits, ExportedElsewhere;
    forall r ensures ImportFits(i, imports, NextImports(i, imports), r) {
      ImportIsSeen(i, imports, r);
    }
    forall r | i.roster.Some? && r in NextImports(i, imports) ensures ExportedElsewhere(i, r) {
      ImportIsSeen(i, imports, r);
    }
  }

  lemma ImportIsSeen(i: Inputs, imports: map<Remote, Import>, r: Remote)
    ensures ImportFits(i, imports, NextImports(i, imports), r)
    ensures i.roster.Some? && r in NextImports(i, imports) ==> ExportedElsewhere(i, r)
  {
    AuthorizedIsSeen(i, r);
    hide Authorized, ExportedElsewhere;
    assert r in NextImports(i, imports) <==> NextImport(i, imports, r).Some?;
  }

  /**
   A deployment is due: a ready local model or an export of one, if the appliance publishes in a mesh, each under its
   own name; an import under its own name, and as a fallback under the bare name of the model, where all other entries
   are local defaults.
   */
  ghost predicate Due(i: Inputs, imports: map<Remote, Import>, table: map<Id, Entry>, d: Deployment) {
    && d.owner == i.own
    && match d.name
       case LocalName(m) =>
         && i.inMesh && i.publishes && m in i.local && d.target == Runtime(m)
         && d.source == FromLocal && d.priority == i.local[m] && d.order == 0
       case ShareName(r) =>
         && i.inMesh && i.publishes && r in i.exports && i.exports[r].model in i.local
         && d.target == Runtime(i.exports[r].model)
         && d.source == ForExport && d.priority == i.local[i.exports[r].model] && d.order == 0
       case MeshName(r) =>
         && r in imports && d.target == Mesh(r) && d.source == FromImport && !d.priority && d.order == 1
       case Plain(model) =>
         && d.target.Mesh? && d.target.remote in imports && d.target.remote.model == model
         && d.source == FromImport && !d.priority && d.order == 1
         && forall id :: id in table && table[id].owner != Some(i.own) && table[id].name == d.name ==> table[id].localDefault
  }

  /**
   The appliance's own entries are exactly those of the deployments that are due, and nobody else has an entry under
   one of their names, the bare ones apart.
   */
  ghost predicate TableFits(i: Inputs, imports: map<Remote, Import>, before: map<Id, Entry>, after: map<Id, Entry>) {
    && (forall d :: Due(i, imports, before, d) ==> HeldAs(i.own, after, d))
    && (forall id :: id in after && after[id].owner == Some(i.own) ==>
          exists d :: Due(i, imports, before, d) && HeldAs(i.own, after, d) && id == Derived(i.own, d.name, d.target))
    && (forall d, id :: Due(i, imports, before, d) && id in before && before[id].name == d.name ==>
          d.name.Plain? || before[id].owner == Some(i.own))
  }

  ghost predicate HeldAs(own: Endpoint, table: map<Id, Entry>, d: Deployment) {
    && Derived(own, d.name, d.target) in table
    && table[Derived(own, d.name, d.target)].owner == Some(own)
    && table[Derived(own, d.name, d.target)].fingerprint == Some(d)
  }

  function KeyFor(d: Deployment): Key
    requires d.name.Plain? ==> d.target.Mesh?
  {
    match d.name
    case LocalName(m) => LocalKey(m)
    case ShareName(r) => ShareKey(r)
    case MeshName(r) => ImportKey(r)
    case Plain(_) => LogicalKey(d.target.remote)
  }

  /** What is due is wanted. */
  lemma DueIsWanted(i: Inputs, imports: map<Remote, Import>, table: map<Id, Entry>, d: Deployment)
    requires Due(i, imports, table, d)
    ensures var desired := Desired(i, imports, table); KeyFor(d) in desired && desired[KeyFor(d)] == d
    ensures KeyFor(d).LogicalKey? <==> d.name.Plain?
  {
    hide Desired;
    DesiredIs(i, imports, table, KeyFor(d));
  }

  /** And what is wanted is due. */
  lemma WantedIsDue(i: Inputs, imports: map<Remote, Import>, table: map<Id, Entry>, k: Key)
    requires k in Desired(i, imports, table)
    ensures Due(i, imports, table, Desired(i, imports, table)[k])
  {
    hide Desired;
    DesiredIs(i, imports, table, k);
  }

  lemma TableIsSeen(i: Inputs, imports: map<Remote, Import>, before: map<Id, Entry>, after: map<Id, Entry>)
    requires Reconciled(i, imports, before, after)
    ensures TableFits(i, imports, before, after)
  {
    hide Due, Desired;
    var desired := Desired(i, imports, before);
    forall d | Due(i, imports, before, d) ensures HeldAs(i.own, after, d) {
      DueIsWanted(i, imports, before, d);
      DueIsOwn(i, imports, before, d);
    }
    forall id | id in after && after[id].owner == Some(i.own)
      ensures exists d :: Due(i, imports, before, d) && HeldAs(i.own, after, d) && id == Derived(i.own, d.name, d.target)
    {
      assert Wants(desired, id);
      var k :| k in desired && IdOf(desired[k]) == id;
      WantedIsDue(i, imports, before, k);
      DueIsOwn(i, imports, before, desired[k]);
    }
    forall d, id | Due(i, imports, before, d) && id in before && before[id].name == d.name
      ensures d.name.Plain? || before[id].owner == Some(i.own)
    {
      DueIsWanted(i, imports, before, d);
    }
  }

  lemma DueIsOwn(i: Inputs, imports: map<Remote, Import>, table: map<Id, Entry>, d: Deployment)
    requires Due(i, imports, table, d)
    ensures d.owner == i.own
  {
  }

  /** Somebody else has an entry under a name that is due, other than a bare one. */
  ghost predicate Contested(i: Inputs, imports: map<Remote, Import>, table: map<Id, Entry>) {
    exists d, id ::
      && Due(i, imports, table, d) && !d.name.Plain?
      && id in table && table[id].owner != Some(i.own) && table[id].name == d.name
  }

  lemma ConflictIsSeen(i: Inputs, imports: map<Remote, Import>, table: map<Id, Entry>)
    ensures !NoConflict(i.own, table, Desired(i, imports, table)) <==> Contested(i, imports, table)
  {
    var desired := Desired(i, imports, table);
    hide Desired, Due;
    if !NoConflict(i.own, table, desired) {
      var k :| k in desired && !k.LogicalKey? && Occupied(i.own, table, desired[k].name);
      WantedIsDue(i, imports, table, k);
      NamedByItsKey(i, imports, table, k);
      var id :| id in table && !Owned(i.own, table[id]) && table[id].name == desired[k].name;
    }
    if Contested(i, imports, table) {
      var d, id :| && Due(i, imports, table, d) && !d.name.Plain?
                   && id in table && table[id].owner != Some(i.own) && table[id].name == d.name;
      DueIsWanted(i, imports, table, d);
      assert Occupied(i.own, table, desired[KeyFor(d)].name);
    }
  }

  lemma NamedByItsKey(i: Inputs, imports: map<Remote, Import>, table: map<Id, Entry>, k: Key)
    requires k in Desired(i, imports, table)
    ensures Desired(i, imports, table)[k].name.Plain? <==> k.LogicalKey?
  {
    hide Desired;
    DesiredIs(i, imports, table, k);
  }

  /** No own entry forwards to a model that nobody who is in force exports, if there is a roster. */
  ghost predicate ForwardsToMembers(i: Inputs, table: map<Id, Entry>) {
    forall id :: id in table && table[id].owner == Some(i.own) && i.roster.Some? ==>
      && table[id].fingerprint.Some?
      && (table[id].fingerprint.value.target.Mesh? ==> ExportedElsewhere(i, table[id].fingerprint.value.target.remote))
  }

  lemma RoutesAreSeen(i: Inputs, first: map<Remote, Import>, imports: map<Remote, Import>,
                      before: map<Id, Entry>, after: map<Id, Entry>)
    requires ImportsFit(i, first, imports) && TableFits(i, imports, before, after)
    ensures ForwardsToMembers(i, after)
  {
    hide ExportedElsewhere, ImportsFit;
    forall id | id in after && after[id].owner == Some(i.own) && i.roster.Some?
      ensures after[id].fingerprint.Some?
      ensures after[id].fingerprint.value.target.Mesh? ==> ExportedElsewhere(i, after[id].fingerprint.value.target.remote)
    {
      var d :| Due(i, imports, before, d) && HeldAs(i.own, after, d) && id == Derived(i.own, d.name, d.target);
      if d.target.Mesh? { ImportedIsExported(i, first, imports, d.target.remote); }
    }
  }

  lemma ImportedIsExported(i: Inputs, before: map<Remote, Import>, after: map<Remote, Import>, r: Remote)
    requires ImportsFit(i, before, after) && r in after && i.roster.Some?
    ensures ExportedElsewhere(i, r)
  {
    assert ImportFits(i, before, after, r);
  }

  // ---------- convergence ----------

  /** No import that is missing runs out of its grace before `later`. */
  predicate NothingRunsOut(imports: map<Remote, Import>, later: real) {
    forall r :: r in imports && imports[r].missingSince.Some? ==> later - imports[r].missingSince.value < GRACE
  }

  lemma NextStays(i: Inputs, imports: map<Remote, Import>, later: real, r: Remote)
    requires later >= i.now && NothingRunsOut(NextImports(i, imports), later)
    ensures r in NextImports(i.(now := later), NextImports(i, imports)) <==> r in NextImports(i, imports)
  {
    var next, j := NextImports(i, imports), i.(now := later);
    assert Authorized(j, r) == Authorized(i, r) by {
      if i.roster.Some? {
        assert forall e :: e in i.roster.value ==> Offers(i, e, r) == Offers(j, e, r);
      }
    }
    assert r in next ==> next[r] == NextImport(i, imports, r).value;
  }

  /** A pass right after another one changes no import. */
  lemma ImportsConverge(i: Inputs, imports: map<Remote, Import>)
    ensures NextImports(i, NextImports(i, imports)) == NextImports(i, imports)
  {
    var next := NextImports(i, imports);
    assert NothingRunsOut(next, i.now);
    forall r ensures r in NextImports(i, next) <==> r in next {
      NextStays(i, imports, i.now, r);
    }
  }

  lemma GroupableStays(own: Endpoint, before: map<Id, Entry>, after: map<Id, Entry>, model: string)
    requires OthersUntouched(own, before, after)
    ensures Groupable(own, before, model) <==> Groupable(own, after, model)
  {
    if Groupable(own, before, model) {
      forall id | id in after && !Owned(own, after[id]) && after[id].name == Plain(model) ensures after[id].localDefault {
        assert ForeignAt(own, after, id) && ForeignAt(own, before, id);
      }
    }
    if Groupable(own, after, model) {
      forall id | id in before && !Owned(own, before[id]) && before[id].name == Plain(model) ensures before[id].localDefault {
        assert ForeignAt(own, after, id) && ForeignAt(own, before, id);
      }
    }
  }

  /**
   Once a reconciliation has succeeded, another one on the same inputs, at the same time or later, wants exactly
   the same and finds it in place, so it writes nothing; unless a missing import has run out of its grace.
   */
  lemma ReconciliationConverges(i: Inputs, imports: map<Remote, Import>, before: map<Id, Entry>,
                                after: map<Id, Entry>, later: real)
    requires OthersUntouched(i.own, before, after)
    requires Matches(i.own, after, Desired(i, NextImports(i, imports), before))
    requires later >= i.now && NothingRunsOut(NextImports(i, imports), later)
    ensures var j := i.(now := later);
      Matches(i.own, after, Desired(j, NextImports(j, NextImports(i, imports)), after))
  {
    hide Desired, NextImport, Dropped;
    var next, j := NextImports(i, imports), i.(now := later);
    var again := NextImports(j, next);
    forall r ensures r in again <==> r in next {
      NextStays(i, imports, later, r);
    }
    DesiredStays(i, next, before, j, again, after);
  }

  /** What is wanted depends on which imports there are, not on when they were seen. */
  lemma DesiredStays(i: Inputs, next: map<Remote, Import>, before: map<Id, Entry>,
                     j: Inputs, again: map<Remote, Import>, after: map<Id, Entry>)
    requires j == i.(now := j.now) && OthersUntouched(i.own, before, after)
    requires forall r :: r in again <==> r in next
    ensures Desired(j, again, after) == Desired(i, next, before)
  {
    var d, e := Desired(i, next, before), Desired(j, again, after);
    forall k ensures k in d <==> k in e ensures k in d ==> d[k] == e[k] {
      WantedStays(i, next, before, j, again, after, k);
      DesiredIs(i, next, before, k);
      DesiredIs(j, again, after, k);
    }
  }

  lemma WantedStays(i: Inputs, next: map<Remote, Import>, before: map<Id, Entry>,
                    j: Inputs, again: map<Remote, Import>, after: map<Id, Entry>, k: Key)
    requires j == i.(now := j.now) && OthersUntouched(i.own, before, after)
    requires forall r :: r in again <==> r in next
    ensures Wanted(i, next, before, k) == Wanted(j, again, after, k)
  {
    if k.LogicalKey? { GroupableStays(i.own, before, after, k.remote.model); }
  }

  // ---------- steps of the work on imports and table ----------

  predicate Becomes(current: map<Remote, Import>, r: Remote, next: Option<Import>) {
    (r in current <==> next.Some?) && (r in current ==> current[r] == next.value)
  }

  lemma AllBecome(i: Inputs, imports: map<Remote, Import>, current: map<Remote, Import>)
    requires current.Keys <= imports.Keys + i.discovered
    requires forall r :: r in imports.Keys + (set r | r in i.discovered && Authorized(i, r)) ==>
      Becomes(current, r, NextImport(i, imports, r))
    requires forall r :: r in current ==> r in imports || Authorized(i, r)
    ensures current == NextImports(i, imports)
  {
    var next := NextImports(i, imports);
    forall r | r in current || r in next ensures r in current && r in next && current[r] == next[r] {
      assert r in imports.Keys + (set r | r in i.discovered && Authorized(i, r));
      assert Becomes(current, r, NextImport(i, imports, r));
    }
  }

  lemma WriteTouchesNoOther(own: Endpoint, before: map<Id, Entry>, table: map<Id, Entry>, id: Id, e: Entry)
    requires OthersUntouched(own, before, table) && WellOwned(own, table)
    requires id.Derived? && id.owner == own && Owned(own, e)
    ensures OthersUntouched(own, before, table[id := e]) && WellOwned(own, table[id := e])
  {
    forall x ensures ForeignAt(own, table[id := e], x) <==> ForeignAt(own, table, x) {
      assert !ForeignAt(own, table, id);
    }
  }

  lemma WriteIsFaithful(own: Endpoint, table: map<Id, Entry>, d: Deployment)
    ensures Faithful(own, table) ==> Faithful(own, table[IdOf(d) := EntryOf(d)])
  {
  }

  lemma DeleteTouchesNoOther(own: Endpoint, before: map<Id, Entry>, table: map<Id, Entry>, id: Id)
    requires OthersUntouched(own, before, table) && WellOwned(own, table)
    requires !ForeignAt(own, table, id)
    ensures OthersUntouched(own, before, table - {id}) && WellOwned(own, table - {id})
  {
    forall x ensures ForeignAt(own, table - {id}, x) <==> ForeignAt(own, table, x) {
    }
  }

  /** The wishes outside `rest` have been dealt with; nothing else in the table has changed. */
  ghost predicate Written(existing: map<Id, Entry>, table: map<Id, Entry>, desired: map<Key, Deployment>, rest: set<Key>) {
    && (forall k :: k in desired && k !in rest ==> IdOf(desired[k]) in table && Carries(table[IdOf(desired[k])], desired[k]))
    && (forall id :: id in table ==> id in existing || Wants(desired, id))
    && (forall id :: id in existing && !Wants(desired, id) ==> id in table && table[id] == existing[id])
    && (forall k :: k in desired && k in rest ==> Same(existing, table, IdOf(desired[k])))
  }

  predicate Same(existing: map<Id, Entry>, table: map<Id, Entry>, id: Id) {
    (id in table <==> id in existing) && (id in table ==> table[id] == existing[id])
  }

  /** A failed write may have happened or not; in both cases nothing else is affected. */
  lemma WritesOne(own: Endpoint, existing: map<Id, Entry>, table: map<Id, Entry>, desired: map<Key, Deployment>,
                  rest: set<Key>, k: Key)
    requires WishesOk(own, desired) && Written(existing, table, desired, rest) && k in desired && k in rest
    ensures Written(existing, table[IdOf(desired[k]) := EntryOf(desired[k])], desired, rest - {k})
  {
    var after := table[IdOf(desired[k]) := EntryOf(desired[k])];
    assert Wants(desired, IdOf(desired[k]));
    forall l | l in desired && l in rest - {k} ensures Same(existing, after, IdOf(desired[l])) {
      assert IdOf(desired[l]) != IdOf(desired[k]);
      assert Same(existing, table, IdOf(desired[l]));
    }
    forall l | l in desired && l !in rest - {k}
      ensures IdOf(desired[l]) in after && Carries(after[IdOf(desired[l])], desired[l])
    {
      if l != k { assert IdOf(desired[l]) != IdOf(desired[k]); }
    }
  }

  lemma DeletesOne(own: Endpoint, existing: map<Id, Entry>, before: map<Id, Entry>, table: map<Id, Entry>,
                   desired: map<Key, Deployment>, id: Id)
    requires WellOwned(own, table) && OthersUntouched(own, existing, table)
    requires id in existing && Owned(own, existing[id]) && !Wants(desired, id)
    requires forall x :: Wants(desired, x) ==> Same(before, table, x)
    ensures WellOwned(own, table - {id}) && OthersUntouched(own, existing, table - {id})
    ensures Faithful(own, table) ==> Faithful(own, table - {id})
    ensures forall x :: Wants(desired, x) ==> Same(before, table - {id}, x)
  {
    hide Wants;
    assert !ForeignAt(own, existing, id);
    DeleteTouchesNoOther(own, existing, table, id);
    forall x | Wants(desired, x) ensures Same(before, table - {id}, x) {
      assert Same(before, table, x);
    }
  }

  lemma KeepsOne(existing: map<Id, Entry>, table: map<Id, Entry>, desired: map<Key, Deployment>, rest: set<Key>, k: Key)
    requires Written(existing, table, desired, rest) && k in desired && k in rest
    requires IdOf(desired[k]) in existing && Carries(existing[IdOf(desired[k])], desired[k])
    ensures Written(existing, table, desired, rest - {k})
  {
    assert Same(existing, table, IdOf(desired[k]));
  }

  lemma MatchesCarries(own: Endpoint, existing: map<Id, Entry>, desired: map<Key, Deployment>, k: Key)
    requires k in desired
    ensures Matches(own, existing, desired) ==>
      IdOf(desired[k]) in existing && Carries(existing[IdOf(desired[k])], desired[k])
  {
  }

  /** What a pass over the wishes has done to the table, complete or not, in terms of identifiers. */
  lemma WrittenMeans(existing: map<Id, Entry>, table: map<Id, Entry>, desired: map<Key, Deployment>, rest: set<Key>)
    requires Written(existing, table, desired, rest)
    ensures rest == {} ==>
      forall k :: k in desired ==> IdOf(desired[k]) in table && Carries(table[IdOf(desired[k])], desired[k])
    ensures forall id :: id in table ==> id in existing || Wants(desired, id)
    ensures forall id :: id in existing && !Wants(desired, id) ==> id in table && table[id] == existing[id]
  {
  }

  class ModelSync {
    /** Whether the calls about deployments succeed. */
    const smooth: bool
    var table: map<Id, Entry>
    var imports: map<Remote, Import>
    const exportKeys: ExportKeys.ExportKeys
    ghost var writes: nat

    constructor (table: map<Id, Entry>, exportKeys: ExportKeys.ExportKeys, smooth: bool)
      ensures this.table == table && this.exportKeys == exportKeys && imports == map[] && writes == 0
      ensures this.smooth == smooth
    {
      this.smooth := smooth;
      this.table := table;
      this.exportKeys := exportKeys;
      imports := map[];
      writes := 0;
    }

    // ---------- calls ----------

    method Put(d: Deployment) returns (r: Result<(), MeshError>)
      modifies `table, `writes
      ensures table == old(table) || table == old(table)[IdOf(d) := EntryOf(d)]
      ensures r.Ok? ==> table == old(table)[IdOf(d) := EntryOf(d)]
      ensures r.Err? ==> r.error == Unavailable
      ensures smooth ==> r.Ok?
    {
      writes := writes + 1;
      var arrives: bool, answers: bool := *, *;
      if arrives || smooth { table := table[IdOf(d) := EntryOf(d)]; }
      return if (arrives && answers) || smooth then Ok(()) else Err(Unavailable);
    }

    method Delete(id: Id) returns (r: Result<(), MeshError>)
      modifies `table, `writes
      ensures table == old(table) || table == old(table) - {id}
      ensures r.Ok? ==> table == old(table) - {id}
      ensures r.Err? ==> r.error == Unavailable
      ensures smooth ==> r.Ok?
    {
      writes := writes + 1;
      var arrives: bool, answers: bool := *, *;
      if arrives || smooth { table := table - {id}; }
      return if (arrives && answers) || smooth then Ok(()) else Err(Unavailable);
    }

    // ---------- imports ----------

    method NoteDiscovered(i: Inputs) returns (current: map<Remote, Import>)
      ensures current.Keys == imports.Keys + set r | r in i.discovered && Authorized(i, r)
      ensures forall r :: r in current ==>
        current[r] == if r in i.discovered && Authorized(i, r) then Import(i.now, None) else imports[r]
    {
      current := imports;
      var found := set r | r in i.discovered && Authorized(i, r);
      var rest := found;
      while rest != {}
        invariant rest <= found
        invariant current.Keys == imports.Keys + (found - rest)
        invariant forall r :: r in current ==>
          current[r] == if r in found - rest then Import(i.now, None) else imports[r]
      {
        var r :| r in rest;
        current := current[r := Import(i.now, None)];
        rest := rest - {r};
      }
    }

    /** Imports that are gone stay for a while; those that are no longer allowed go at once. */
    method UpdateImports(i: Inputs)
      modifies `imports
      ensures imports == NextImports(i, old(imports))
      ensures ImportsFit(i, old(imports), imports)
      ensures i.roster.Some? ==> forall r :: r in imports ==> ExportedElsewhere(i, r)
    {
      hide ImportsFit, ExportedElsewhere;
      hide NextImports;
      ImportsAreSeen(i, imports);
      var current := NoteDiscovered(i);
      ghost var middle := current;
      var todo := current.Keys;
      while todo != {}
        invariant todo <= current.Keys <= middle.Keys
        invariant forall r :: r in todo ==> current[r] == middle[r]
        invariant forall r :: r in middle.Keys - todo ==> Becomes(current, r, NextImport(i, imports, r))
      {
        hide Dropped, Authorized;
        var r :| r in todo;
        var entry := current[r];
        if r !in i.discovered && entry.missingSince.None? {
          entry := entry.(missingSince := Some(i.now));
          current := current[r := entry];
        }
        if Dropped(i, entry, r) {
          current := current - {r};
        }
        todo := todo - {r};
      }
      AllBecome(i, imports, current);
      imports := current;
    }

    // ---------- the table ----------

    /** Creates and updates what is wanted and not there, with the listing `existing` as the reference. */
    method Write(own: Endpoint, existing: map<Id, Entry>, desired: map<Key, Deployment>) returns (r: Result<(), MeshError>)
      requires table == existing && WellOwned(own, table) && WishesOk(own, desired)
      modifies `table, `writes
      ensures WellOwned(own, table) && OthersUntouched(own, existing, table)
      ensures Faithful(own, existing) ==> Faithful(own, table)
      ensures r.Ok? ==> NoConflict(own, existing, desired)
      ensures r.Ok? ==> forall k :: k in desired ==> IdOf(desired[k]) in table && Carries(table[IdOf(desired[k])], desired[k])
      ensures forall id :: id in table ==> id in existing || Wants(desired, id)
      ensures forall id :: id in existing && !Wants(desired, id) ==> id in table && table[id] == existing[id]
      ensures r == Err(Conflict) ==> !NoConflict(own, existing, desired)
      ensures Matches(own, existing, desired) ==> table == existing && writes == old(writes)
      ensures smooth && NoConflict(own, existing, desired) ==> r.Ok?
    {
      var rest := desired.Keys;
      while rest != {}
        invariant rest <= desired.Keys
        invariant WellOwned(own, table) && OthersUntouched(own, existing, table)
        invariant forall k :: k in desired.Keys - rest ==> k.LogicalKey? || !Occupied(own, existing, desired[k].name)
        invariant Written(existing, table, desired, rest)
        invariant Faithful(own, existing) ==> Faithful(own, table)
        invariant Matches(own, existing, desired) ==> table == existing && writes == old(writes)
      {
        hide Matches, Wants, OthersUntouched, WellOwned, Written, Carries, Faithful;
        var k :| k in rest;
        var d := desired[k];
        if !k.LogicalKey? && Occupied(own, existing, d.name) {
          WrittenMeans(existing, table, desired, rest);
          return Err(Conflict);
        }
        if !(IdOf(d) in existing && Carries(existing[IdOf(d)], d)) {
          MatchesCarries(own, existing, desired, k);
          WriteTouchesNoOther(own, existing, table, IdOf(d), EntryOf(d));
          WritesOne(own, existing, table, desired, rest, k);
          WriteIsFaithful(own, table, d);
          ghost var before := table;
          r := Put(d);
          if r.Err? {
            WrittenMeans(existing, table, desired, if table == before then rest else rest - {k});
            return;
          }
        } else {
          KeepsOne(existing, table, desired, rest, k);
        }
        rest := rest - {k};
      }
      WrittenMeans(existing, table, desired, rest);
      return Ok(());
    }

    /** Deletes the appliance's own entries that are not wanted. */
    method Prune(own: Endpoint, existing: map<Id, Entry>, desired: map<Key, Deployment>) returns (r: Result<(), MeshError>)
      requires WellOwned(own, table) && OthersUntouched(own, existing, table)
      requires forall id :: id in table ==> id in existing || Wants(desired, id)
      requires forall id :: id in existing && !Wants(desired, id) ==> id in table && table[id] == existing[id]
      modifies `table, `writes
      ensures WellOwned(own, table) && OthersUntouched(own, existing, table)
      ensures Faithful(own, old(table)) ==> Faithful(own, table)
      ensures forall id :: Wants(desired, id) ==> Same(old(table), table, id)
      ensures r.Ok? ==> forall id :: id in table && Owned(own, table[id]) ==> Wants(desired, id)
      ensures r.Err? ==> r.error == Unavailable
      ensures Matches(own, existing, desired) ==> writes == old(writes)
      ensures smooth ==> r.Ok?
    {
      hide Faithful, WellOwned, OthersUntouched, Wants;
      var stale := set id | id in existing && Owned(own, existing[id]) && !Wants(desired, id);
      var rest := stale;
      while rest != {}
        invariant rest <= stale
        invariant WellOwned(own, table) && OthersUntouched(own, existing, table)
        invariant Faithful(own, old(table)) ==> Faithful(own, table)
        invariant forall id :: Wants(desired, id) ==> Same(old(table), table, id)
        invariant forall id :: id in table && !Wants(desired, id) ==> id in existing && table[id] == existing[id]
        invariant forall id :: id in stale - rest ==> id !in table
        invariant Matches(own, existing, desired) ==> stale == {} && writes == old(writes)
      {
        var id :| id in rest;
        DeletesOne(own, existing, old(table), table, desired, id);
        r := Delete(id);
        if r.Err? { return; }
        rest := rest - {id};
      }
      forall id | id in table && Owned(own, table[id]) ensures Wants(desired, id) {
        assert id !in stale;
      }
      return Ok(());
    }

    /**
     One reconciliation. Entries of others are untouched however it ends; on success the appliance's entries are
     exactly the wanted ones, and every export has a key that fits; and if the entries already were the wanted ones,
     none is written.
     */
    method Reconcile(i: Inputs) returns (r: Result<(), MeshError>)
      requires WellOwned(i.own, table) && exportKeys.Valid()
      modifies this, exportKeys
      ensures exportKeys.Valid()
      ensures if r.Ok? then ExportKeys.Served(exportKeys.keys, i.exports, i.now) else exportKeys.keys == old(exportKeys.keys)
      ensures r.Ok? ==> ExportKeys.KeysFit(old(exportKeys.keys), exportKeys.keys, i.exports, i.now, exportKeys.live)
      ensures imports == NextImports(i, old(imports))
      ensures WellOwned(i.own, table) && OthersUntouched(i.own, old(table), table)
      ensures old(Faithful(i.own, table)) ==> Faithful(i.own, table)
      ensures r.Ok? ==> Reconciled(i, imports, old(table), table)
      ensures var desired := Desired(i, imports, old(table));
        && (r == Err(Conflict) ==> !NoConflict(i.own, old(table), desired))
        && (Matches(i.own, old(table), desired) ==> writes == old(writes))
      ensures ImportsFit(i, old(imports), imports)
      ensures r.Ok? ==> TableFits(i, imports, old(table), table) && ForwardsToMembers(i, table)
      ensures r == Err(Conflict) ==> Contested(i, imports, old(table))
      ensures smooth && |exportKeys.outcomes| <= old(exportKeys.calls) ==> (r.Ok? <==> !Contested(i, imports, old(table)))
    {
      hide Faithful, WellOwned, OthersUntouched, Wants, Desired, NextImports;
      hide ImportsFit, TableFits, ForwardsToMembers, Contested, NoConflict;
      UpdateImports(i);
      var answers: bool := *;
      if !answers && !smooth {
        ItselfIsUntouched(i.own, table);
        return Err(Unavailable);
      }
      var existing := table;
      var desired := Desired(i, imports, existing);
      DesiredIsOk(i, imports, existing);
      ConflictIsSeen(i, imports, existing);
      r := Write(i.own, existing, desired);
      if r.Err? {
        return;
      }
      ghost var written := table;
      r := Prune(i.own, existing, desired);
      if r.Ok? {
        forall k | k in desired ensures IdOf(desired[k]) in table && Carries(table[IdOf(desired[k])], desired[k]) {
          WishIsWanted(desired, k);
          assert Same(written, table, IdOf(desired[k]));
        }
        TableIsSeen(i, imports, existing, table);
        RoutesAreSeen(i, old(imports), imports, existing, table);
        var provided := exportKeys.Reconcile(i.exports, i.now);
        if provided.Err? { r := Err(Unavailable); }
      }
    }
  }

  lemma ItselfIsUntouched(own: Endpoint, table: map<Id, Entry>)
    ensures OthersUntouched(own, table, table)
  {
  }

  lemma WishIsWanted(desired: map<Key, Deployment>, k: Key)
    requires k in desired
    ensures Wants(desired, IdOf(desired[k]))
  {
  }
}
