/**
 The text from which the identifier of a deployment is derived, and why no two wishes of an appliance share it. The
 name-based UUID of that text is taken to be free of collisions.
 */
module ModelIds {
  import opened ModelSync
  import opened MeshNames
  import MeshProtocol

  function NameText(n: Name): string {
    match n
    case LocalName(model) => "local/" + model
    case ShareName(r) => "share/" + r.node + "/" + r.model
    case MeshName(r) => "mesh/" + r.node + "/" + r.model
    case Plain(text) => text
  }

  function BackendText(t: Target): string {
    match t
    case Runtime(model) => model
    case Mesh(r) => "share/" + r.node + "/" + r.model
  }

  /** The owner, the name and the backend, separated by colons. */
  function IdText(d: Deployment): string {
    d.owner.key + ":" + NameText(d.name) + ":" + BackendText(d.target)
  }

  /** Exports and imports bear the names of members and models; the names of local models may be anything. */
  ghost predicate WellNamed(remotes: set<Remote>) {
    forall r :: r in remotes ==> ValidName(r.node) && ValidModel(r.model)
  }

  /** Two texts that are cut at the first occurrence of a character have equal parts if they are equal. */
  lemma CutAt(a: string, b: string, x: string, y: string, c: char)
    requires c !in a && c !in b && a + [c] + x == b + [c] + y
    ensures a == b && x == y
  {
    var s, t := a + [c] + x, b + [c] + y;
    assert s[|a|] == c && t[|b|] == c;
    assert forall i :: 0 <= i < |a| ==> s[i] == a[i];
    assert forall i :: 0 <= i < |b| ==> t[i] == b[i];
    assert |a| == |b|;
    assert s[..|a|] == a && t[..|b|] == b && s[|a| + 1..] == x && t[|b| + 1..] == y;
  }

  /** What stands before the first slash of a wish's name and backend. */
  function Head(k: Key): string {
    match k
    case LocalKey(_) => "local"
    case ShareKey(_) => "share"
    case ImportKey(_) => "mesh"
    case LogicalKey(r) => r.model + ":share"
  }

  /** And what stands behind it. */
  function Tail(i: Inputs, k: Key): string
    requires k.ShareKey? ==> k.remote in i.exports
  {
    match k
    case LocalKey(m) => m + ":" + m
    case ShareKey(r) => r.node + "/" + r.model + ":" + i.exports[r].model
    case ImportKey(r) => r.node + "/" + r.model + ":share/" + r.node + "/" + r.model
    case LogicalKey(r) => r.node + "/" + r.model
  }

  lemma RemoteText(kind: string, r: Remote, rest: string)
    ensures kind + "/" + r.node + "/" + r.model + ":" + rest == kind + "/" + (r.node + "/" + r.model + ":" + rest)
  {
  }

  lemma LocalText(m: string)
    ensures "local/" + m + ":" + m == "local" + "/" + (m + ":" + m)
  {
  }

  lemma LogicalText(r: Remote)
    ensures r.model + ":" + ("share/" + r.node + "/" + r.model) == r.model + ":share" + "/" + (r.node + "/" + r.model)
  {
  }

  lemma ImportText(r: Remote)
    ensures "mesh/" + r.node + "/" + r.model + ":" + ("share/" + r.node + "/" + r.model)
         == "mesh" + "/" + (r.node + "/" + r.model + ":share/" + r.node + "/" + r.model)
  {
    var rest := "share/" + r.node + "/" + r.model;
    assert "mesh/" == "mesh" + "/";
    RemoteText("mesh", r, rest);
    assert r.node + "/" + r.model + ":" + rest == r.node + "/" + r.model + ":share/" + r.node + "/" + r.model;
  }

  lemma TextSplits(i: Inputs, k: Key, name: Name, target: Target)
    requires k.ShareKey? ==> k.remote in i.exports
    requires match k
      case LocalKey(m) => name == LocalName(m) && target == Runtime(m)
      case ShareKey(r) => name == ShareName(r) && target == Runtime(i.exports[r].model)
      case ImportKey(r) => name == MeshName(r) && target == Mesh(r)
      case LogicalKey(r) => name == Plain(r.model) && target == Mesh(r)
    ensures NameText(name) + ":" + BackendText(target) == Head(k) + "/" + Tail(i, k)
  {
    match k
    case LocalKey(m) => LocalText(m);
    case ShareKey(r) =>
      assert "share/" == "share" + "/";
      RemoteText("share", r, i.exports[r].model);
    case ImportKey(r) => ImportText(r);
    case LogicalKey(r) => LogicalText(r);
  }

  lemma TextIs(i: Inputs, imports: map<Remote, Import>, table: map<Id, Entry>, k: Key)
    requires k in Desired(i, imports, table)
    ensures k.ShareKey? ==> k.remote in i.exports
    ensures k.ImportKey? || k.LogicalKey? ==> k.remote in imports
    ensures IdText(Desired(i, imports, table)[k]) == i.own.key + ":" + (Head(k) + "/" + Tail(i, k))
  {
    hide Desired, Head, Tail, NameText, BackendText, Groupable;
    DesiredIs(i, imports, table, k);
    var d := Wanted(i, imports, table, k).value;
    TextSplits(i, k, d.name, d.target);
    Associates(i.own.key + ":", NameText(d.name), ":", BackendText(d.target));
  }

  lemma Associates(a: string, b: string, c: string, d: string)
    ensures a + b + c + d == a + (b + c + d)
  {
  }

  lemma HeadHasNoSlash(k: Key)
    requires k.LogicalKey? ==> ValidModel(k.remote.model)
    ensures '/' !in Head(k)
    ensures ':' in Head(k) <==> k.LogicalKey?
  {
    if k.LogicalKey? { assert Head(k)[|k.remote.model|] == ':'; }
  }

  lemma SameRemote(a: Remote, b: Remote, x: string, y: string)
    requires ValidName(a.node) && ValidModel(a.model) && ValidName(b.node) && ValidModel(b.model)
    requires a.node + "/" + a.model + ":" + x == b.node + "/" + b.model + ":" + y
    ensures a == b
  {
    assert a.node + "/" + a.model + ":" + x == a.node + "/" + (a.model + ":" + x);
    assert b.node + "/" + b.model + ":" + y == b.node + "/" + (b.model + ":" + y);
    CutAt(a.node, b.node, a.model + ":" + x, b.model + ":" + y, '/');
    CutAt(a.model, b.model, x, y, ':');
  }

  lemma SameLocal(m: string, n: string)
    requires m + ":" + m == n + ":" + n
    ensures m == n
  {
    assert (m + ":" + m)[..|m|] == m && (n + ":" + n)[..|n|] == n;
  }

  lemma SameImport(r: Remote, q: Remote)
    requires ValidName(r.node) && ValidModel(r.model) && ValidName(q.node) && ValidModel(q.model)
    requires r.node + "/" + r.model + ":share/" + r.node + "/" + r.model
          == q.node + "/" + q.model + ":share/" + q.node + "/" + q.model
    ensures r == q
  {
    var x, y := "share/" + r.node + "/" + r.model, "share/" + q.node + "/" + q.model;
    assert r.node + "/" + r.model + ":share/" + r.node + "/" + r.model == r.node + "/" + r.model + ":" + x;
    assert q.node + "/" + q.model + ":share/" + q.node + "/" + q.model == q.node + "/" + q.model + ":" + y;
    SameRemote(r, q, x, y);
  }

  lemma SameLogical(r: Remote, q: Remote)
    requires ValidName(r.node) && ValidName(q.node)
    requires r.model + ":share" == q.model + ":share" && r.node + "/" + r.model == q.node + "/" + q.model
    ensures r == q
  {
    assert (r.model + ":share")[..|r.model|] == r.model && (q.model + ":share")[..|q.model|] == q.model;
    CutAt(r.node, q.node, r.model, q.model, '/');
  }

  lemma SameKey(i: Inputs, k: Key, l: Key)
    requires k.ShareKey? ==> k.remote in i.exports
    requires l.ShareKey? ==> l.remote in i.exports
    requires Named(k) && Named(l) && SameKind(k, l) && Head(k) == Head(l) && Tail(i, k) == Tail(i, l)
    ensures k == l
  {
    hide ValidName, ValidModel;
    match k
    case LocalKey(m) => SameLocal(m, l.model);
    case ShareKey(r) => SameRemote(r, l.remote, i.exports[r].model, i.exports[l.remote].model);
    case ImportKey(r) => SameImport(r, l.remote);
    case LogicalKey(r) => SameLogical(r, l.remote);
  }

  predicate SameKind(k: Key, l: Key) {
    && (k.LocalKey? <==> l.LocalKey?)
    && (k.ShareKey? <==> l.ShareKey?)
    && (k.ImportKey? <==> l.ImportKey?)
    && (k.LogicalKey? <==> l.LogicalKey?)
  }

  /** The heads tell the four kinds of wishes apart: only that of a logical name has a colon. */
  lemma HeadsTellKinds(k: Key, l: Key)
    requires Named(k) && Named(l) && Head(k) == Head(l)
    ensures SameKind(k, l)
  {
    HeadHasNoSlash(k);
    HeadHasNoSlash(l);
    assert "local"[0] == 'l' && "share"[0] == 's' && "mesh"[0] == 'm';
  }

  predicate Named(k: Key) {
    k.LocalKey? || (ValidName(k.remote.node) && ValidModel(k.remote.model))
  }

  /**
   Two wishes of an appliance whose identifiers are derived from the same text are the same wish: the four kinds of
   names are told apart by what stands before their first slash or colon. Nothing is asked of the names of local models.
   */
  lemma TextsAreDistinct(i: Inputs, imports: map<Remote, Import>, table: map<Id, Entry>, k: Key, l: Key)
    requires WellNamed(i.exports.Keys) && WellNamed(imports.Keys)
    requires var d := Desired(i, imports, table); k in d && l in d && IdText(d[k]) == IdText(d[l])
    ensures k == l
  {
    hide Desired, IdText, Head, Tail;
    TextIs(i, imports, table, k);
    TextIs(i, imports, table, l);
    HeadHasNoSlash(k);
    HeadHasNoSlash(l);
    var prefix := i.own.key + ":";
    var a, b := Head(k) + "/" + Tail(i, k), Head(l) + "/" + Tail(i, l);
    assert (prefix + a)[|prefix|..] == a && (prefix + b)[|prefix|..] == b;
    CutAt(Head(k), Head(l), Tail(i, k), Tail(i, l), '/');
    HeadsTellKinds(k, l);
    SameKey(i, k, l);
  }

  /** Imports only ever come from rosters, in which members and exports bear such names. */
  lemma ImportsAreWellNamed(i: Inputs, imports: map<Remote, Import>)
    requires i.roster.Some? ==> MeshProtocol.Namespaced(i.roster.value)
    requires WellNamed(imports.Keys)
    ensures WellNamed(NextImports(i, imports).Keys)
  {
    forall r | r in NextImports(i, imports) ensures ValidName(r.node) && ValidModel(r.model) {
      if r !in imports {
        assert Authorized(i, r);
        var e :| e in i.roster.value && Offers(i, e, r);
        ExportNameRoundTrip(r.node, r.model);
        assert Text(r).text == Prefix(r.node) + r.model;
      }
    }
  }
}
