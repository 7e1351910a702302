/**
 The generated JSON Patch that removes legacy frontend fields from the dashboard Deployment, and a model of how an
 API server applies such a patch (sections 4.2, 4.3 and 4.6 of RFC 6902), one operation after the other.
 */
module MigrationPatch {
  import opened Wrappers
  import opened JsonPointer

  const LEGACY_CONTAINERS := {"nginx", "renderer"}
  const LEGACY_CONFIGMAPS := {"ai-appliance-dashboard-nginx", "ai-appliance-dashboard-renderer"}
  const LEGACY_EMPTY_DIRS := {"html", "nginx-cache", "nginx-run", "renderer-tmp"}
  const RELOAD_ANNOTATION := "configmap.reloader.stakater.com/reload"
  const OLD_REVISION := "appliance.magicstick.dev/dashboard-config-revision"
  const DEPLOYMENT := "ai-appliance-dashboard"
  const IMAGE := "ghcr.io/qualityminds/magicstick-dashboard:"

  datatype Mount = Mount(name: string, path: string)

  datatype Container = Container(name: string, image: string, mounts: seq<Mount>)

  datatype Volume = Volume(name: string, emptyDir: bool, configMap: Option<string>)

  datatype Document = Document(
    kind: string, name: string, resourceVersion: string, annotations: map<string, string>,
    templateAnnotations: map<string, string>,
    containers: seq<Container>, initContainers: seq<Container>, volumes: seq<Volume>)

  datatype Op =
    | Test(path: string, value: string)
    | Remove(path: string)
    | Replace(path: string, value: string)

  datatype Problem = NotTheDashboard | FrontendNotReconciled

  // ---------- applying a patch ----------

  function Without<T>(items: seq<T>, index: nat): seq<T>
    requires index < |items|
  {
    items[..index] + items[index + 1..]
  }

  const POD := ["spec", "template", "spec"]

  /** The index that a path of the form base/index names, if it is one of `length` elements. */
  function IndexUnder(tokens: seq<string>, list: string, length: nat): (index: Option<nat>)
    ensures index.Some? ==> index.value < length
  {
    if |tokens| == 5 && tokens[..3] == POD && tokens[3] == list then
      var index := ParseIndex(tokens[4]);
      if index.Some? && index.value < length then index else None
    else None
  }

  function KeyUnder(tokens: seq<string>, base: seq<string>): Option<string> {
    if |tokens| == |base| + 1 && tokens[..|base|] == base then Some(tokens[|base|]) else None
  }

  const ANNOTATIONS := ["metadata", "annotations"]
  const TEMPLATE_ANNOTATIONS := ["spec", "template", "metadata", "annotations"]

  /** Every target of a remove or a replace must exist; any failure fails the whole patch. */
  function ApplyOp(d: Document, op: Op): Option<Document> {
    var parsed := Parse(op.path);
    if parsed.None? then None
    else
      var tokens := parsed.value;
      match op
      case Test(_, value) =>
        if tokens == ["metadata", "resourceVersion"] && d.resourceVersion == value then Some(d) else None
      case Remove(_) =>
        var c, v := IndexUnder(tokens, "containers", |d.containers|), IndexUnder(tokens, "volumes", |d.volumes|);
        var a, t := KeyUnder(tokens, ANNOTATIONS), KeyUnder(tokens, TEMPLATE_ANNOTATIONS);
        if c.Some? then Some(d.(containers := Without(d.containers, c.value)))
        else if v.Some? then Some(d.(volumes := Without(d.volumes, v.value)))
        else if a.Some? && a.value in d.annotations then Some(d.(annotations := d.annotations - {a.value}))
        else if t.Some? && t.value in d.templateAnnotations then
          Some(d.(templateAnnotations := d.templateAnnotations - {t.value}))
        else None
      case Replace(_, value) =>
        var a := KeyUnder(tokens, ANNOTATIONS);
        if a.Some? && a.value in d.annotations then Some(d.(annotations := d.annotations[a.value := value])) else None
  }

  function ApplyAll(d: Document, patch: seq<Op>): Option<Document>
    decreases |patch|
  {
    if patch == [] then Some(d)
    else
      var next := ApplyOp(d, patch[0]);
      if next.None? then None else ApplyAll(next.value, patch[1..])
  }

  lemma {:induction false} ApplyConcat(d: Document, a: seq<Op>, b: seq<Op>)
    ensures ApplyAll(d, a + b) ==
            if ApplyAll(d, a).None? then None else ApplyAll(ApplyAll(d, a).value, b)
    decreases |a|
  {
    if a == [] {
      assert a + b == b;
    } else {
      assert (a + b)[1..] == a[1..] + b;
      if ApplyOp(d, a[0]).Some? { ApplyConcat(ApplyOp(d, a[0]).value, a[1..], b); }
    }
  }

  // ---------- which items go ----------

  predicate LegacyContainer(c: Container) {
    c.name in LEGACY_CONTAINERS
  }

  predicate LegacyVolume(v: Volume) {
    (v.name in LEGACY_EMPTY_DIRS && v.emptyDir) || (v.configMap.Some? && v.configMap.value in LEGACY_CONFIGMAPS)
  }

  function Filter<T>(items: seq<T>, keep: T -> bool): seq<T> {
    if items == [] then []
    else
      var last := |items| - 1;
      if keep(items[last]) then Filter(items[..last], keep) + [items[last]] else Filter(items[..last], keep)
  }

  const KEEP_CONTAINER: Container -> bool := c => !LegacyContainer(c)

  function KeptContainers(containers: seq<Container>): seq<Container> {
    Filter(containers, KEEP_CONTAINER)
  }

  function UsedNames(containers: seq<Container>): set<string> {
    set c, m | c in containers && m in c.mounts :: m.name
  }

  /** Volumes mounted by a container that stays, or by an init container. */
  function Used(d: Document): set<string> {
    UsedNames(KeptContainers(d.containers) + d.initContainers)
  }

  function KeepVolume(used: set<string>): Volume -> bool {
    v => !LegacyVolume(v) || v.name in used
  }

  function KeptVolumes(volumes: seq<Volume>, used: set<string>): seq<Volume> {
    Filter(volumes, KeepVolume(used))
  }

  // ---------- the reload annotation ----------

  /** White space, as far as Latin-1 goes. */
  predicate IsSpace(c: char) {
    var code := c as int;
    9 <= code <= 13 || 28 <= code <= 32 || code == 0x85 || code == 0xA0
  }

  function StripLeft(s: string): (r: string)
    ensures |r| <= |s| && (r != [] ==> !IsSpace(r[0])) && (forall c :: c in r ==> c in s)
    ensures s != [] && !IsSpace(s[0]) ==> r == s
  {
    if s != [] && IsSpace(s[0]) then StripLeft(s[1..]) else s
  }

  function StripRight(s: string): (r: string)
    ensures r <= s && (r != [] ==> !IsSpace(r[|r| - 1]))
    ensures s != [] && !IsSpace(s[|s| - 1]) ==> r == s
  {
    if s != [] && IsSpace(s[|s| - 1]) then StripRight(s[..|s| - 1]) else s
  }

  function Strip(s: string): string {
    StripRight(StripLeft(s))
  }

  function CommaAt(s: string): (n: nat)
    ensures n <= |s| && ',' !in s[..n] && (n < |s| ==> s[n] == ',')
  {
    if s == [] || s[0] == ',' then 0 else
      var n := CommaAt(s[1..]);
      assert s[..n + 1] == [s[0]] + s[1..][..n];
      1 + n
  }

  function Split(s: string): seq<string>
    decreases |s|
  {
    var n := CommaAt(s);
    [s[..n]] + if n == |s| then [] else Split(s[n + 1..])
  }

  /** The stripped, non-empty parts of a list of strings. */
  function Clean(parts: seq<string>): seq<string> {
    if parts == [] then []
    else (if Strip(parts[0]) == [] then [] else [Strip(parts[0])]) + Clean(parts[1..])
  }

  function Names(annotation: string): seq<string> {
    Clean(Split(annotation))
  }

  function Retained(names: seq<string>): seq<string> {
    if names == [] then []
    else (if names[0] in LEGACY_CONFIGMAPS then [] else [names[0]]) + Retained(names[1..])
  }

  function Join(names: seq<string>): string {
    if names == [] then [] else if |names| == 1 then names[0] else names[0] + "," + Join(names[1..])
  }

  function MigratedAnnotations(annotations: map<string, string>): map<string, string> {
    if RELOAD_ANNOTATION !in annotations then annotations
    else
      var names := Names(annotations[RELOAD_ANNOTATION]);
      var retained := Retained(names);
      if names == retained then annotations
      else if retained == [] then annotations - {RELOAD_ANNOTATION}
      else annotations[RELOAD_ANNOTATION := Join(retained)]
  }

  // ---------- what the migration is for ----------

  /** Legacy containers, unused legacy volumes and legacy annotations are filtered out, all else stays in order. */
  function Migrated(d: Document): Document {
    d.(containers := KeptContainers(d.containers),
       volumes := KeptVolumes(d.volumes, Used(d)),
       annotations := MigratedAnnotations(d.annotations),
       templateAnnotations := d.templateAnnotations - {OLD_REVISION})
  }

  function FirstNamed(containers: seq<Container>, name: string): Option<Container> {
    if containers == [] then None
    else if containers[0].name == name then Some(containers[0])
    else FirstNamed(containers[1..], name)
  }

  function Check(d: Document): Option<Problem> {
    if d.kind != "Deployment" || d.name != DEPLOYMENT then Some(NotTheDashboard)
    else
      var web := FirstNamed(d.containers, "web");
      if web.None? || !(IMAGE <= web.value.image) || web.value.mounts != [Mount("tmp", "/tmp")]
      then Some(FrontendNotReconciled)
      else None
  }

  // ---------- the generated operations ----------

  function ItemPath(list: string, index: nat): string {
    Render(POD + [list, Decimal(index)])
  }

  /** The indices of the items that go, from the last to the first. */
  function Doomed<T>(items: seq<T>, keep: T -> bool): seq<nat> {
    if items == [] then []
    else
      var last := |items| - 1;
      if keep(items[last]) then Doomed(items[..last], keep) else [last] + Doomed(items[..last], keep)
  }

  function Removals(list: string, indices: seq<nat>): seq<Op> {
    if indices == [] then [] else [Remove(ItemPath(list, indices[0]))] + Removals(list, indices[1..])
  }

  function ContainerRemovals(containers: seq<Container>): seq<Op> {
    Removals("containers", Doomed(containers, KEEP_CONTAINER))
  }

  function VolumeRemovals(volumes: seq<Volume>, used: set<string>): seq<Op> {
    Removals("volumes", Doomed(volumes, KeepVolume(used)))
  }

  function AnnotationOps(annotations: map<string, string>): seq<Op> {
    if RELOAD_ANNOTATION !in annotations then []
    else
      var names := Names(annotations[RELOAD_ANNOTATION]);
      var retained, path := Retained(names), Render(ANNOTATIONS + [RELOAD_ANNOTATION]);
      if names == retained then []
      else if retained == [] then [Remove(path)]
      else [Replace(path, Join(retained))]
  }

  function TemplateOps(annotations: map<string, string>): seq<Op> {
    if OLD_REVISION in annotations then [Remove(Render(TEMPLATE_ANNOTATIONS + [OLD_REVISION]))] else []
  }

  function Changes(d: Document): seq<Op> {
    ContainerRemovals(d.containers) + VolumeRemovals(d.volumes, Used(d))
    + AnnotationOps(d.annotations) + TemplateOps(d.templateAnnotations)
  }

  /** The whole patch starts by testing the revision that it was computed for. */
  function Patch(d: Document): seq<Op> {
    var changes := Changes(d);
    if changes == [] then [] else [Test(Render(["metadata", "resourceVersion"]), d.resourceVersion)] + changes
  }

  method GeneratePatch(d: Document) returns (r: Result<seq<Op>, Problem>)
    ensures r.Err? <==> Check(d).Some?
    ensures r.Err? ==> r.error == Check(d).value
    ensures r.Ok? ==> r.value == Patch(d)
    ensures r.Ok? <==> IsReconciled(d)
    ensures r == Err(NotTheDashboard) <==> !(d.kind == "Deployment" && d.name == "ai-appliance-dashboard")
    ensures r.Ok? ==> ApplyAll(d, r.value).Some? && MigrationFits(d, ApplyAll(d, r.value).value)
    ensures r.Ok? ==> (r.value == [] <==> ApplyAll(d, r.value) == Some(d))
    ensures r.Ok? && r.value != [] ==> r.value[0] == Test(Render(["metadata", "resourceVersion"]), d.resourceVersion)
  {
    hide Check, Removals, Doomed, Render, Names, Retained, Join, KeepVolume, Used, MigrationFits, ApplyAll, IsReconciled;
    CheckIsSeen(d);
    MigrationIsSeen(d);
    var problem := Check(d);
    if problem.Some? {
      return Err(problem.value);
    }
    EmptyExactly(d);
    var patch := RemoveItems("containers", d.containers, KEEP_CONTAINER);
    var volumes := RemoveItems("volumes", d.volumes, KeepVolume(Used(d)));
    patch := patch + volumes;
    if RELOAD_ANNOTATION in d.annotations {
      var names := Names(d.annotations[RELOAD_ANNOTATION]);
      var retained, path := Retained(names), Render(ANNOTATIONS + [RELOAD_ANNOTATION]);
      if names != retained {
        patch := patch + [if retained == [] then Remove(path) else Replace(path, Join(retained))];
      }
    }
    if OLD_REVISION in d.templateAnnotations {
      patch := patch + [Remove(Render(TEMPLATE_ANNOTATIONS + [OLD_REVISION]))];
    }
    assert patch == Changes(d);
    if patch != [] {
      patch := [Test(Render(["metadata", "resourceVersion"]), d.resourceVersion)] + patch;
    }
    r := Ok(patch);
  }

  /** Indices descend, so that every removal still finds its item. */
  method RemoveItems<T>(list: string, items: seq<T>, keep: T -> bool) returns (patch: seq<Op>)
    ensures patch == Removals(list, Doomed(items, keep))
  {
    hide ItemPath;
    patch := [];
    var index := |items|;
    assert items[..index] == items;
    while index > 0
      invariant 0 <= index <= |items|
      invariant patch + Removals(list, Doomed(items[..index], keep)) == Removals(list, Doomed(items, keep))
    {
      index := index - 1;
      assert items[..index + 1][..index] == items[..index];
      ghost var rest := Doomed(items[..index], keep);
      if !keep(items[index]) {
        assert ([index] + rest)[1..] == rest;
        var removal := [Remove(ItemPath(list, index))];
        assert patch + (removal + Removals(list, rest)) == patch + removal + Removals(list, rest);
        patch := patch + removal;
      } else {
        assert Doomed(items[..index + 1], keep) == rest;
      }
    }
  }

  // ---------- the patch equals the filter ----------

  lemma ItemPathParses(list: string, index: nat)
    ensures Parse(ItemPath(list, index)) == Some(POD + [list, Decimal(index)])
    ensures forall length :: index < length ==>
      IndexUnder(POD + [list, Decimal(index)], list, length) == Some(index)
    ensures forall other, length :: other != list ==> IndexUnder(POD + [list, Decimal(index)], other, length) == None
  {
    ParseRender(POD + [list, Decimal(index)]);
    IndexRoundTrip(index);
    var tokens := POD + [list, Decimal(index)];
    assert tokens[..3] == POD && tokens[3] == list && tokens[4] == Decimal(index);
  }

  lemma RemoveContainerApplies(d: Document, index: nat)
    requires index < |d.containers|
    ensures ApplyOp(d, Remove(ItemPath("containers", index))) == Some(d.(containers := Without(d.containers, index)))
  {
    ItemPathParses("containers", index);
  }

  lemma RemoveVolumeApplies(d: Document, index: nat)
    requires index < |d.volumes|
    ensures ApplyOp(d, Remove(ItemPath("volumes", index))) == Some(d.(volumes := Without(d.volumes, index)))
  {
    ItemPathParses("volumes", index);
  }

  function RemoveEach<T>(items: seq<T>, indices: seq<nat>): Option<seq<T>>
    decreases |indices|
  {
    if indices == [] then Some(items)
    else if indices[0] >= |items| then None
    else RemoveEach(Without(items, indices[0]), indices[1..])
  }

  lemma Assoc<T>(a: seq<T>, b: seq<T>, c: seq<T>)
    ensures (a + b) + c == a + (b + c)
  {
  }

  lemma SplitLast<T>(items: seq<T>)
    requires items != []
    ensures items == items[..|items| - 1] + [items[|items| - 1]]
  {
  }

  lemma LastStays<T>(items: seq<T>, tail: seq<T>, keep: T -> bool)
    requires items != [] && keep(items[|items| - 1])
    ensures var front, x := items[..|items| - 1], items[|items| - 1];
      && items + tail == front + ([x] + tail)
      && Doomed(items, keep) == Doomed(front, keep)
      && Filter(items, keep) + tail == Filter(front, keep) + ([x] + tail)
  {
    var front, x := items[..|items| - 1], items[|items| - 1];
    var kept := Filter(front, keep);
    assert Filter(items, keep) == kept + [x] && Doomed(items, keep) == Doomed(front, keep);
    hide Filter, Doomed;
    SplitLast(items);
    Assoc(front, [x], tail);
    Assoc(kept, [x], tail);
  }

  lemma LastGoes<T>(items: seq<T>, tail: seq<T>, keep: T -> bool)
    requires items != [] && !keep(items[|items| - 1])
    ensures var last := |items| - 1;
      && Without(items + tail, last) == items[..last] + tail
      && Doomed(items, keep) == [last] + Doomed(items[..last], keep)
      && Filter(items, keep) == Filter(items[..last], keep)
  {
    var last := |items| - 1;
    assert Doomed(items, keep) == [last] + Doomed(items[..last], keep);
    assert Filter(items, keep) == Filter(items[..last], keep);
    hide Filter, Doomed;
    var all := items + tail;
    assert all[..last] == items[..last] && all[last + 1..] == tail;
  }

  /** Indices computed on the original list stay right, because whatever was already removed came later. */
  lemma {:induction false} RemovingEqualsFiltering<T>(items: seq<T>, tail: seq<T>, keep: T -> bool)
    ensures RemoveEach(items + tail, Doomed(items, keep)) == Some(Filter(items, keep) + tail)
    decreases |items|
  {
    if items == [] {
      assert items + tail == tail && Filter(items, keep) + tail == tail;
    } else {
      hide RemoveEach, Filter, Doomed, Without;
      var last := |items| - 1;
      var front := items[..last];
      if keep(items[last]) {
        LastStays(items, tail, keep);
        RemovingEqualsFiltering(front, [items[last]] + tail, keep);
      } else {
        LastGoes(items, tail, keep);
        RemovingEqualsFiltering(front, tail, keep);
        RemoveFirst(items + tail, last, Doomed(front, keep));
      }
    }
  }

  lemma RemoveFirst<T>(items: seq<T>, index: nat, rest: seq<nat>)
    requires index < |items|
    ensures RemoveEach(items, [index] + rest) == RemoveEach(Without(items, index), rest)
  {
    assert ([index] + rest)[1..] == rest;
  }

  lemma {:induction false} ContainersAreRemoved(d: Document, indices: seq<nat>)
    requires RemoveEach(d.containers, indices).Some?
    ensures ApplyAll(d, Removals("containers", indices))
         == Some(d.(containers := RemoveEach(d.containers, indices).value))
    decreases |indices|
  {
    if indices != [] {
      RemoveContainerApplies(d, indices[0]);
      ContainersAreRemoved(d.(containers := Without(d.containers, indices[0])), indices[1..]);
      assert Removals("containers", indices)[1..] == Removals("containers", indices[1..]);
    }
  }

  lemma {:induction false} VolumesAreRemoved(d: Document, indices: seq<nat>)
    requires RemoveEach(d.volumes, indices).Some?
    ensures ApplyAll(d, Removals("volumes", indices)) == Some(d.(volumes := RemoveEach(d.volumes, indices).value))
    decreases |indices|
  {
    if indices != [] {
      RemoveVolumeApplies(d, indices[0]);
      VolumesAreRemoved(d.(volumes := Without(d.volumes, indices[0])), indices[1..]);
      assert Removals("volumes", indices)[1..] == Removals("volumes", indices[1..]);
    }
  }

  lemma KeyPathParses(base: seq<string>, key: string)
    ensures Parse(Render(base + [key])) == Some(base + [key]) && KeyUnder(base + [key], base) == Some(key)
  {
    ParseRender(base + [key]);
  }

  lemma AnnotationOpApplies(d: Document, op: Op)
    requires RELOAD_ANNOTATION in d.annotations && !op.Test? && op.path == Render(ANNOTATIONS + [RELOAD_ANNOTATION])
    ensures ApplyOp(d, op) == Some(d.(annotations :=
        if op.Remove? then d.annotations - {RELOAD_ANNOTATION} else d.annotations[RELOAD_ANNOTATION := op.value]))
  {
    KeyPathParses(ANNOTATIONS, RELOAD_ANNOTATION);
    var tokens := ANNOTATIONS + [RELOAD_ANNOTATION];
    assert |tokens| == 3 && IndexUnder(tokens, "containers", |d.containers|) == None;
    assert IndexUnder(tokens, "volumes", |d.volumes|) == None;
  }

  lemma OneOp(d: Document, op: Op)
    ensures ApplyAll(d, [op]) == ApplyOp(d, op)
  {
    assert [op][1..] == [];
  }

  lemma AnnotationsAreMigrated(d: Document)
    ensures ApplyAll(d, AnnotationOps(d.annotations)) == Some(d.(annotations := MigratedAnnotations(d.annotations)))
  {
    var ops := AnnotationOps(d.annotations);
    if ops != [] {
      AnnotationOpApplies(d, ops[0]);
      OneOp(d, ops[0]);
      assert ops == [ops[0]];
    }
  }

  lemma TemplateTokens(tokens: seq<string>, length: nat)
    requires tokens == TEMPLATE_ANNOTATIONS + [OLD_REVISION]
    ensures IndexUnder(tokens, "containers", length) == None && IndexUnder(tokens, "volumes", length) == None
    ensures KeyUnder(tokens, ANNOTATIONS) == None
  {
    hide Parse, Render;
    assert |tokens| == 5 && tokens[..3][2] == "metadata" && POD[2] == "spec";
    assert "metadata"[0] != "spec"[0];
  }

  lemma TemplateOpApplies(d: Document)
    requires OLD_REVISION in d.templateAnnotations
    ensures ApplyOp(d, Remove(Render(TEMPLATE_ANNOTATIONS + [OLD_REVISION])))
         == Some(d.(templateAnnotations := d.templateAnnotations - {OLD_REVISION}))
  {
    hide Parse, Render, IndexUnder, KeyUnder;
    var tokens := TEMPLATE_ANNOTATIONS + [OLD_REVISION];
    KeyPathParses(TEMPLATE_ANNOTATIONS, OLD_REVISION);
    TemplateTokens(tokens, |d.containers|);
    TemplateTokens(tokens, |d.volumes|);
  }

  lemma TemplateIsMigrated(d: Document)
    ensures ApplyAll(d, TemplateOps(d.templateAnnotations))
         == Some(d.(templateAnnotations := d.templateAnnotations - {OLD_REVISION}))
  {
    var ops := TemplateOps(d.templateAnnotations);
    if ops != [] {
      TemplateOpApplies(d);
      assert ops[1..] == [];
    } else {
      assert d.templateAnnotations - {OLD_REVISION} == d.templateAnnotations;
    }
  }

  lemma RevisionTest(d: Document, revision: string)
    ensures ApplyOp(d, Test(Render(["metadata", "resourceVersion"]), revision))
         == if d.resourceVersion == revision then Some(d) else None
  {
    ParseRender(["metadata", "resourceVersion"]);
  }

  /**
   Applying the generated operations one by one gives exactly the Deployment without its legacy, unused parts, in
   the original order.
   */
  lemma PatchEqualsFilter(d: Document)
    ensures ApplyAll(d, Patch(d)) == Some(Migrated(d))
  {
    ChangesEqualFilter(d);
    RevisionTest(d, d.resourceVersion);
    var changes := Changes(d);
    if changes != [] {
      var test := Test(Render(["metadata", "resourceVersion"]), d.resourceVersion);
      assert ([test] + changes)[1..] == changes;
    }
  }

  /** A patch computed for one revision changes no other one. */
  lemma StalePatchIsRefused(d: Document, other: Document)
    requires Patch(d) != [] && other.resourceVersion != d.resourceVersion
    ensures ApplyAll(other, Patch(d)) == None
  {
    RevisionTest(other, d.resourceVersion);
  }

  lemma ChangesEqualFilter(d: Document)
    ensures ApplyAll(d, Changes(d)) == Some(Migrated(d))
  {
    var c, v := ContainerRemovals(d.containers), VolumeRemovals(d.volumes, Used(d));
    var a, t := AnnotationOps(d.annotations), TemplateOps(d.templateAnnotations);
    assert d.containers + [] == d.containers && d.volumes + [] == d.volumes;
    RemovingEqualsFiltering(d.containers, [], KEEP_CONTAINER);
    ContainersAreRemoved(d, Doomed(d.containers, KEEP_CONTAINER));
    var d1 := d.(containers := KeptContainers(d.containers));
    assert KeptContainers(d.containers) + [] == KeptContainers(d.containers);
    RemovingEqualsFiltering(d.volumes, [], KeepVolume(Used(d)));
    VolumesAreRemoved(d1, Doomed(d.volumes, KeepVolume(Used(d))));
    var d2 := d1.(volumes := KeptVolumes(d.volumes, Used(d)));
    assert KeptVolumes(d.volumes, Used(d)) + [] == KeptVolumes(d.volumes, Used(d));
    AnnotationsAreMigrated(d2);
    var d3 := d2.(annotations := MigratedAnnotations(d.annotations));
    TemplateIsMigrated(d3);
    ApplyConcat(d, c, v);
    ApplyConcat(d, c + v, a);
    ApplyConcat(d, c + v + a, t);
  }

  // ---------- a second migration finds nothing ----------

  lemma {:induction false} FilteredItemsAreKept<T>(items: seq<T>, keep: T -> bool)
    ensures Doomed(Filter(items, keep), keep) == [] && Filter(Filter(items, keep), keep) == Filter(items, keep)
  {
    if items != [] {
      var last := |items| - 1;
      var front := Filter(items[..last], keep);
      FilteredItemsAreKept(items[..last], keep);
      if keep(items[last]) {
        assert (front + [items[last]])[..|front|] == front;
      } else {
        assert Filter(items, keep) == front;
      }
    }
  }

  /** A non-empty name without a comma or surrounding white space. */
  predicate Tidy(name: string) {
    name != [] && ',' !in name && !IsSpace(name[0]) && !IsSpace(name[|name| - 1])
  }

  lemma TidyIsStripped(name: string)
    requires Tidy(name)
    ensures Strip(name) == name
  {
  }

  lemma StrippedIsTidy(part: string)
    requires ',' !in part && Strip(part) != []
    ensures Tidy(Strip(part))
  {
    var left := StripLeft(part);
    assert Strip(part)[0] == left[0];
    assert forall i :: 0 <= i < |Strip(part)| ==> Strip(part)[i] == left[i];
  }

  lemma {:induction false} SplitHasNoCommas(s: string)
    ensures forall part :: part in Split(s) ==> ',' !in part
    decreases |s|
  {
    var n := CommaAt(s);
    if n < |s| { SplitHasNoCommas(s[n + 1..]); }
  }

  lemma {:induction false} CleanIsTidy(parts: seq<string>)
    requires forall part :: part in parts ==> ',' !in part
    ensures forall name :: name in Clean(parts) ==> Tidy(name)
  {
    if parts != [] {
      CleanIsTidy(parts[1..]);
      if Strip(parts[0]) != [] { StrippedIsTidy(parts[0]); }
    }
  }

  lemma {:induction false} TidyIsClean(names: seq<string>)
    requires forall name :: name in names ==> Tidy(name)
    ensures Clean(names) == names
  {
    if names != [] {
      TidyIsClean(names[1..]);
      TidyIsStripped(names[0]);
    }
  }

  lemma {:induction false} CommaFollows(name: string, rest: string)
    requires ',' !in name
    ensures CommaAt(name) == |name| && CommaAt(name + "," + rest) == |name|
  {
    if name == [] {
      assert name + "," + rest == "," + rest;
    } else {
      assert (name + "," + rest)[1..] == name[1..] + "," + rest;
      CommaFollows(name[1..], rest);
    }
  }

  /** Splitting undoes joining. */
  lemma {:induction false} SplitJoin(names: seq<string>)
    requires names != [] && forall name :: name in names ==> ',' !in name
    ensures Split(Join(names)) == names
  {
    var s := Join(names);
    if |names| == 1 {
      CommaFollows(names[0], []);
      assert s[..|s|] == s;
    } else {
      CommaFollows(names[0], Join(names[1..]));
      assert s[..|names[0]|] == names[0] && s[|names[0]| + 1..] == Join(names[1..]);
      SplitJoin(names[1..]);
    }
  }

  lemma JoinCons(name: string, rest: seq<string>)
    requires rest != []
    ensures Join([name] + rest) == name + "," + Join(rest)
  {
    assert ([name] + rest)[1..] == rest;
  }

  lemma CutAtComma(s: string, n: nat)
    requires n < |s| && s[n] == ','
    ensures s == s[..n] + "," + s[n + 1..]
  {
  }

  /** And joining undoes splitting; so the parts are what stands between the commas. */
  lemma {:induction false} JoinSplit(s: string)
    ensures Join(Split(s)) == s && Split(s) != []
    decreases |s|
  {
    hide Join;
    var n := CommaAt(s);
    if n < |s| {
      JoinSplit(s[n + 1..]);
      JoinCons(s[..n], Split(s[n + 1..]));
      CutAtComma(s, n);
    } else {
      assert s[..n] == s;
      assert Split(s) == [s[..n]] + [] == [s];
      JoinOne(s);
    }
  }

  lemma JoinOne(s: string)
    ensures Join([s]) == s
  {
  }

  /** Stripping takes all white space from both ends, and nothing else. */
  lemma StripTrims(s: string) returns (left: string, right: string)
    ensures s == left + Strip(s) + right
    ensures forall c :: c in left || c in right ==> IsSpace(c)
    ensures Strip(s) != [] ==> !IsSpace(Strip(s)[0]) && !IsSpace(Strip(s)[|Strip(s)| - 1])
  {
    left := TrimsLeft(s);
    right := TrimsRight(StripLeft(s));
    if Strip(s) != [] { assert Strip(s)[0] == StripLeft(s)[0]; }
  }

  lemma {:induction false} TrimsLeft(s: string) returns (left: string)
    ensures s == left + StripLeft(s) && forall c :: c in left ==> IsSpace(c)
  {
    left := [];
    if s != [] && IsSpace(s[0]) {
      var rest := TrimsLeft(s[1..]);
      hide IsSpace;
      assert StripLeft(s) == StripLeft(s[1..]);
      left := [s[0]] + rest;
      assert s == [s[0]] + (rest + StripLeft(s)) == left + StripLeft(s);
    }
  }

  lemma {:induction false} TrimsRight(s: string) returns (right: string)
    ensures s == StripRight(s) + right && forall c :: c in right ==> IsSpace(c)
  {
    right := [];
    if s != [] && IsSpace(s[|s| - 1]) {
      right := TrimsRight(s[..|s| - 1]);
      right := right + [s[|s| - 1]];
    }
  }

  lemma {:induction false} RetainedStays(names: seq<string>)
    ensures Retained(Retained(names)) == Retained(names)
    ensures forall name :: name in Retained(names) ==> name in names
  {
    if names != [] {
      RetainedStays(names[1..]);
      if names[0] !in LEGACY_CONFIGMAPS {
        assert ([names[0]] + Retained(names[1..]))[1..] == Retained(names[1..]);
      } else {
        assert Retained(names) == Retained(names[1..]);
      }
    }
  }

  lemma MigratedAnnotationsAreDone(annotations: map<string, string>)
    ensures AnnotationOps(MigratedAnnotations(annotations)) == []
  {
    if RELOAD_ANNOTATION in annotations {
      var original := annotations[RELOAD_ANNOTATION];
      var retained := Retained(Names(original));
      SplitHasNoCommas(original);
      CleanIsTidy(Split(original));
      RetainedStays(Names(original));
      if retained != [] {
        SplitJoin(retained);
        TidyIsClean(retained);
      }
    }
  }

  lemma {:induction false} WebSurvives(containers: seq<Container>, web: Container)
    requires FirstNamed(containers, "web") == Some(web)
    ensures FirstNamed(KeptContainers(containers), "web") == Some(web)
  {
    var last := |containers| - 1;
    var front, c := containers[..last], containers[last];
    assert containers == front + [c];
    FirstNamedSnoc(front, c, "web");
    if LegacyContainer(c) { assert KeptContainers(containers) == KeptContainers(front); }
    if FirstNamed(front, "web").Some? {
      WebSurvives(front, web);
      FirstNamedSnoc(KeptContainers(front), c, "web");
    } else {
      NoneNamed(front, "web");
      FirstNamedSnoc(KeptContainers(front), c, "web");
    }
  }

  lemma {:induction false} FirstNamedSnoc(front: seq<Container>, c: Container, name: string)
    ensures FirstNamed(front + [c], name)
         == if FirstNamed(front, name).Some? then FirstNamed(front, name) else if c.name == name then Some(c) else None
  {
    if front == [] {
      assert front + [c] == [c];
    } else {
      assert (front + [c])[1..] == front[1..] + [c];
      FirstNamedSnoc(front[1..], c, name);
    }
  }

  lemma {:induction false} NoneNamed(containers: seq<Container>, name: string)
    requires FirstNamed(containers, name).None?
    ensures FirstNamed(KeptContainers(containers), name).None?
  {
    if containers != [] {
      var last := |containers| - 1;
      assert containers == containers[..last] + [containers[last]];
      FirstNamedSnoc(containers[..last], containers[last], name);
      NoneNamed(containers[..last], name);
      if LegacyContainer(containers[last]) { assert KeptContainers(containers) == KeptContainers(containers[..last]); }
      FirstNamedSnoc(KeptContainers(containers[..last]), containers[last], name);
    }
  }

  /** The migrated Deployment still passes the check, and the patch computed for it is empty. */
  lemma MigrationIsIdempotent(d: Document)
    requires Check(d).None?
    ensures Check(Migrated(d)).None? && Patch(Migrated(d)) == [] && Migrated(Migrated(d)) == Migrated(d)
  {
    var m := Migrated(d);
    WebSurvives(d.containers, FirstNamed(d.containers, "web").value);
    FilteredItemsAreKept(d.containers, KEEP_CONTAINER);
    FilteredItemsAreKept(d.volumes, KeepVolume(Used(d)));
    assert Used(m) == Used(d);
    MigratedAnnotationsAreDone(d.annotations);
    ChangesEqualFilter(m);
    assert Changes(m) == [];
  }

  // ---------- what an administrator sees ----------

  /** `at` are the positions of the items that do not go, in order, and `rest` are those items. */
  ghost predicate LeavesOut<T(!new)>(items: seq<T>, goes: T -> bool, rest: seq<T>, at: seq<nat>) {
    && |at| == |rest|
    && (forall k :: 0 <= k < |at| ==> at[k] < |items| && rest[k] == items[at[k]] && !goes(rest[k]))
    && (forall k, l :: 0 <= k < l < |at| ==> at[k] < at[l])
    && (forall i :: 0 <= i < |items| && !goes(items[i]) ==> i in at)
  }

  lemma OneMoreStays<T(!new)>(front: seq<T>, x: T, goes: T -> bool, rest: seq<T>, at: seq<nat>)
    requires LeavesOut(front, goes, rest, at) && !goes(x)
    ensures LeavesOut(front + [x], goes, rest + [x], at + [|front|])
  {
    var all, at' := front + [x], at + [|front|];
    assert all[|front|] == x && at'[|at|] == |front|;
    forall i | 0 <= i < |all| && !goes(all[i]) ensures i in at' {
      if i < |front| { assert front[i] == all[i]; }
    }
  }

  lemma OneMoreGoes<T(!new)>(front: seq<T>, x: T, goes: T -> bool, rest: seq<T>, at: seq<nat>)
    requires LeavesOut(front, goes, rest, at) && goes(x)
    ensures LeavesOut(front + [x], goes, rest, at)
  {
    var all := front + [x];
    forall i | 0 <= i < |all| && !goes(all[i]) ensures i in at {
      assert i < |front| && front[i] == all[i];
    }
  }

  lemma {:induction false} FilterLeavesOut<T(!new)>(items: seq<T>, keep: T -> bool, goes: T -> bool) returns (at: seq<nat>)
    requires forall x :: x in items ==> (goes(x) <==> !keep(x))
    ensures LeavesOut(items, goes, Filter(items, keep), at)
  {
    at := [];
    if items != [] {
      var front, last := items[..|items| - 1], items[|items| - 1];
      at := FilterLeavesOut(front, keep, goes);
      assert last in items && items == front + [last];
      if keep(last) {
        OneMoreStays(front, last, goes, Filter(front, keep), at);
        at := at + [|front|];
      } else {
        OneMoreGoes(front, last, goes, Filter(front, keep), at);
      }
      hide LeavesOut;
    }
  }

  /** The items that go are left out, and the others keep their order. */
  ghost predicate Leaves<T(!new)>(items: seq<T>, goes: T -> bool, rest: seq<T>) {
    exists at :: LeavesOut(items, goes, rest, at)
  }

  predicate GoesByName(c: Container) {
    c.name == "nginx" || c.name == "renderer"
  }

  /** An init container, or a container that stays, mounts the volume. */
  ghost predicate Mounted(d: Document, volume: string) {
    exists c, m ::
      && (c in d.initContainers || (c in d.containers && !GoesByName(c)))
      && m in c.mounts && m.name == volume
  }

  ghost predicate GoesUnused(d: Document, v: Volume) {
    && !Mounted(d, v.name)
    && ((v.emptyDir && v.name in {"html", "nginx-cache", "nginx-run", "renderer-tmp"})
        || v.configMap == Some("ai-appliance-dashboard-nginx") || v.configMap == Some("ai-appliance-dashboard-renderer"))
  }

  ghost function GoesFrom(d: Document): Volume -> bool {
    v => GoesUnused(d, v)
  }

  predicate GoesFromReload(name: string) {
    name == "ai-appliance-dashboard-nginx" || name == "ai-appliance-dashboard-renderer"
  }

  /** The legacy names leave the annotation, which is untouched if there are none and goes if nothing else is left. */
  ghost predicate ReloadFits(before: map<string, string>, after: map<string, string>) {
    var key := "configmap.reloader.stakater.com/reload";
    && after - {key} == before - {key}
    && (key in after ==> key in before)
    && (key in before ==>
          var names := Names(before[key]);
          if forall n :: n in names ==> !GoesFromReload(n) then key in after && after[key] == before[key]
          else if forall n :: n in names ==> GoesFromReload(n) then key !in after
          else key in after && Leaves(names, GoesFromReload, Names(after[key])))
  }

  /** What becomes of the Deployment: exactly the legacy parts that nothing else needs are gone. */
  ghost predicate MigrationFits(d: Document, m: Document) {
    && Leaves(d.containers, GoesByName, m.containers)
    && Leaves(d.volumes, GoesFrom(d), m.volumes)
    && ReloadFits(d.annotations, m.annotations)
    && m.templateAnnotations == d.templateAnnotations - {"appliance.magicstick.dev/dashboard-config-revision"}
    && m == d.(containers := m.containers, volumes := m.volumes, annotations := m.annotations,
               templateAnnotations := m.templateAnnotations)
  }

  lemma {:induction false} KeptContainersAre(containers: seq<Container>)
    ensures forall c :: c in KeptContainers(containers) <==> c in containers && !GoesByName(c)
  {
    if containers != [] {
      var last := |containers| - 1;
      KeptContainersAre(containers[..last]);
      assert containers == containers[..last] + [containers[last]];
    }
  }

  lemma UsedIsMounted(d: Document, volume: string)
    ensures volume in Used(d) <==> Mounted(d, volume)
  {
    KeptContainersAre(d.containers);
    var kept := KeptContainers(d.containers);
    hide KeptContainers;
    if Mounted(d, volume) {
      var c, m :|
        && (c in d.initContainers || (c in d.containers && !GoesByName(c)))
        && m in c.mounts && m.name == volume;
      assert c in kept + d.initContainers;
    }
    if volume in Used(d) {
      var c, m :| c in kept + d.initContainers && m in c.mounts && m.name == volume;
      assert c in d.initContainers || c in kept;
    }
  }

  lemma VolumesAreSeen(d: Document) returns (at: seq<nat>)
    ensures LeavesOut(d.volumes, GoesFrom(d), Migrated(d).volumes, at)
  {
    var keep := KeepVolume(Used(d));
    forall v | v in d.volumes ensures GoesFrom(d)(v) <==> !keep(v) {
      UsedIsMounted(d, v.name);
    }
    at := FilterLeavesOut(d.volumes, keep, GoesFrom(d));
  }

  lemma ContainersAreSeen(d: Document) returns (at: seq<nat>)
    ensures LeavesOut(d.containers, GoesByName, Migrated(d).containers, at)
  {
    at := FilterLeavesOut(d.containers, KEEP_CONTAINER, GoesByName);
  }

  lemma {:induction false} RetainedLeavesOut(names: seq<string>)
    ensures Retained(names) == Filter(names, n => !GoesFromReload(n))
  {
    if names != [] {
      var last := |names| - 1;
      RetainedLeavesOut(names[..last]);
      RetainedSnoc(names[..last], names[last]);
      assert names == names[..last] + [names[last]];
    }
  }

  lemma {:induction false} RetainedSnoc(front: seq<string>, name: string)
    ensures Retained(front + [name]) == Retained(front) + if GoesFromReload(name) then [] else [name]
  {
    if front == [] {
      assert front + [name] == [name];
    } else {
      assert (front + [name])[1..] == front[1..] + [name];
      RetainedSnoc(front[1..], name);
    }
  }

  lemma {:induction false} RetainedIsShorter(names: seq<string>)
    ensures |Retained(names)| <= |names|
    ensures Retained(names) == names <==> forall n :: n in names ==> !GoesFromReload(n)
    ensures Retained(names) == [] <==> forall n :: n in names ==> GoesFromReload(n)
  {
    if names != [] {
      RetainedIsShorter(names[1..]);
      assert names == [names[0]] + names[1..];
      assert forall n :: n in names <==> n == names[0] || n in names[1..];
      if !GoesFromReload(names[0]) { assert Retained(names)[1..] == Retained(names[1..]); }
    }
  }

  lemma NamesOfRetained(annotation: string)
    requires Retained(Names(annotation)) != []
    ensures Names(Join(Retained(Names(annotation)))) == Retained(Names(annotation))
  {
    var retained := Retained(Names(annotation));
    SplitHasNoCommas(annotation);
    CleanIsTidy(Split(annotation));
    RetainedStays(Names(annotation));
    SplitJoin(retained);
    TidyIsClean(retained);
  }

  lemma NamesAreSeen(names: seq<string>)
    ensures Leaves(names, GoesFromReload, Retained(names))
    ensures Retained(names) == names <==> forall n :: n in names ==> !GoesFromReload(n)
    ensures Retained(names) == [] <==> forall n :: n in names ==> GoesFromReload(n)
  {
    RetainedIsShorter(names);
    RetainedLeavesOut(names);
    var at := FilterLeavesOut(names, n => !GoesFromReload(n), GoesFromReload);
  }

  lemma ReloadIsSeen(annotations: map<string, string>)
    ensures ReloadFits(annotations, MigratedAnnotations(annotations))
  {
    hide Names, Retained, Join, Leaves;
    if RELOAD_ANNOTATION in annotations {
      var names := Names(annotations[RELOAD_ANNOTATION]);
      NamesAreSeen(names);
      if Retained(names) != [] { NamesOfRetained(annotations[RELOAD_ANNOTATION]); }
    }
  }

  /** Applying the generated patch leaves exactly the legacy parts out that nothing else needs. */
  lemma MigrationIsSeen(d: Document)
    ensures ApplyAll(d, Patch(d)).Some? && MigrationFits(d, ApplyAll(d, Patch(d)).value)
  {
    PatchEqualsFilter(d);
    var at := ContainersAreSeen(d);
    var at' := VolumesAreSeen(d);
    ReloadIsSeen(d.annotations);
    hide KeptContainers, KeptVolumes, MigratedAnnotations, ReloadFits, LeavesOut, Patch, ApplyAll;
  }

  /** A volume is left out if and only if it is a legacy one that nothing mounts which stays behind. */
  lemma VolumesGoExactly(d: Document, v: Volume)
    requires v in d.volumes
    ensures ApplyAll(d, Patch(d)).Some?
    ensures v !in ApplyAll(d, Patch(d)).value.volumes <==> GoesUnused(d, v)
  {
    PatchEqualsFilter(d);
    var at := VolumesAreSeen(d);
    hide KeptVolumes, KeptContainers, MigratedAnnotations, Patch, ApplyAll, GoesUnused;
    var i :| 0 <= i < |d.volumes| && d.volumes[i] == v;
    if !GoesUnused(d, v) {
      var k :| 0 <= k < |at| && at[k] == i;
      assert Migrated(d).volumes[k] == v;
    }
  }

  /** So every mount that stays and had its volume has it still. */
  lemma MountsKeepTheirVolumes(d: Document, c: Container, mount: Mount, v: Volume)
    requires ApplyAll(d, Patch(d)).Some?
    requires var m := ApplyAll(d, Patch(d)).value; c in m.containers || c in m.initContainers
    requires mount in c.mounts && v in d.volumes && v.name == mount.name
    ensures v in ApplyAll(d, Patch(d)).value.volumes
  {
    VolumesGoExactly(d, v);
    PatchEqualsFilter(d);
    KeptContainersAre(d.containers);
    hide KeptContainers, KeptVolumes, MigratedAnnotations, Patch, ApplyAll;
    assert Mounted(d, v.name);
  }

  /** The dashboard's Deployment, whose first container called web is the new one and mounts nothing but /tmp. */
  ghost predicate IsReconciled(d: Document) {
    && d.kind == "Deployment" && d.name == "ai-appliance-dashboard"
    && exists i ::
      && 0 <= i < |d.containers| && d.containers[i].name == "web"
      && (forall k :: 0 <= k < i ==> d.containers[k].name != "web")
      && "ghcr.io/qualityminds/magicstick-dashboard:" <= d.containers[i].image
      && d.containers[i].mounts == [Mount("tmp", "/tmp")]
  }

  lemma {:induction false} FirstNamedIs(containers: seq<Container>, name: string) returns (i: nat)
    ensures i <= |containers| && forall k :: 0 <= k < i ==> containers[k].name != name
    ensures FirstNamed(containers, name) == if i < |containers| then Some(containers[i]) else None
    ensures i < |containers| ==> containers[i].name == name
  {
    i := 0;
    if containers != [] && containers[0].name != name {
      var k := FirstNamedIs(containers[1..], name);
      i := k + 1;
      assert forall j :: 1 <= j < i ==> containers[j] == containers[1..][j - 1];
    }
  }

  lemma CheckIsSeen(d: Document)
    ensures Check(d).None? <==> IsReconciled(d)
    ensures Check(d) == Some(NotTheDashboard) <==> !(d.kind == "Deployment" && d.name == "ai-appliance-dashboard")
  {
    var i := FirstNamedIs(d.containers, "web");
  }

  /** There is nothing to do if and only if the patch is empty. */
  lemma EmptyExactly(d: Document)
    requires Check(d).None?
    ensures Patch(d) == [] <==> ApplyAll(d, Patch(d)) == Some(d)
  {
    PatchEqualsFilter(d);
    MigrationIsIdempotent(d);
  }
}
