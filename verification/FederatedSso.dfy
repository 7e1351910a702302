/** The dashboard's `FederatedSso`: `save`, `delete` and `enforce_entitlement` as ordered writes to Keycloak. */
module FederatedSso {
  import opened Wrappers
  import opened FederationProtocol

  datatype Failure = NotEntitled | Invalid | Conflict | NotFound | Unavailable

  /** What an administrator sees of a provider; its digest is the revision that a later save must present. */
  datatype Description = Description(protocol: Protocol, visible: string, enabled: bool, rules: set<Rule>)

  datatype Expected = Nothing | New | Revision(seen: Description)

  function Describe(i: Instance): Description {
    Description(i.provider.settings.protocol, i.provider.settings.visible, i.provider.enabled,
                set id | id in i.mappers && i.mappers[id].Managed? :: i.mappers[id].rule)
  }

  /** Why a save is refused before anything is written. */
  function Refusal(w: World, alias: Alias, c: Config, expected: Expected): Option<Failure> {
    if !c.Valid() then Some(Invalid)
    else if alias in w.instances then
      var current := w.instances[alias];
      if !current.provider.managed || current.provider.settings.protocol != c.settings.protocol
         || expected != Revision(Describe(current))
      then Some(Conflict) else None
    else if expected.Revision? then Some(Conflict) else None
  }

  // ---------- what an administrator sees ----------

  /** The description shows the provider as it is, with the rules of exactly its managed mappers. */
  ghost predicate ShownAs(i: Instance, seen: Description) {
    && seen.protocol == i.provider.settings.protocol && seen.visible == i.provider.settings.visible
    && seen.enabled == i.provider.enabled
    && forall r :: r in seen.rules <==> exists id :: id in i.mappers && i.mappers[id] == Managed(r)
  }

  /**
   The configuration has rules, each once; and it is for a provider that does not exist yet and was not reviewed, or for
   a managed one of the same protocol that was reviewed as it is now.
   */
  ghost predicate Reviewed(w: World, alias: Alias, c: Config, expected: Expected) {
    && |c.rules| > 0 && (forall i, j :: 0 <= i < j < |c.rules| ==> c.rules[i] != c.rules[j])
    && if alias !in w.instances then expected == Nothing || expected == New
       else
         && w.instances[alias].provider.managed
         && w.instances[alias].provider.settings.protocol == c.settings.protocol
         && expected.Revision? && ShownAs(w.instances[alias], expected.seen)
  }

  lemma DescribedExactly(i: Instance, seen: Description)
    ensures seen == Describe(i) <==> ShownAs(i, seen)
  {
    var d := Describe(i);
    forall r ensures r in d.rules <==> exists id :: id in i.mappers && i.mappers[id] == Managed(r) {
      if r in d.rules {
        var id :| id in i.mappers && i.mappers[id].Managed? && i.mappers[id].rule == r;
        assert i.mappers[id] == Managed(r);
      }
    }
    if ShownAs(i, seen) { assert seen.rules == d.rules; }
  }

  lemma ReviewedExactly(w: World, alias: Alias, c: Config, expected: Expected)
    ensures Refusal(w, alias, c, expected).None? <==> Reviewed(w, alias, c, expected)
  {
    if alias in w.instances && expected.Revision? { DescribedExactly(w.instances[alias], expected.seen); }
    hide Describe, ShownAs;
  }

  /** Nothing is different but the provider, which has kept the mappers that others have made. */
  ghost predicate OnlyChanged(w: World, w': World, alias: Alias) {
    && alias in w'.instances
    && (forall a :: a != alias ==>
          (a in w'.instances <==> a in w.instances) && (a in w.instances ==> w'.instances[a] == w.instances[a]))
    && forall id, text ::
         Bears(w', alias, id, External(text)) <==> Bears(w, alias, id, External(text))
  }

  ghost predicate Bears(w: World, alias: Alias, id: nat, m: Mapper) {
    alias in w.instances && id in w.instances[alias].mappers && w.instances[alias].mappers[id] == m
  }

  /** It is the reviewed configuration: enabled if that says so, with its settings and a mapper for each of its rules. */
  ghost predicate SavedAs(w': World, alias: Alias, c: Config)
    requires alias in w'.instances
  {
    && w'.instances[alias].provider == Provider(true, c.enabled, c.settings)
    && |ManagedIds(w'.instances[alias].mappers)| == |c.rules|
    && forall r :: r in c.rules <==> exists id :: Bears(w', alias, id, Managed(r))
  }

  lemma OnlyChangedIsSeen(w: World, w': World, alias: Alias)
    requires OthersSame(w, w', alias) && ExternalSame(w, w', alias)
    ensures OnlyChanged(w, w', alias)
  {
    forall a | a != alias
      ensures (a in w'.instances <==> a in w.instances) && (a in w.instances ==> w'.instances[a] == w.instances[a])
    {
      assert a in w'.instances - {alias} <==> a in w.instances - {alias};
      assert a in w.instances ==> (w'.instances - {alias})[a] == (w.instances - {alias})[a];
    }
    var old', new' := if alias in w.instances then w.instances[alias].mappers else map[], w'.instances[alias].mappers;
    forall id, text ensures Bears(w', alias, id, External(text)) <==> Bears(w, alias, id, External(text)) {
      assert id in ExternalMappers(new') <==> id in ExternalMappers(old');
      assert id in ExternalMappers(new') ==> ExternalMappers(new')[id] == ExternalMappers(old')[id];
    }
  }

  lemma PublishedIsSeen(w: World, w': World, alias: Alias, c: Config)
    requires Published(w, w', alias, c)
    ensures OnlyChanged(w, w', alias) && SavedAs(w', alias, c)
  {
    OnlyChangedIsSeen(w, w', alias);
    hide OnlyChanged;
    var mappers := w'.instances[alias].mappers;
    forall r ensures r in c.rules <==> exists id :: Bears(w', alias, id, Managed(r)) {
      if r in c.rules {
        var id :| id in ManagedIds(mappers) && mappers[id].rule == r;
        assert Bears(w', alias, id, Managed(r));
      }
      if id :| Bears(w', alias, id, Managed(r)) {
        assert id in ManagedIds(mappers);
      }
    }
  }

  /** An interrupted save has changed nothing, or left the provider disabled, or its last answer is all that was lost. */
  ghost predicate Interrupted(w: World, w': World, alias: Alias, c: Config) {
    || w'.instances == w.instances
    || (OnlyChanged(w, w', alias)
        && (w'.instances[alias].provider == Provider(true, false, c.settings) || SavedAs(w', alias, c)))
  }

  lemma LeftIsSeen(w: World, w': World, alias: Alias, c: Config)
    requires Left(w, w', alias, c)
    ensures Interrupted(w, w', alias, c)
  {
    if w'.instances != w.instances {
      if w'.instances[alias].provider == Staged(c) {
        OnlyChangedIsSeen(w, w', alias);
      } else {
        PublishedIsSeen(w, w', alias, c);
      }
    }
  }

  /** All instances other than the one at `alias` are the same. */
  predicate OthersSame(w: World, w': World, alias: Alias) {
    w'.instances - {alias} == w.instances - {alias}
  }

  /** The instance at `alias` has the mappers that the dashboard does not manage as before. */
  ghost predicate ExternalSame(w: World, w': World, alias: Alias) {
    alias in w'.instances
    && ExternalMappers(w'.instances[alias].mappers)
       == if alias in w.instances then ExternalMappers(w.instances[alias].mappers) else map[]
  }

  /** Work on the staged instance is under way: nothing is enabled, nothing else was touched. */
  ghost predicate InStage(w: World, w': World, alias: Alias, c: Config) {
    && Fresh(w') && c in w'.submitted
    && OthersSame(w, w', alias) && ExternalSame(w, w', alias)
    && w'.instances[alias].provider == Staged(c)
  }

  lemma Dropped(mappers: map<nat, Mapper>, id: nat)
    requires id in ManagedIds(mappers)
    ensures ManagedIds(mappers - {id}) == ManagedIds(mappers) - {id}
    ensures ExternalMappers(mappers - {id}) == ExternalMappers(mappers)
  {
  }

  lemma Added(mappers: map<nat, Mapper>, id: nat, rules: seq<Rule>, rule: Rule)
    requires id !in mappers && Carries(mappers, rules)
    ensures Carries(mappers[id := Managed(rule)], rules + [rule])
    ensures ExternalMappers(mappers[id := Managed(rule)]) == ExternalMappers(mappers)
  {
    AddedIds(mappers, id, rule);
    AddedIsFound(mappers, id, rules, rule);
    AddedExternal(mappers, id, rule);
  }

  lemma AddedExternal(mappers: map<nat, Mapper>, id: nat, rule: Rule)
    requires id !in mappers
    ensures ExternalMappers(mappers[id := Managed(rule)]) == ExternalMappers(mappers)
  {
  }

  lemma AddedIds(mappers: map<nat, Mapper>, id: nat, rule: Rule)
    requires id !in mappers
    ensures ManagedIds(mappers[id := Managed(rule)]) == ManagedIds(mappers) + {id}
    ensures |ManagedIds(mappers[id := Managed(rule)])| == |ManagedIds(mappers)| + 1
  {
    assert ManagedIds(mappers[id := Managed(rule)]) == ManagedIds(mappers) + {id};
  }

  lemma AddedIsFound(mappers: map<nat, Mapper>, id: nat, rules: seq<Rule>, rule: Rule)
    requires id !in mappers
    requires forall r :: r in rules ==> exists i :: i in ManagedIds(mappers) && mappers[i].rule == r
    ensures var after := mappers[id := Managed(rule)];
      forall r :: r in rules + [rule] ==> exists i :: i in ManagedIds(after) && after[i].rule == r
  {
    var after := mappers[id := Managed(rule)];
    forall r | r in rules + [rule] ensures exists i :: i in ManagedIds(after) && after[i].rule == r {
      if r in rules {
        var i :| i in ManagedIds(mappers) && mappers[i].rule == r;
        assert i in ManagedIds(after) && after[i].rule == r;
      } else {
        assert id in ManagedIds(after) && after[id].rule == r;
      }
    }
  }

  class FederatedSso {
    /** Whether all calls of Keycloak succeed. */
    const smooth: bool
    var world: World
    ghost var start: World
    ghost var trace: seq<Action>

    ghost predicate Valid()
      reads this
    {
      world == Run(start, trace) && Safe(start) && Fresh(start)
    }

    /** Everything proved about runs holds at every moment. */
    lemma Now()
      requires Valid()
      ensures Safe(world) && Fresh(world)
    {
      EveryRunIsSafe(start, trace);
      RunIsFresh(start, trace);
    }

    constructor (initial: World, smooth: bool)
      requires Safe(initial) && Fresh(initial)
      ensures Valid() && world == initial && this.smooth == smooth
    {
      this.smooth := smooth;
      world, start, trace := initial, initial, [];
    }

    method Call(a: Action) returns (ok: bool)
      requires Valid() && Enabled(world, a)
      modifies `world, `trace
      ensures Valid() && old(trace) <= trace && (ok ==> trace != old(trace))
      ensures world == if trace == old(trace) then old(world) else Apply(old(world), a)
      ensures smooth ==> ok
    {
      var arrives: bool, answers: bool := *, *;
      if !arrives && !smooth {
        return false;
      }
      RunSnoc(start, trace, a);
      world, trace := Apply(world, a), trace + [a];
      ok := answers || smooth;
    }

    /** The provider is written disabled, and its managed mappers are deleted. */
    method StageProvider(alias: Alias, c: Config) returns (ok: bool)
      requires Valid() && c in world.submitted
      requires alias in world.instances ==> world.instances[alias].provider.managed
      modifies `world, `trace
      ensures Valid() && old(trace) <= trace
      ensures ok ==> InStage(old(world), world, alias, c) && ManagedIds(world.instances[alias].mappers) == {}
      ensures world == old(world) || InStage(old(world), world, alias, c)
      ensures smooth ==> ok
    {
      ghost var w0 := world;
      Now();
      if alias !in world.instances {
        ok := Call(Create(alias, c));
        Now();
        return;
      }
      var current := world.instances[alias].mappers;
      var staged := Call(Stage(alias, c));
      Now();
      if !staged { return false; }
      var remaining := ManagedIds(current);
      while remaining != {}
        invariant Valid() && old(trace) <= trace && InStage(w0, world, alias, c)
        invariant ManagedIds(world.instances[alias].mappers) == remaining
        decreases remaining
      {
        var id :| id in remaining;
        Dropped(world.instances[alias].mappers, id);
        var dropped := Call(DropMapper(alias, id));
        Now();
        if !dropped { return false; }
        remaining := remaining - {id};
      }
      ok := true;
    }

    /** The new mappers are created one by one, and the provider is published last. */
    method Fill(alias: Alias, c: Config, ghost w0: World) returns (ok: bool)
      requires Valid() && c.Valid() && InStage(w0, world, alias, c)
      requires ManagedIds(world.instances[alias].mappers) == {}
      modifies `world, `trace
      ensures Valid() && old(trace) <= trace && InStage(w0, world, alias, c)
      ensures ok ==> Carries(world.instances[alias].mappers, c.rules)
      ensures smooth ==> ok
    {
      var i := 0;
      assert c.rules[..0] == [];
      while i < |c.rules|
        invariant 0 <= i <= |c.rules|
        invariant Valid() && old(trace) <= trace && InStage(w0, world, alias, c)
        invariant Carries(world.instances[alias].mappers, c.rules[..i])
      {
        Added(world.instances[alias].mappers, world.next, c.rules[..i], c.rules[i]);
        assert c.rules[..i + 1] == c.rules[..i] + [c.rules[i]];
        var added := Call(AddMapper(alias, c.rules[i]));
        Now();
        if !added { return false; }
        i := i + 1;
      }
      assert c.rules[..i] == c.rules;
      ok := true;
    }

    /** The body of the `try` block of `save`. */
    method Replace(alias: Alias, c: Config, entitledAtEnd: bool) returns (r: Result<(), Failure>)
      requires Valid() && c in world.submitted && c.Valid()
      requires alias in world.instances ==> world.instances[alias].provider.managed
      modifies `world, `trace
      ensures Valid() && old(trace) <= trace
      ensures r.Ok? ==> Published(old(world), world, alias, c) && (c.enabled ==> entitledAtEnd)
      ensures world == old(world) || InStage(old(world), world, alias, c) || Published(old(world), world, alias, c)
      ensures smooth ==> r == if c.enabled && !entitledAtEnd then Err(NotEntitled) else Ok(())
      ensures r == Err(NotEntitled) ==> InStage(old(world), world, alias, c)
    {
      ghost var w0 := world;
      var staged := StageProvider(alias, c);
      if !staged { return Err(Unavailable); }
      var filled := Fill(alias, c, w0);
      if !filled { return Err(Unavailable); }
      if c.enabled && !entitledAtEnd { return Err(NotEntitled); }
      var published := Call(Publish(alias, c));
      if !published { return Err(Unavailable); }
      r := Ok(());
    }

    /**
     Create or update a provider. On success it is exactly the reviewed configuration; on failure it is as before,
     or disabled, or gone if this call created it, or (if only the last response was lost) completely replaced.
     */
    method Save(alias: Alias, c: Config, expected: Expected, entitledAtStart: bool, entitledAtEnd: bool)
      returns (r: Result<(), Failure>)
      requires Valid()
      modifies `world, `trace
      ensures Valid() && old(trace) <= trace && Safe(world)
      ensures OthersSame(old(world), world, alias)
      ensures r.Ok? ==> entitledAtStart && Refusal(old(world), alias, c, expected).None?
      ensures r.Ok? ==> Published(old(world), world, alias, c) && (c.enabled ==> entitledAtEnd)
      ensures !entitledAtStart || Refusal(old(world), alias, c, expected).Some? ==>
        r.Err? && world.instances == old(world).instances
      ensures r.Err? ==> world.instances == old(world).instances || Left(old(world), world, alias, c)
      ensures r.Ok? ==> OnlyChanged(old(world), world, alias) && SavedAs(world, alias, c)
      ensures r.Err? ==> Interrupted(old(world), world, alias, c)
      ensures !(entitledAtStart && Reviewed(old(world), alias, c, expected)) ==>
        r.Err? && world.instances == old(world).instances
      ensures smooth && entitledAtStart && Reviewed(old(world), alias, c, expected) ==>
        r == if c.enabled && !entitledAtEnd then Err(NotEntitled) else Ok(())
      ensures smooth && entitledAtStart && Reviewed(old(world), alias, c, expected) && r.Err? ==>
        if alias !in old(world).instances then world.instances == old(world).instances
        else OnlyChanged(old(world), world, alias) && world.instances[alias].provider == Provider(true, false, c.settings)
    {
      hide Reviewed, Interrupted, OnlyChanged, SavedAs;
      Now();
      ReviewedExactly(world, alias, c, expected);
      NothingIsInterrupted(world, alias, c);
      if !entitledAtStart { return Err(NotEntitled); }
      var answers: bool := *;
      if !answers && !smooth { return Err(Unavailable); }
      var refusal := Refusal(world, alias, c, expected);
      if refusal.Some? { return Err(refusal.value); }
      ghost var before := world;
      r := Attempt(alias, c, entitledAtEnd);
      Now();
      if r.Ok? {
        PublishedIsSeen(before, world, alias, c);
      } else if Left(before, world, alias, c) {
        LeftIsSeen(before, world, alias, c);
      }
      if smooth && r.Err? && alias in before.instances { OnlyChangedIsSeen(before, world, alias); }
    }

    /** The `try` statement of `save`: an instance that this call created is removed again if anything fails. */
    method Attempt(alias: Alias, c: Config, entitledAtEnd: bool) returns (r: Result<(), Failure>)
      requires Valid() && c.Valid()
      requires alias in world.instances ==> world.instances[alias].provider.managed
      modifies `world, `trace
      ensures Valid() && old(trace) <= trace
      ensures r.Ok? ==> Published(old(world), world, alias, c) && (c.enabled ==> entitledAtEnd)
      ensures Left(old(world), world, alias, c) || (alias !in old(world).instances && world.instances == old(world).instances)
      ensures smooth ==> r == if c.enabled && !entitledAtEnd then Err(NotEntitled) else Ok(())
      ensures smooth && r.Err? ==> if alias in old(world).instances then OnlyStaged(old(world), world, alias, c)
                                   else world.instances == old(world).instances
    {
      var created := alias !in world.instances;
      RunSnoc(start, trace, Submit(c));
      world, trace := Apply(world, Submit(c)), trace + [Submit(c)];
      r := Replace(alias, c, entitledAtEnd);
      if r.Err? && created && alias in world.instances {
        Removal(old(world), world, alias);
        var _ := Call(Remove(alias));
      }
    }

    method Delete(alias: Alias, expected: Description) returns (r: Result<(), Failure>)
      requires Valid()
      modifies `world, `trace
      ensures Valid() && old(trace) <= trace && Safe(world) && OthersSame(old(world), world, alias)
      ensures r.Ok? ==> alias in old(world).instances && old(world).instances[alias].provider.managed
                        && expected == Describe(old(world).instances[alias]) && alias !in world.instances
      ensures r.Err? && !r.error.Unavailable? ==> world == old(world)
      ensures r.Ok? ==> ShownAs(old(world).instances[alias], expected) && world.instances == old(world).instances - {alias}
      ensures r == Err(Conflict) ==>
        alias in old(world).instances && old(world).instances[alias].provider.managed
        && !ShownAs(old(world).instances[alias], expected)
      ensures r == Err(NotFound) ==> !(alias in old(world).instances && old(world).instances[alias].provider.managed)
      ensures
        (smooth && alias in old(world).instances && old(world).instances[alias].provider.managed
         && ShownAs(old(world).instances[alias], expected)) ==> r.Ok?
    {
      hide ShownAs, Describe;
      if alias in world.instances { DescribedExactly(world.instances[alias], expected); }
      Now();
      var answers: bool := *;
      if !answers && !smooth { return Err(Unavailable); }
      if alias !in world.instances || !world.instances[alias].provider.managed { return Err(NotFound); }
      if expected != Describe(world.instances[alias]) { return Err(Conflict); }
      var removed := Call(Remove(alias));
      Now();
      if !removed { return Err(Unavailable); }
      r := Ok(());
    }

    method SwitchOff(alias: Alias, ghost w0: World, ghost done: set<Alias>) returns (ok: bool, ghost done': set<Alias>)
      requires Valid() && world == w0.(instances := Disabled(w0.instances, done)) && alias in w0.instances
      modifies `world, `trace
      ensures Valid() && old(trace) <= trace && world == w0.(instances := Disabled(w0.instances, done'))
      ensures done' == done + {alias} || (!ok && done' == done)
      ensures smooth ==> ok
    {
      DisabledOneMore(w0.instances, done, alias);
      ghost var sent := trace;
      ok := Call(Disable(alias));
      done' := if trace == sent then done else done + {alias};
    }

    /**
     Without the entitlement no external provider, managed or not, stays enabled; all else is preserved. `done` are
     the aliases that were switched off, all of them on success.
     */
    method EnforceEntitlement(available: bool) returns (r: Result<nat, Failure>, ghost done: set<Alias>)
      requires Valid()
      modifies `world, `trace
      ensures Valid() && old(trace) <= trace
      ensures done <= EnabledAliases(old(world))
      ensures world == old(world).(instances := Disabled(old(world).instances, done))
      ensures available ==> r == Ok(0) && done == {}
      ensures r.Ok? && !available ==> done == EnabledAliases(old(world)) && r.value == |done|
      ensures r.Ok? && !available ==> AllOff(old(world).instances, world.instances)
      ensures smooth ==> r.Ok?
    {
      done := {};
      assert Disabled(world.instances, {}) == world.instances;
      if available { return Ok(0), done; }
      var answers: bool := *;
      if !answers && !smooth { return Err(Unavailable), done; }
      r, done := SwitchAllOff();
    }

    /** Every enabled provider is switched off in turn; the first failure ends it. */
    method SwitchAllOff() returns (r: Result<nat, Failure>, ghost done: set<Alias>)
      requires Valid()
      modifies `world, `trace
      ensures Valid() && old(trace) <= trace
      ensures done <= EnabledAliases(old(world))
      ensures world == old(world).(instances := Disabled(old(world).instances, done))
      ensures r.Ok? ==> done == EnabledAliases(old(world)) && r.value == |done|
      ensures smooth ==> r.Ok?
    {
      hide Run, Safe, Fresh, Disabled, EnabledAliases;
      ghost var w0 := world;
      done := {};
      NothingDisabled(world);
      var enabled := EnabledAliases(world);
      var remaining, disabled := enabled, 0;
      assert enabled - remaining == {};
      while remaining != {}
        invariant Valid() && old(trace) <= trace
        invariant remaining <= enabled && done == enabled - remaining && disabled == |enabled - remaining|
        invariant world == w0.(instances := Disabled(w0.instances, done))
        decreases remaining
      {
        var alias :| alias in remaining;
        var ok;
        OneMoreSwitched(enabled, remaining, alias);
        ok, done := SwitchOff(alias, w0, done);
        if !ok { return Err(Unavailable), done; }
        remaining, disabled := remaining - {alias}, disabled + 1;
      }
      assert enabled - remaining == enabled;
      r := Ok(disabled);
    }
  }

  lemma NothingIsInterrupted(w: World, alias: Alias, c: Config)
    ensures Interrupted(w, w, alias, c) && OthersSame(w, w, alias) && Left(w, w, alias, c)
    ensures forall w': World :: w'.instances == w.instances ==> Interrupted(w, w', alias, c)
  {
  }

  /** Every provider is there as before, but for being disabled. */
  ghost predicate AllOff(before: map<Alias, Instance>, after: map<Alias, Instance>) {
    forall a ::
      && (a in after <==> a in before)
      && (a in after ==>
            && !after[a].provider.enabled && after[a].provider.managed == before[a].provider.managed
            && after[a].provider.settings == before[a].provider.settings && after[a].mappers == before[a].mappers)
  }

  lemma NothingDisabled(w: World)
    ensures w.(instances := Disabled(w.instances, {})) == w && EnabledAliases(w) <= w.instances.Keys
  {
    assert Disabled(w.instances, {}) == w.instances;
  }

  lemma OneMoreSwitched(enabled: set<Alias>, remaining: set<Alias>, alias: Alias)
    requires remaining <= enabled && alias in remaining
    ensures enabled - (remaining - {alias}) == (enabled - remaining) + {alias}
    ensures |enabled - (remaining - {alias})| == |enabled - remaining| + 1
  {
    assert enabled - (remaining - {alias}) == (enabled - remaining) + {alias};
  }

  lemma DisabledOneMore(instances: map<Alias, Instance>, done: set<Alias>, alias: Alias)
    requires alias in instances
    ensures Disabled(instances, done + {alias})
         == Disabled(instances, done)[alias := Off(Disabled(instances, done)[alias])]
  {
  }

  /** So, when it finishes, no provider is enabled, and none of them lost anything else. */
  lemma NoneStaysEnabled(w: World)
    ensures var after := w.(instances := Disabled(w.instances, EnabledAliases(w)));
      && EnabledAliases(after) == {}
      && after.instances.Keys == w.instances.Keys
      && forall a :: a in w.instances ==>
           after.instances[a].mappers == w.instances[a].mappers
           && after.instances[a].provider.settings == w.instances[a].provider.settings
  {
  }

  lemma {:induction false} RunIsFresh(w: World, h: seq<Action>)
    requires Fresh(w)
    ensures Fresh(Run(w, h))
  {
    if h != [] {
      RunIsFresh(w, h[..|h| - 1]);
      StepKeepsExternal(Run(w, h[..|h| - 1]), h[|h| - 1]);
    }
  }

  /** The instance is exactly the configuration, with the foreign mappers it had before. */
  ghost predicate Published(w: World, w': World, alias: Alias, c: Config) {
    && OthersSame(w, w', alias) && ExternalSame(w, w', alias)
    && w'.instances[alias].provider == Built(c) && Carries(w'.instances[alias].mappers, c.rules)
  }

  /** The provider is disabled, with the new settings, and the mappers that others have made. */
  ghost predicate OnlyStaged(w: World, w': World, alias: Alias, c: Config) {
    OthersSame(w, w', alias) && ExternalSame(w, w', alias) && w'.instances[alias].provider == Staged(c)
  }

  /** What an interrupted save leaves: nothing new, a disabled instance, or (if only the reply was lost) all of it. */
  ghost predicate Left(w: World, w': World, alias: Alias, c: Config) {
    w'.instances == w.instances
    || (OthersSame(w, w', alias) && ExternalSame(w, w', alias) && w'.instances[alias].provider == Staged(c))
    || Published(w, w', alias, c)
  }

  lemma Removal(w: World, w': World, alias: Alias)
    requires alias !in w.instances && OthersSame(w, w', alias)
    ensures w'.instances - {alias} == w.instances
  {
    assert w.instances - {alias} == w.instances;
  }

  function EnabledAliases(w: World): set<Alias> {
    set a | a in w.instances && w.instances[a].provider.enabled
  }

  function Off(i: Instance): Instance {
    i.(provider := i.provider.(enabled := false))
  }

  function Disabled(instances: map<Alias, Instance>, aliases: set<Alias>): map<Alias, Instance> {
    map a | a in instances :: if a in aliases then Off(instances[a]) else instances[a]
  }
}
