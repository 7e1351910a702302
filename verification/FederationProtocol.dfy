/**
 Staged updates of federated identity providers: disable, replace the managed mappers, enable again. Keycloak is a
 map from aliases to providers with their mappers; each write is one action that can fail before or after it took
 effect, and an action whose guard fails changes nothing.
 */
module FederationProtocol {
  import opened Wrappers

  datatype Alias = Alias(name: string)

  datatype Protocol = Oidc | Saml

  /** The part of a provider that administrators review, and the part they never see. */
  datatype Settings = Settings(protocol: Protocol, visible: string, secret: string)

  datatype Rule = Rule(name: string, source: string, value: string, role: string)

  /** A validated configuration: its rules carry distinct names, because their names count them. */
  datatype Config = Config(settings: Settings, enabled: bool, rules: seq<Rule>) {
    predicate Valid() {
      rules != [] && forall i, j :: 0 <= i < j < |rules| ==> rules[i] != rules[j]
    }
  }

  datatype Mapper = Managed(rule: Rule) | External(text: string)

  datatype Provider = Provider(managed: bool, enabled: bool, settings: Settings)

  datatype Instance = Instance(provider: Provider, mappers: map<nat, Mapper>)

  /** `submitted` records every validated configuration that an entitled administrator asked to save. */
  datatype World = World(instances: map<Alias, Instance>, next: nat, submitted: set<Config>)

  function Built(c: Config): Provider {
    Provider(true, c.enabled, c.settings)
  }

  function Staged(c: Config): Provider {
    Built(c).(enabled := false)
  }

  function ManagedIds(mappers: map<nat, Mapper>): set<nat> {
    set id | id in mappers && mappers[id].Managed?
  }

  function ExternalMappers(mappers: map<nat, Mapper>): map<nat, Mapper> {
    map id | id in mappers && mappers[id].External? :: mappers[id]
  }

  /** The managed mappers are exactly the given rules, each once. */
  ghost predicate Carries(mappers: map<nat, Mapper>, rules: seq<Rule>) {
    && |ManagedIds(mappers)| == |rules|
    && (forall id :: id in ManagedIds(mappers) ==> mappers[id].rule in rules)
    && (forall r :: r in rules ==> exists id :: id in ManagedIds(mappers) && mappers[id].rule == r)
  }

  ghost predicate Complete(i: Instance, c: Config) {
    i.provider.settings == c.settings && Carries(i.mappers, c.rules)
  }

  /** An enabled managed provider has the settings and the whole mapper set of one submitted configuration. */
  ghost predicate Safe(w: World) {
    forall a :: a in w.instances && w.instances[a].provider.managed && w.instances[a].provider.enabled ==>
      exists c :: c in w.submitted && Complete(w.instances[a], c)
  }

  datatype Action =
    | Submit(config: Config)
    | Create(alias: Alias, config: Config)
    | Stage(alias: Alias, config: Config)
    | DropMapper(alias: Alias, id: nat)
    | AddMapper(alias: Alias, rule: Rule)
    | Publish(alias: Alias, config: Config)
    | Remove(alias: Alias)
    | Disable(alias: Alias)

  predicate HeldBack(w: World, a: Alias) {
    a in w.instances && w.instances[a].provider.managed && !w.instances[a].provider.enabled
  }

  ghost predicate Enabled(w: World, a: Action) {
    match a
    case Submit(c) => c.Valid()
    case Create(alias, _) => alias !in w.instances
    case Stage(alias, _) => alias in w.instances && w.instances[alias].provider.managed
    case DropMapper(alias, id) =>
      HeldBack(w, alias) && id in w.instances[alias].mappers && w.instances[alias].mappers[id].Managed?
    case AddMapper(alias, _) => HeldBack(w, alias)
    case Publish(alias, c) =>
      HeldBack(w, alias) && w.instances[alias].provider == Staged(c) && c in w.submitted
      && Carries(w.instances[alias].mappers, c.rules)
    case Remove(alias) => alias in w.instances && w.instances[alias].provider.managed
    case Disable(alias) => alias in w.instances
  }

  function WithProvider(w: World, alias: Alias, p: Provider): World
    requires alias in w.instances
  {
    w.(instances := w.instances[alias := w.instances[alias].(provider := p)])
  }

  function WithMappers(w: World, alias: Alias, mappers: map<nat, Mapper>): World
    requires alias in w.instances
  {
    w.(instances := w.instances[alias := w.instances[alias].(mappers := mappers)])
  }

  function Target(a: Action): Option<Alias> {
    if a.Submit? then None else Some(a.alias)
  }

  function Apply(w: World, a: Action): World
    requires Target(a).Some? && !a.Create? ==> Target(a).value in w.instances
  {
    match a
    case Submit(c) => w.(submitted := w.submitted + {c})
    case Create(alias, c) => w.(instances := w.instances[alias := Instance(Staged(c), map[])])
    case Stage(alias, c) => WithProvider(w, alias, Staged(c))
    case DropMapper(alias, id) => WithMappers(w, alias, w.instances[alias].mappers - {id})
    case AddMapper(alias, rule) =>
      WithMappers(w, alias, w.instances[alias].mappers[w.next := Managed(rule)]).(next := w.next + 1)
    case Publish(alias, c) => WithProvider(w, alias, Built(c))
    case Remove(alias) => w.(instances := w.instances - {alias})
    case Disable(alias) => WithProvider(w, alias, w.instances[alias].provider.(enabled := false))
  }

  ghost function Step(w: World, a: Action): World {
    if Enabled(w, a) then Apply(w, a) else w
  }

  ghost function Run(w: World, h: seq<Action>): World {
    if h == [] then w else Step(Run(w, h[..|h| - 1]), h[|h| - 1])
  }

  lemma RunSnoc(w: World, h: seq<Action>, a: Action)
    ensures Run(w, h + [a]) == Step(Run(w, h), a)
  {
    assert (h + [a])[..|h + [a]| - 1] == h;
  }

  lemma StepIsSafe(w: World, a: Action)
    requires Safe(w)
    ensures Safe(Step(w, a))
  {
    if Enabled(w, a) {
      var w' := Apply(w, a);
      forall x | x in w'.instances && w'.instances[x].provider.managed && w'.instances[x].provider.enabled
        ensures exists c :: c in w'.submitted && Complete(w'.instances[x], c)
      {
        if Target(a) == Some(x) {
          assert Complete(w'.instances[x], a.config);
        } else {
          var c :| c in w.submitted && Complete(w.instances[x], c);
          assert c in w'.submitted;
        }
      }
    }
  }

  /**
   Whatever sequence of staged writes is cut short wherever it may be, no enabled provider ever runs with a mixture
   of two configurations or with part of a mapper set.
   */
  lemma {:induction false} EveryRunIsSafe(w: World, h: seq<Action>)
    requires Safe(w)
    ensures Safe(Run(w, h))
  {
    if h != [] {
      EveryRunIsSafe(w, h[..|h| - 1]);
      StepIsSafe(Run(w, h[..|h| - 1]), h[|h| - 1]);
    }
  }

  ghost predicate KeepsExternal(w: World, w': World) {
    forall x :: x in w.instances ==>
      x in w'.instances && ExternalMappers(w'.instances[x].mappers) == ExternalMappers(w.instances[x].mappers)
  }

  /** Mapper identifiers that are still to be drawn are free. */
  ghost predicate Fresh(w: World) {
    forall x :: x in w.instances ==> forall id :: id in w.instances[x].mappers ==> id < w.next
  }

  lemma StepKeepsExternal(w: World, a: Action)
    requires Fresh(w)
    ensures Fresh(Step(w, a))
    ensures !a.Remove? ==> KeepsExternal(w, Step(w, a))
  {
    if Enabled(w, a) {
      var w' := Apply(w, a);
      forall x | x in w.instances && x in w'.instances
        ensures ExternalMappers(w'.instances[x].mappers) == ExternalMappers(w.instances[x].mappers)
      {
      }
    }
  }

  /** Mappers that the dashboard does not manage are the same after any sequence of writes, short of a deletion. */
  lemma {:induction false} ExternalMappersAreUntouched(w: World, h: seq<Action>)
    requires Fresh(w) && forall a :: a in h ==> !a.Remove?
    ensures Fresh(Run(w, h)) && KeepsExternal(w, Run(w, h))
  {
    if h != [] {
      ExternalMappersAreUntouched(w, h[..|h| - 1]);
      assert h[|h| - 1] in h;
      StepKeepsExternal(Run(w, h[..|h| - 1]), h[|h| - 1]);
    }
  }
}
