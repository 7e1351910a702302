/**
 Durable LiteLLM service keys: the two stores that `ServiceKeys` keeps in step, as a state machine.

 A world is the Kubernetes Secrets written for application instances plus the key registry of LiteLLM.
 Every write the operator issues is one action, and an action whose guard fails changes nothing, so a run is
 any sequence of actions and a crash between two calls is just a shorter run. Key material is identified with
 its SHA-256 identifier and is drawn fresh.
 */
module KeyProtocol {
  import opened Wrappers

  type KeyId = nat
  type Uid = string

  /** Seconds for which a replaced key stays usable. */
  const ROTATION_GRACE_SECONDS := 900.0

  datatype Location = Location(namespace: string, name: string)

  datatype Retired = Retired(id: KeyId, until: real)

  datatype Secret = Secret(
    owner: Uid, active: Option<KeyId>, pending: Option<KeyId>,
    requested: Option<string>, pendingRequested: Option<string>, retiring: seq<Retired>, revision: string)

  datatype Key = Key(owner: Uid, location: Location, blocked: bool)

  /** `issued` records every candidate ever drawn; `now` is the last clock reading. */
  datatype World = World(secrets: map<Location, Secret>, keys: map<KeyId, Key>, issued: set<KeyId>, now: real)

  const EMPTY := World(map[], map[], {}, 0.0)

  datatype Action =
    | Tick(at: real)
      // ensure, while the Secret is missing
    | RevokeLost(owner: Uid, location: Location, id: KeyId)
    | DropRecorded(owner: Uid, location: Location, id: KeyId)
    | CreateIntent(owner: Uid, location: Location, candidate: KeyId, request: string)
      // ensure, while the Secret exists
    | Expire(owner: Uid, location: Location, id: KeyId)
    | SaveKeep(owner: Uid, location: Location, keep: seq<Retired>)
    | SetBlocked(owner: Uid, location: Location, id: KeyId, blocked: bool)
    | SaveIntent(owner: Uid, location: Location, candidate: KeyId, request: string)
    | Generate(owner: Uid, location: Location, id: KeyId)
    | Promote(owner: Uid, location: Location, revision: string)
      // delete
    | Revoke(owner: Uid, location: Location, id: KeyId)
    | DeleteSecret(owner: Uid, location: Location)
      // the outside world
    | SecretLost(location: Location)
    | KeyLost(id: KeyId)

  predicate Owned(w: World, owner: Uid, id: KeyId) {
    id in w.keys && w.keys[id].owner == owner
  }

  function OwnedKeys(w: World, owner: Uid): set<KeyId> {
    set id | id in w.keys && w.keys[id].owner == owner
  }

  predicate Held(w: World, owner: Uid, location: Location) {
    location in w.secrets && w.secrets[location].owner == owner
  }

  function AsSet(id: Option<KeyId>): set<KeyId> {
    if id.Some? then {id.value} else {}
  }

  function RetiringIds(s: Secret): set<KeyId> {
    set r | r in s.retiring :: r.id
  }

  /** Every key a Secret accounts for. */
  function Listed(s: Secret): set<KeyId> {
    AsSet(s.active) + AsSet(s.pending) + RetiringIds(s)
  }

  /** A new candidate is drawn for a first key, or for a changed request once the grace list is empty. */
  predicate NeedsCandidate(s: Secret, request: string) {
    s.pending.None? && (s.active.None? || (s.requested != Some(request) && s.retiring == []))
  }

  function Intended(s: Secret, candidate: KeyId, request: string): Secret {
    s.(pending := Some(candidate), pendingRequested := Some(request))
  }

  function FirstIntent(owner: Uid, candidate: KeyId, request: string): Secret {
    Secret(owner, None, Some(candidate), None, Some(request), [], "")
  }

  /** The key an enabled call registers: the pending candidate, else the active key. */
  function Selected(s: Secret): Option<KeyId> {
    if s.pending.Some? then s.pending else s.active
  }

  function Promoted(s: Secret, revision: string, at: real): Secret
    requires s.pending.Some?
  {
    s.(active := s.pending, pending := None,
       requested := s.pendingRequested, pendingRequested := None,
       retiring := if s.active.Some? then s.retiring + [Retired(s.active.value, at + ROTATION_GRACE_SECONDS)]
       else s.retiring,
       revision := revision)
  }

  predicate Enabled(w: World, a: Action) {
    match a
    case Tick(at) => w.now <= at
    case RevokeLost(o, l, id) => l !in w.secrets && Owned(w, o, id) && !Held(w, o, w.keys[id].location)
    case DropRecorded(o, l, id) =>
      Owned(w, o, id) && Held(w, o, w.keys[id].location) && (l !in w.secrets || w.keys[id].location != l)
    case CreateIntent(o, l, c, _) => l !in w.secrets && c !in w.issued && OwnedKeys(w, o) == {}
    case Expire(o, l, id) =>
      Held(w, o, l) && Owned(w, o, id) && exists r :: r in w.secrets[l].retiring && r.id == id && r.until <= w.now
    case SaveKeep(o, l, keep) =>
      Held(w, o, l)
      && (forall r :: r in keep ==> r in w.secrets[l].retiring)
      && (forall r :: r in w.secrets[l].retiring && r !in keep ==> r.until <= w.now && r.id !in w.keys)
      && |keep| <= |w.secrets[l].retiring|
    case SetBlocked(o, l, id, _) => Owned(w, o, id)
    case SaveIntent(o, l, c, request) => Held(w, o, l) && c !in w.issued && NeedsCandidate(w.secrets[l], request)
    case Generate(o, l, id) => Held(w, o, l) && id !in w.keys && Selected(w.secrets[l]) == Some(id)
    case Promote(o, l, _) =>
      Held(w, o, l) && w.secrets[l].pending.Some? && w.secrets[l].pendingRequested.Some?
      && Owned(w, o, w.secrets[l].pending.value) && !w.keys[w.secrets[l].pending.value].blocked
    case Revoke(o, l, id) => Owned(w, o, id)
    case DeleteSecret(o, l) => Held(w, o, l) && OwnedKeys(w, o) == {}
    case SecretLost(_) => true
    case KeyLost(_) => true
  }

  function WithSecret(w: World, l: Location, s: Secret): World {
    w.(secrets := w.secrets[l := s])
  }

  function WithoutKey(w: World, id: KeyId): World {
    w.(keys := w.keys - {id})
  }

  function Apply(w: World, a: Action): World
    requires Enabled(w, a)
  {
    match a
    case Tick(at) => w.(now := at)
    case RevokeLost(_, _, id) => WithoutKey(w, id)
    case DropRecorded(_, _, id) => w.(secrets := w.secrets - {w.keys[id].location})
    case CreateIntent(o, l, c, request) => WithSecret(w, l, FirstIntent(o, c, request)).(issued := w.issued + {c})
    case Expire(_, _, id) => WithoutKey(w, id)
    case SaveKeep(_, l, keep) => WithSecret(w, l, w.secrets[l].(retiring := keep))
    case SetBlocked(_, _, id, blocked) => w.(keys := w.keys[id := w.keys[id].(blocked := blocked)])
    case SaveIntent(_, l, c, request) => WithSecret(w, l, Intended(w.secrets[l], c, request)).(issued := w.issued + {c})
    case Generate(o, l, id) => w.(keys := w.keys[id := Key(o, l, false)])
    case Promote(_, l, revision) => WithSecret(w, l, Promoted(w.secrets[l], revision, w.now))
    case Revoke(_, _, id) => WithoutKey(w, id)
    case DeleteSecret(_, l) => w.(secrets := w.secrets - {l})
    case SecretLost(l) => w.(secrets := w.secrets - {l})
    case KeyLost(id) => WithoutKey(w, id)
  }

  function Step(w: World, a: Action): World {
    if Enabled(w, a) then Apply(w, a) else w
  }

  function Run(w: World, h: seq<Action>): World {
    if h == [] then w else Step(Run(w, h[..|h| - 1]), h[|h| - 1])
  }

  lemma RunSnoc(w: World, h: seq<Action>, a: Action)
    ensures Run(w, h + [a]) == Step(Run(w, h), a)
  {
    assert (h + [a])[..|h + [a]| - 1] == h;
  }

  // ---------- what every Secret looks like in every reachable state ----------

  /** Pending and retiring never coexist, at most one key retires, and no key plays two parts. */
  ghost predicate WellFormed(s: Secret, w: World) {
    && |s.retiring| <= 1
    && (s.pending.Some? ==> s.retiring == [] && s.active != s.pending)
    && (s.pending.Some? <==> s.pendingRequested.Some?)
    && (s.active.None? ==> s.retiring == [])
    && (forall r :: r in s.retiring ==> s.active != Some(r.id) && r.until <= w.now + ROTATION_GRACE_SECONDS)
    && Listed(s) <= w.issued
  }

  ghost predicate AllWellFormed(w: World) {
    && (forall l :: l in w.secrets ==> WellFormed(w.secrets[l], w))
    && w.keys.Keys <= w.issued
  }

  lemma PromotedListsTheSame(s: Secret, revision: string, at: real)
    requires s.pending.Some?
    ensures Listed(Promoted(s, revision, at)) == Listed(s)
  {
    var p := Promoted(s, revision, at);
    if s.active.Some? {
      var r := Retired(s.active.value, at + ROTATION_GRACE_SECONDS);
      assert p.retiring == s.retiring + [r];
      assert r in p.retiring;
      assert forall x :: x in s.retiring ==> x in p.retiring;
      assert RetiringIds(p) == RetiringIds(s) + {r.id};
    }
  }

  lemma StepKeepsWellFormed(w: World, a: Action)
    requires AllWellFormed(w)
    ensures AllWellFormed(Step(w, a))
  {
    if Enabled(w, a) {
      var w' := Apply(w, a);
      forall l | l in w'.secrets ensures WellFormed(w'.secrets[l], w') {
        if l in w.secrets { assert WellFormed(w.secrets[l], w); }
        if a.Promote? && l == a.location {
          PromotedListsTheSame(w.secrets[l], a.revision, w.now);
        }
      }
      if a.Generate? { assert WellFormed(w.secrets[a.location], w); }
    }
  }

  lemma {:induction false} RunKeepsWellFormed(w: World, h: seq<Action>)
    requires AllWellFormed(w)
    ensures AllWellFormed(Run(w, h))
  {
    if h != [] {
      RunKeepsWellFormed(w, h[..|h| - 1]);
      StepKeepsWellFormed(Run(w, h[..|h| - 1]), h[|h| - 1]);
    }
  }

  // ---------- every owned key is accounted for ----------

  /** While the Secret exists, it lists every key LiteLLM knows for this owner. */
  ghost predicate Covers(w: World, owner: Uid, location: Location) {
    Held(w, owner, location) ==> OwnedKeys(w, owner) <= Listed(w.secrets[location])
  }

  /** The action is a write of `owner` made for a Secret elsewhere. */
  predicate MadeElsewhere(a: Action, owner: Uid, location: Location) {
    && !a.Tick? && !a.SecretLost? && !a.KeyLost?
    && a.owner == owner && a.location != location
  }

  lemma StepKeepsCoverage(w: World, a: Action, owner: Uid, location: Location)
    requires AllWellFormed(w) && Covers(w, owner, location) && !MadeElsewhere(a, owner, location)
    ensures Covers(Step(w, a), owner, location)
  {
    if Enabled(w, a) && Held(w, owner, location) && Held(Apply(w, a), owner, location) {
      var s, s' := w.secrets[location], Apply(w, a).secrets[location];
      if a.Promote? && a.location == location {
        PromotedListsTheSame(s, a.revision, w.now);
      } else if a.SaveKeep? && a.location == location {
        forall id | id in OwnedKeys(w, owner) ensures id in Listed(s') {
          if id in RetiringIds(s) {
            var r :| r in s.retiring && r.id == id;
            assert r in s'.retiring;
          }
        }
      }
    }
  }

  /**
   Key-rotation safety. However the operator is interrupted, as long as the owner keeps one Secret location, a
   Secret that exists lists every key the owner has, with at most one retiring key and never together with a
   pending one, so at most two of its keys are live.
   */
  lemma {:induction false} EveryKeyAccountedFor(h: seq<Action>, owner: Uid, location: Location)
    requires forall a :: a in h ==> !MadeElsewhere(a, owner, location)
    ensures Covers(Run(EMPTY, h), owner, location)
    ensures var w := Run(EMPTY, h); Held(w, owner, location) ==>
      var s := w.secrets[location];
      && |s.retiring| <= 1 && (s.pending.Some? ==> s.retiring == [])
      && |OwnedKeys(w, owner)| <= 2
  {
    var w := Run(EMPTY, h);
    RunKeepsWellFormed(EMPTY, h);
    if h != [] {
      var before := Run(EMPTY, h[..|h| - 1]);
      EveryKeyAccountedFor(h[..|h| - 1], owner, location);
      RunKeepsWellFormed(EMPTY, h[..|h| - 1]);
      StepKeepsCoverage(before, h[|h| - 1], owner, location);
    }
    if Held(w, owner, location) {
      AtMostTwo(w.secrets[location], OwnedKeys(w, owner), w);
    }
  }

  lemma AtMostTwo(s: Secret, owned: set<KeyId>, w: World)
    requires WellFormed(s, w) && owned <= Listed(s)
    ensures |owned| <= 2
  {
    var rest := if s.pending.Some? then s.pending else if s.retiring == [] then None else Some(s.retiring[0].id);
    assert Listed(s) <= AsSet(s.active) + AsSet(rest);
    assert owned <= AsSet(s.active) + AsSet(rest);
    var small := owned - AsSet(s.active);
    SubsetSize(small, AsSet(rest));
    SubsetSize(owned, small + AsSet(s.active));
  }

  lemma {:induction false} SubsetSize(a: set<KeyId>, b: set<KeyId>)
    requires a <= b
    ensures |a| <= |b|
  {
    if a != {} {
      var x :| x in a;
      SubsetSize(a - {x}, b - {x});
    }
  }

  /**
   Exactly when one write at an existing Secret leaves every key accounted for: when every key was before it. A
   Secret that has lost track of a key never regains it, because only listed keys are ever expired.
   */
  lemma CoverageIsKeptAndNeverRepaired(w: World, a: Action, owner: Uid, location: Location)
    requires AllWellFormed(w) && Enabled(w, a) && Held(w, owner, location)
    requires a.Expire? || a.SaveKeep? || a.SetBlocked? || a.SaveIntent? || a.Generate? || a.Promote?
    requires a.owner == owner && a.location == location
    ensures Covers(Step(w, a), owner, location) <==> Covers(w, owner, location)
  {
    var s, s' := w.secrets[location], Apply(w, a).secrets[location];
    if Covers(w, owner, location) {
      StepKeepsCoverage(w, a, owner, location);
    } else {
      var lost :| lost in OwnedKeys(w, owner) && lost !in Listed(s);
      if a.Promote? { PromotedListsTheSame(s, a.revision, w.now); }
      if a.Expire? { assert a.id in RetiringIds(s); }
      assert lost in OwnedKeys(Apply(w, a), owner) && lost !in Listed(s');
    }
  }

  /**
   An owner that moves can leave a Secret behind: the intent is saved at A, the operator stops before the key is
   registered, the owner is served at B, and then moves back to A. Nothing recorded A, so its Secret survived and
   does not list the key made at B.
   */
  lemma MovingBackLosesTrack(owner: Uid, a: Location, b: Location)
    requires a != b
    ensures var h := [CreateIntent(owner, a, 0, "r"), CreateIntent(owner, b, 1, "r"), Generate(owner, b, 1)];
      !Covers(Run(EMPTY, h), owner, a)
  {
    var first, second, third := CreateIntent(owner, a, 0, "r"), CreateIntent(owner, b, 1, "r"), Generate(owner, b, 1);
    RunSnoc(EMPTY, [], first);
    RunSnoc(EMPTY, [first], second);
    RunSnoc(EMPTY, [first, second], third);
    assert [] + [first] == [first] && [first] + [second] == [first, second]
        && [first, second] + [third] == [first, second, third];
    var w := Run(EMPTY, [first, second]);
    assert OwnedKeys(Run(EMPTY, [first]), owner) == {};
    assert 1 in OwnedKeys(Step(w, third), owner);
  }

  // ---------- the active key stays usable, the replaced key gets its grace ----------

  /** A loss that the operator does not cause: external removal, or the deletion of the whole instance. */
  predicate Removal(a: Action, owner: Uid) {
    a.KeyLost? || (a.Revoke? && a.owner == owner)
  }

  ghost predicate ActiveRegistered(w: World, owner: Uid, location: Location) {
    Held(w, owner, location) && w.secrets[location].active.Some? ==>
      Owned(w, owner, w.secrets[location].active.value)
  }

  /**
   A key is promoted only after LiteLLM registered it, and no rotation step ever removes the active key: in every
   reachable state, at every crash point, the key that the application reads from its Secret is registered.
   */
  lemma {:induction false} ActiveKeyAlwaysRegistered(h: seq<Action>, owner: Uid, location: Location)
    requires forall a :: a in h ==> !MadeElsewhere(a, owner, location) && !Removal(a, owner)
    ensures ActiveRegistered(Run(EMPTY, h), owner, location)
  {
    if h != [] {
      hide Step, ActiveRegistered, AllWellFormed, MadeElsewhere, Removal;
      ActiveKeyAlwaysRegistered(h[..|h| - 1], owner, location);
      RunKeepsWellFormed(EMPTY, h[..|h| - 1]);
      assert h[|h| - 1] in h;
      StepKeepsActive(Run(EMPTY, h[..|h| - 1]), h[|h| - 1], owner, location);
    } else {
      assert location !in EMPTY.secrets;
    }
  }

  lemma StepKeepsActive(w: World, a: Action, owner: Uid, location: Location)
    requires AllWellFormed(w) && ActiveRegistered(w, owner, location)
    requires !MadeElsewhere(a, owner, location) && !Removal(a, owner)
    ensures ActiveRegistered(Step(w, a), owner, location)
  {
    if Held(w, owner, location) { assert WellFormed(w.secrets[location], w); }
    hide AllWellFormed;
    match a
    case Promote(_, _, _) =>
    case Generate(_, _, _) =>
    case _ =>
  }

  ghost predicate InGrace(w: World, owner: Uid, location: Location, r: Retired) {
    Held(w, owner, location) && r in w.secrets[location].retiring && Owned(w, owner, r.id)
  }

  /** The Secret itself goes away. */
  predicate SecretRemoval(a: Action, owner: Uid, location: Location) {
    (a.SecretLost? && a.location == location) || (a.DeleteSecret? && a.owner == owner)
  }

  lemma StepKeepsGrace(w: World, a: Action, owner: Uid, location: Location, r: Retired)
    requires AllWellFormed(w) && InGrace(w, owner, location, r)
    requires !MadeElsewhere(a, owner, location) && !Removal(a, owner) && !SecretRemoval(a, owner, location)
    requires Step(w, a).now < r.until
    ensures InGrace(Step(w, a), owner, location, r)
  {
    assert WellFormed(w.secrets[location], w);
    hide AllWellFormed;
    if a.SaveKeep? && a.location == location && Enabled(w, a) {
      assert r in a.keep;
    }
  }

  /**
   Whatever rotations and crashes follow, a replaced key stays registered and listed until its time is up, as
   long as the Secret itself survives and nobody outside removes the key.
   */
  lemma {:induction false} ReplacedKeyKeepsItsGrace(
    w: World, h: seq<Action>, owner: Uid, location: Location, r: Retired)
    requires AllWellFormed(w) && InGrace(w, owner, location, r)
    requires forall a :: a in h ==>
      !MadeElsewhere(a, owner, location) && !Removal(a, owner) && !SecretRemoval(a, owner, location)
    requires Run(w, h).now < r.until
    ensures InGrace(Run(w, h), owner, location, r)
  {
    if h != [] {
      var before, a := Run(w, h[..|h| - 1]), h[|h| - 1];
      TimeNeverRunsBack(before, a);
      ReplacedKeyKeepsItsGrace(w, h[..|h| - 1], owner, location, r);
      RunKeepsWellFormed(w, h[..|h| - 1]);
      StepKeepsGrace(before, a, owner, location, r);
    }
  }

  lemma TimeNeverRunsBack(w: World, a: Action)
    ensures w.now <= Step(w, a).now
  {
  }

  /** Promotion starts that grace: the key it replaces retires 900 seconds after the clock reading at hand. */
  lemma PromotionStartsTheGrace(w: World, owner: Uid, location: Location, revision: string)
    requires AllWellFormed(w) && Enabled(w, Promote(owner, location, revision))
    requires ActiveRegistered(w, owner, location) && w.secrets[location].active.Some?
    ensures InGrace(Step(w, Promote(owner, location, revision)), owner, location,
                    Retired(w.secrets[location].active.value, w.now + ROTATION_GRACE_SECONDS))
  {
    assert WellFormed(w.secrets[location], w);
  }
}
