/**
 The operator's `ServiceKeys`: each Kubernetes or LiteLLM request is one `Call`, which may fail before or after it
 took effect, so every early return below is also a crash point. The methods are proved to issue only enabled
 actions of `KeyProtocol`, and to reach exactly the state described here when they succeed.
 */
module ServiceKeys {
  import opened Wrappers
  import opened KeyProtocol
  import opened KeyTracking

  datatype Failure = Unavailable | Foreign

  // ---------- what a successful call leaves behind ----------

  function Keep(retiring: seq<Retired>, at: real): seq<Retired> {
    if retiring == [] then []
    else if at >= retiring[0].until then Keep(retiring[1..], at)
    else [retiring[0]] + Keep(retiring[1..], at)
  }

  function ExpiredIds(retiring: seq<Retired>, at: real): set<KeyId> {
    set r | r in retiring && at >= r.until :: r.id
  }

  /** Retired keys whose time is up at `at` are gone from both stores. */
  function Scanned(w: World, l: Location, at: real): World
    requires l in w.secrets
  {
    var s := w.secrets[l];
    w.(secrets := w.secrets[l := s.(retiring := Keep(s.retiring, at))],
       keys := w.keys - ExpiredIds(s.retiring, at))
  }

  function Blocked(w: World, ids: set<KeyId>): World {
    w.(keys := map id | id in w.keys :: if id in ids then w.keys[id].(blocked := true) else w.keys[id])
  }

  /** The Secret was missing: nothing of the lost credentials survives, and a first intent is stored. */
  function Replaced(w: World, owner: Uid, l: Location, candidate: KeyId, request: string): World {
    WithSecret(WithoutRecords(w, OwnedKeys(w, owner)), l, FirstIntent(owner, candidate, request))
    .(issued := w.issued + {candidate})
  }

  function WithIntent(w: World, l: Location, candidate: KeyId, request: string): World
    requires l in w.secrets
  {
    if NeedsCandidate(w.secrets[l], request)
    then WithSecret(w, l, Intended(w.secrets[l], candidate, request)).(issued := w.issued + {candidate})
    else w
  }

  function Registered(w: World, id: KeyId, owner: Uid, l: Location): World {
    w.(keys := w.keys[id := if id in w.keys then w.keys[id].(blocked := false) else Key(owner, l, false)])
  }

  /** The selected key is registered and unblocked, and a pending one becomes active. */
  function Activated(w: World, owner: Uid, l: Location, revision: string, at: real): World
    requires l in w.secrets && Selected(w.secrets[l]).Some?
  {
    var s := w.secrets[l];
    var registered := Registered(w, Selected(s).value, owner, l);
    if s.pending.Some? then WithSecret(registered, l, Promoted(s, revision, at)).(now := at) else registered.(now := at)
  }

  function Served(w: World, owner: Uid, l: Location, request: string, candidate: KeyId, revision: string,
                  scan: real, at: real): World
    requires l in w.secrets
  {
    var intended := WithIntent(Scanned(w, l, scan), l, candidate, request);
    Activated(intended, owner, l, revision, at)
  }

  /** The records in `ids` are gone, with the Secrets that they name. */
  function WithoutRecords(w: World, ids: set<KeyId>): World {
    w.(secrets := w.secrets - (set id | id in ids && id in w.keys :: w.keys[id].location), keys := w.keys - ids)
  }

  lemma WithoutOneMore(w: World, done: set<KeyId>, id: KeyId)
    requires id in w.keys && id !in done
    ensures var now, l := WithoutRecords(w, done), w.keys[id].location;
      WithoutRecords(w, done + {id}) == now.(secrets := now.secrets - {l}, keys := now.keys - {id})
  {
    var l := w.keys[id].location;
    assert (set i | i in done + {id} && i in w.keys :: w.keys[i].location)
        == (set i | i in done && i in w.keys :: w.keys[i].location) + {l};
  }

  /** As `WithoutRecords`, but the Secret at `l` stays. */
  function WithoutRecordsExcept(w: World, ids: set<KeyId>, l: Location): World {
    w.(secrets := w.secrets - ((set id | id in ids && id in w.keys :: w.keys[id].location) - {l}), keys := w.keys - ids)
  }

  lemma WithoutOneMoreExcept(w: World, done: set<KeyId>, id: KeyId, l: Location)
    requires id in w.keys && id !in done
    ensures var now, at := WithoutRecordsExcept(w, done, l), w.keys[id].location;
      WithoutRecordsExcept(w, done + {id}, l)
      == now.(secrets := if at == l then now.secrets else now.secrets - {at}, keys := now.keys - {id})
  {
    WithoutOneMore(w, done, id);
    assert (set i | i in done + {id} && i in w.keys :: w.keys[i].location)
        == (set i | i in done && i in w.keys :: w.keys[i].location) + {w.keys[id].location};
  }

  function Removed(w: World, owner: Uid, l: Location): World {
    var rest := WithoutRecordsExcept(w, OwnedKeys(w, owner), l);
    rest.(secrets := rest.secrets - {l})
  }

  /** No key of the owner is left, and of the Secrets neither the one at `l` nor one that such a key names. */
  ghost predicate OwnerRemoved(w: World, u: World, owner: Uid, l: Location) {
    && (forall id ::
          && (id in u.keys <==> id in w.keys && w.keys[id].owner != owner)
          && (id in u.keys ==> u.keys[id] == w.keys[id]))
    && (forall other ::
          && (other in u.secrets <==> other in w.secrets && other != l && !Recorded(w, owner, other))
          && (other in u.secrets ==> u.secrets[other] == w.secrets[other]))
  }

  lemma RemovalIsSeen(w: World, owner: Uid, l: Location)
    ensures OwnerRemoved(w, Removed(w, owner, l), owner, l)
  {
    var rest := WithoutRecordsExcept(w, OwnedKeys(w, owner), l);
    forall other | other != l ensures other in rest.secrets <==> other in w.secrets && !Recorded(w, owner, other) {
    }
  }

  lemma RemovalIsLast(w: World, owner: Uid, l: Location)
    ensures var rest := WithoutRecordsExcept(w, OwnedKeys(w, owner), l);
      OwnedKeys(rest, owner) == {} && (l in rest.secrets <==> l in w.secrets)
  {
  }

  function Named(id: Option<KeyId>): seq<KeyId> {
    if id.Some? then [id.value] else []
  }

  function RetiringSeq(retiring: seq<Retired>): (ids: seq<KeyId>)
    ensures forall r :: r in retiring ==> r.id in ids
    ensures forall id :: id in ids ==> exists r :: r in retiring && r.id == id
  {
    if retiring == [] then []
    else
      assert retiring[0] in retiring;
      assert forall r :: r in retiring ==> r == retiring[0] || r in retiring[1..];
      [retiring[0].id] + RetiringSeq(retiring[1..])
  }

  /** Every key that a suspended instance must not use. */
  function Suspended(s: Secret): (ids: seq<KeyId>)
    ensures (set id | id in ids) == Listed(s)
  {
    Named(s.active) + Named(s.pending) + RetiringSeq(s.retiring)
  }

  method Listing(ids: set<KeyId>) returns (s: seq<KeyId>)
    ensures (set id | id in s) == ids
  {
    var rest := ids;
    s := [];
    while rest != {}
      invariant rest <= ids && forall id :: id in s <==> id in ids - rest
      decreases rest
    {
      var id :| id in rest;
      s, rest := s + [id], rest - {id};
    }
  }

  lemma KeepIsFilter(retiring: seq<Retired>, at: real)
    ensures forall r :: r in Keep(retiring, at) <==> r in retiring && at < r.until
    ensures |Keep(retiring, at)| <= |retiring|
  {
  }

  // ---------- what a caller sees ----------

  /** A call is due to change the active key: one is pending or missing, or a new one is requested and no grace runs. */
  ghost predicate RotationIsDue(s: Secret, request: string, scan: real) {
    || s.pending.Some? || s.active.None?
    || (s.requested != Some(request) && forall r :: r in s.retiring ==> r.until <= scan)
  }

  /** The time of the key is up. */
  ghost predicate TimeIsUp(s: Secret, id: KeyId, scan: real) {
    exists r :: r in s.retiring && r.id == id && r.until <= scan
  }

  /**
   What a successful call does to a Secret. If a rotation is due, the pending key or the new candidate becomes active
   with the revision of this call, and the key it replaces gets its grace; otherwise key and revision stay.
   */
  ghost predicate SecretServed(s: Secret, t: Secret, request: string, candidate: KeyId, revision: string,
                               scan: real, at: real) {
    && t.owner == s.owner && t.pending.None? && t.pendingRequested.None? && t.active.Some?
    && if RotationIsDue(s, request, scan) then
         && t.active == (if s.pending.Some? then s.pending else Some(candidate)) && t.active != s.active
         && t.requested == (if s.pending.Some? then s.pendingRequested else Some(request))
         && t.retiring == (if s.active.Some? then [Retired(s.active.value, at + 900.0)] else [])
         && t.revision == revision
       else
         && t.active == s.active && t.requested == s.requested && t.revision == s.revision
         && forall r :: r in t.retiring <==> r in s.retiring && scan < r.until
  }

  /** And to the registry: the active key is usable, keys whose time is up are gone, and all others are as before. */
  ghost predicate KeysServed(w: World, u: World, owner: Uid, l: Location, scan: real)
    requires l in w.secrets && l in u.secrets && u.secrets[l].active.Some?
  {
    var active := u.secrets[l].active.value;
    && active in u.keys
    && u.keys[active] == (if active in w.keys then w.keys[active].(blocked := false) else Key(owner, l, false))
    && forall id :: id != active ==>
         && (id in u.keys <==> id in w.keys && !TimeIsUp(w.secrets[l], id, scan))
         && (id in u.keys ==> u.keys[id] == w.keys[id])
  }

  lemma SecretIsSeen(w: World, owner: Uid, l: Location, request: string, candidate: KeyId, revision: string,
                     scan: real, at: real)
    requires AllWellFormed(w) && l in w.secrets && candidate !in w.issued
    ensures var u := Served(w, owner, l, request, candidate, revision, scan, at);
      l in u.secrets && SecretServed(w.secrets[l], u.secrets[l], request, candidate, revision, scan, at)
  {
    assert WellFormed(w.secrets[l], w);
    hide AllWellFormed;
    KeepIsFilter(w.secrets[l].retiring, scan);
    NoneKept(w.secrets[l].retiring, scan);
  }

  /** The scan forgets the keys whose time is up, and changes nothing else. */
  lemma ScanIsSeen(w: World, l: Location, scan: real)
    requires l in w.secrets
    ensures var scanned := Scanned(w, l, scan);
      && scanned.secrets - {l} == w.secrets - {l} && scanned.issued == w.issued
      && l in scanned.secrets && scanned.secrets[l] == w.secrets[l].(retiring := scanned.secrets[l].retiring)
      && (forall r :: r in scanned.secrets[l].retiring <==> r in w.secrets[l].retiring && scan < r.until)
      && forall id ::
           && (id in scanned.keys <==> id in w.keys && !TimeIsUp(w.secrets[l], id, scan))
           && (id in scanned.keys ==> scanned.keys[id] == w.keys[id])
  {
    KeepIsFilter(w.secrets[l].retiring, scan);
    NoneKept(w.secrets[l].retiring, scan);
  }

  /** The published revision changes with the active key, and only with it. */
  lemma RevisionFollowsTheKey(s: Secret, t: Secret, request: string, candidate: KeyId, revision: string,
                              scan: real, at: real)
    requires SecretServed(s, t, request, candidate, revision, scan, at)
    ensures t.revision == if t.active == s.active then s.revision else revision
  {
  }

  lemma InUseIsNotUp(w: World, s: Secret, scan: real)
    requires WellFormed(s, w)
    ensures forall id: KeyId :: s.active == Some(id) || s.pending == Some(id) || id !in w.issued ==> !TimeIsUp(s, id, scan)
  {
    forall id: KeyId | TimeIsUp(s, id, scan) ensures s.active != Some(id) && s.pending != Some(id) && id in w.issued {
      var r :| r in s.retiring && r.id == id && r.until <= scan;
      assert r.id in Listed(s);
    }
  }

  lemma ActivationIsSeen(w: World, owner: Uid, l: Location, revision: string, at: real)
    requires l in w.secrets && Selected(w.secrets[l]).Some?
    ensures var u, id := Activated(w, owner, l, revision, at), Selected(w.secrets[l]).value;
      && l in u.secrets && u.secrets[l].active == Some(id) && u.secrets - {l} == w.secrets - {l}
      && id in u.keys && u.keys[id] == (if id in w.keys then w.keys[id].(blocked := false) else Key(owner, l, false))
      && forall other :: other != id ==>
           && (other in u.keys <==> other in w.keys)
           && (other in u.keys ==> u.keys[other] == w.keys[other])
  {
  }

  lemma IntentIsSeen(w: World, l: Location, candidate: KeyId, request: string)
    requires l in w.secrets
    ensures var u := WithIntent(w, l, candidate, request);
      && l in u.secrets && u.secrets - {l} == w.secrets - {l} && u.keys == w.keys
      && Selected(u.secrets[l]).Some?
      && (Selected(u.secrets[l]) == Selected(w.secrets[l]) || Selected(u.secrets[l]) == Some(candidate))
  {
  }

  lemma KeysAreSeen(w: World, owner: Uid, l: Location, request: string, candidate: KeyId, revision: string,
                    scan: real, at: real)
    requires AllWellFormed(w) && l in w.secrets && candidate !in w.issued
    ensures var u := Served(w, owner, l, request, candidate, revision, scan, at);
      && l in u.secrets && u.secrets[l].active.Some? && u.secrets - {l} == w.secrets - {l}
      && KeysServed(w, u, owner, l, scan)
  {
    var s, scanned := w.secrets[l], Scanned(w, l, scan);
    InUseIsNotUp(w, s, scan);
    ScanIsSeen(w, l, scan);
    IntentIsSeen(scanned, l, candidate, request);
    ActivationIsSeen(WithIntent(scanned, l, candidate, request), owner, l, revision, at);
    hide Scanned, TimeIsUp, AllWellFormed, WellFormed, WithIntent, Activated;
  }

  lemma NoneKept(retiring: seq<Retired>, scan: real)
    ensures Keep(retiring, scan) == [] <==> forall r :: r in retiring ==> r.until <= scan
    ensures forall id :: id in ExpiredIds(retiring, scan) <==> exists r :: r in retiring && r.id == id && r.until <= scan
  {
    KeepIsFilter(retiring, scan);
    if Keep(retiring, scan) != [] { assert Keep(retiring, scan)[0] in Keep(retiring, scan); }
  }

  /**
   The first service at a location: one key, the one drawn for it, with the revision of this call. The Secrets that the
   owner's lost keys name are gone with them, and nobody else is touched.
   */
  ghost predicate FirstServed(w: World, u: World, owner: Uid, l: Location, request: string, candidate: KeyId,
                              revision: string) {
    && l in u.secrets && u.secrets[l] == Secret(owner, Some(candidate), None, Some(request), None, [], revision)
    && (forall other :: other != l ==>
          && (other in u.secrets <==> other in w.secrets && !Recorded(w, owner, other))
          && (other in u.secrets ==> u.secrets[other] == w.secrets[other]))
    && candidate in u.keys && u.keys[candidate] == Key(owner, l, false)
    && (forall id :: id != candidate ==>
          && (id in u.keys <==> id in w.keys && w.keys[id].owner != owner)
          && (id in u.keys ==> u.keys[id] == w.keys[id]))
  }

  lemma FirstIsSeen(w: World, owner: Uid, l: Location, request: string, candidate: KeyId, revision: string, at: real)
    requires AllWellFormed(w) && l !in w.secrets && candidate !in w.issued
    ensures var u := Activated(Replaced(w, owner, l, candidate, request), owner, l, revision, at);
      FirstServed(w, u, owner, l, request, candidate, revision) && l in u.secrets && u.secrets[l].revision == revision
  {
    assert candidate !in w.keys;
    var u := Activated(Replaced(w, owner, l, candidate, request), owner, l, revision, at);
    forall other | other != l ensures other in u.secrets <==> other in w.secrets && !Recorded(w, owner, other) {
    }
  }

  /** The keys in `ids` are blocked, and all others are as before. */
  ghost predicate OnlyBlocked(before: map<KeyId, Key>, after: map<KeyId, Key>, ids: set<KeyId>) {
    forall id ::
      && (id in after <==> id in before)
      && (id in after ==> after[id] == if id in ids then before[id].(blocked := true) else before[id])
  }

  /**
   The suspension of an instance: its Secret is as before but for the keys whose time is up, which are gone, and all
   others that it lists are blocked.
   */
  ghost predicate Suspends(w: World, u: World, l: Location, scan: real)
    requires l in w.secrets
  {
    var s := w.secrets[l];
    && l in u.secrets && u.secrets - {l} == w.secrets - {l}
    && u.secrets[l] == s.(retiring := u.secrets[l].retiring)
    && (forall r :: r in u.secrets[l].retiring <==> r in s.retiring && scan < r.until)
    && forall id ::
         && (id in u.keys <==> id in w.keys && !TimeIsUp(s, id, scan))
         && (id in u.keys ==> u.keys[id] == if InUse(s, id, scan) then w.keys[id].(blocked := true) else w.keys[id])
  }

  /** The Secret still lists the key after the scan. */
  ghost predicate InUse(s: Secret, id: KeyId, scan: real) {
    s.active == Some(id) || s.pending == Some(id) || exists r :: r in s.retiring && r.id == id && scan < r.until
  }

  lemma SuspensionIsSeen(w: World, l: Location, scan: real)
    requires l in w.secrets
    ensures var scanned := Scanned(w, l, scan).(now := scan);
      Suspends(w, Blocked(scanned, Listed(scanned.secrets[l])), l, scan)
  {
    var s := w.secrets[l];
    ScanIsSeen(w, l, scan);
    hide Scanned;
    var scanned := Scanned(w, l, scan);
    forall id ensures id in Listed(scanned.secrets[l]) <==> InUse(s, id, scan) {
      if exists r :: r in s.retiring && r.id == id && scan < r.until {
        var r :| r in s.retiring && r.id == id && scan < r.until;
        assert r in scanned.secrets[l].retiring;
      }
    }
    hide TimeIsUp, InUse, Listed;
  }

  lemma BlockingIsSeen(w: World, ids: set<KeyId>)
    ensures Blocked(w, ids).secrets == w.secrets && OnlyBlocked(w.keys, Blocked(w, ids).keys, ids)
  {
  }

  // ---------- what the service promises about successful calls ----------

  /** A successful `ensure` of a suspended instance leaves every key it owns blocked. */
  lemma SuspensionBlocksEveryKey(w: World, owner: Uid, l: Location, scan: real)
    requires Held(w, owner, l) && Covers(w, owner, l)
    ensures var scanned := Scanned(w, l, scan);
      var after := Blocked(scanned, Listed(scanned.secrets[l]));
      forall id :: Owned(after, owner, id) ==> after.keys[id].blocked
  {
    var s, scanned := w.secrets[l], Scanned(w, l, scan);
    KeepIsFilter(s.retiring, scan);
    forall id | Owned(scanned, owner, id) ensures id in Listed(scanned.secrets[l]) {
      assert id in OwnedKeys(w, owner);
      if id in RetiringIds(s) {
        var r :| r in s.retiring && r.id == id;
        assert r in scanned.secrets[l].retiring;
      }
    }
  }

  /**
   With one requested revision and no failures, a first call leaves nothing pending, and a second one, made when
   the grace of whatever the first one replaced is over, serves exactly that revision with a registered, usable key.
   */
  lemma RotationConverges(w: World, owner: Uid, l: Location, request: string,
                          candidate1: KeyId, revision1: string, scan1: real, at1: real,
                          candidate2: KeyId, revision2: string, scan2: real, at2: real)
    requires AllWellFormed(w) && Held(w, owner, l) && w.now <= scan1 <= at1
    requires at1 + ROTATION_GRACE_SECONDS <= scan2 <= at2
    ensures var w1 := Served(w, owner, l, request, candidate1, revision1, scan1, at1);
      && w1.secrets[l].pending.None?
      && var s2 := Served(w1, owner, l, request, candidate2, revision2, scan2, at2).secrets[l];
         var keys2 := Served(w1, owner, l, request, candidate2, revision2, scan2, at2).keys;
         s2.pending.None? && s2.requested == Some(request)
         && s2.active.Some? && s2.active.value in keys2 && !keys2[s2.active.value].blocked
  {
    var w1 := Served(w, owner, l, request, candidate1, revision1, scan1, at1);
    FirstCallSettles(w, owner, l, request, candidate1, revision1, scan1, at1);
    hide Served, AllWellFormed;
    SecondCallServes(w1, owner, l, request, candidate2, revision2, scan2, at2);
  }

  lemma FirstCallSettles(w: World, owner: Uid, l: Location, request: string, candidate: KeyId, revision: string,
                         scan: real, at: real)
    requires AllWellFormed(w) && Held(w, owner, l) && w.now <= scan <= at
    ensures var u := Served(w, owner, l, request, candidate, revision, scan, at);
      && l in u.secrets && u.secrets[l].pending.None? && u.secrets[l].active.Some?
      && forall r :: r in u.secrets[l].retiring ==> r.until <= at + ROTATION_GRACE_SECONDS
  {
    assert WellFormed(w.secrets[l], w);
    hide AllWellFormed;
    KeepIsFilter(w.secrets[l].retiring, scan);
  }

  lemma SecondCallServes(w: World, owner: Uid, l: Location, request: string, candidate: KeyId, revision: string,
                         scan: real, at: real)
    requires l in w.secrets && w.secrets[l].pending.None? && w.secrets[l].active.Some?
    requires forall r :: r in w.secrets[l].retiring ==> r.until <= scan
    ensures var u := Served(w, owner, l, request, candidate, revision, scan, at);
      && l in u.secrets && u.secrets[l].pending.None? && u.secrets[l].requested == Some(request)
      && u.secrets[l].active.Some? && u.secrets[l].active.value in u.keys && !u.keys[u.secrets[l].active.value].blocked
  {
    NoneKept(w.secrets[l].retiring, scan);
  }

  /** A first call that finds no Secret serves the requested revision at once, with the new key as the only one. */
  lemma FirstServiceConverges(w: World, owner: Uid, l: Location, candidate: KeyId, request: string,
                              revision: string, at: real)
    requires AllWellFormed(w) && l !in w.secrets && candidate !in w.issued
    ensures var u := Activated(Replaced(w, owner, l, candidate, request), owner, l, revision, at);
      && Held(u, owner, l) && u.secrets[l].active == Some(candidate) && u.secrets[l].requested == Some(request)
      && u.secrets[l].pending.None? && u.secrets[l].retiring == [] && u.secrets[l].revision == revision
      && OwnedKeys(u, owner) == {candidate} && u.keys[candidate] == Key(owner, l, false)
  {
    assert candidate !in w.keys;
  }

  /** Once settled, another call changes neither the Secret nor the registry. */
  lemma SettledIsStable(w: World, owner: Uid, l: Location, request: string,
                        candidate: KeyId, revision: string, scan: real, at: real)
    requires Held(w, owner, l) && w.secrets[l].pending.None? && w.secrets[l].active.Some?
    requires w.secrets[l].requested == Some(request) && forall r :: r in w.secrets[l].retiring ==> scan < r.until
    requires Owned(w, owner, w.secrets[l].active.value) && !w.keys[w.secrets[l].active.value].blocked
    ensures Served(w, owner, l, request, candidate, revision, scan, at) == w.(now := at)
  {
    NothingExpires(w.secrets[l].retiring, scan);
    var scanned := Scanned(w, l, scan);
    assert scanned.secrets == w.secrets && scanned.keys == w.keys;
    var id := w.secrets[l].active.value;
    assert w.keys[id := w.keys[id].(blocked := false)] == w.keys;
  }

  lemma {:induction false} NothingExpires(retiring: seq<Retired>, scan: real)
    requires forall r :: r in retiring ==> scan < r.until
    ensures Keep(retiring, scan) == retiring && ExpiredIds(retiring, scan) == {}
  {
    if retiring != [] {
      assert retiring[0] in retiring;
      NothingExpires(retiring[1..], scan);
    }
  }

  /**
   Exactly when an owner that is served at a new location has no Secret left elsewhere: when each Secret it had was
   recorded by one of its keys.
   */
  lemma MoveLeavesNoSecretBehind(w: World, owner: Uid, l: Location, candidate: KeyId, request: string)
    requires l !in w.secrets
    ensures (forall other :: Held(Replaced(w, owner, l, candidate, request), owner, other) ==> other == l)
       <==> (forall other :: Held(w, owner, other) ==> Recorded(w, owner, other))
  {
    var after := Replaced(w, owner, l, candidate, request);
    forall other | other != l
      ensures Held(after, owner, other) <==> Held(w, owner, other) && !Recorded(w, owner, other)
    {
    }
    if forall other :: Held(after, owner, other) ==> other == l {
      forall other | Held(w, owner, other) ensures Recorded(w, owner, other) {
        assert !Held(after, owner, other);
      }
    }
  }

  /**
   Exactly when the first service at a location keeps track of all keys: when each Secret that the owner has
   elsewhere is recorded by one of its keys, so that the move removes it.
   */
  lemma FirstServiceTracksExactly(w: World, owner: Uid, l: Location, candidate: KeyId, request: string,
                                  revision: string, at: real)
    requires AllWellFormed(w) && l !in w.secrets && candidate !in w.issued
    ensures Tracked(Activated(Replaced(w, owner, l, candidate, request), owner, l, revision, at), owner)
       <==> (forall other :: Held(w, owner, other) ==> Recorded(w, owner, other))
  {
    var replaced := Replaced(w, owner, l, candidate, request);
    var after := Activated(replaced, owner, l, revision, at);
    AfterFirstService(w, owner, l, candidate, request, revision, at);
    MoveLeavesNoSecretBehind(w, owner, l, candidate, request);
    hide Replaced, Activated, Recorded, WellFormed;
    if Tracked(after, owner) {
      forall other | Held(replaced, owner, other) ensures other == l { assert Covers(after, owner, other); }
    } else {
      var other :| !Covers(after, owner, other);
      assert Held(replaced, owner, other);
    }
  }

  /** Right after it, the owner has one key, of which only the new Secret knows. */
  lemma AfterFirstService(w: World, owner: Uid, l: Location, candidate: KeyId, request: string,
                          revision: string, at: real)
    requires AllWellFormed(w) && l !in w.secrets && candidate !in w.issued
    ensures var replaced := Replaced(w, owner, l, candidate, request);
      var after := Activated(replaced, owner, l, revision, at);
      && Covers(after, owner, l)
      && forall other :: other != l ==>
           (Held(after, owner, other) <==> Held(replaced, owner, other))
           && (Held(after, owner, other) ==> !Covers(after, owner, other))
  {
    var replaced := Replaced(w, owner, l, candidate, request);
    var after := Activated(replaced, owner, l, revision, at);
    assert OwnedKeys(after, owner) == {candidate};
    assert after.secrets[l].active == Some(candidate);
    forall other | other != l && Held(after, owner, other) ensures !Covers(after, owner, other) {
      assert after.secrets[other] == w.secrets[other] && WellFormed(w.secrets[other], w);
    }
  }

  lemma ScanKeepsTrack(w: World, owner: Uid, l: Location, scan: real)
    requires AllWellFormed(w) && Tracked(w, owner) && Held(w, owner, l)
    ensures Tracked(Scanned(w, l, scan), owner)
  {
    var scanned := Scanned(w, l, scan);
    KeepIsFilter(w.secrets[l].retiring, scan);
    forall other ensures Covers(scanned, owner, other) {
      assert Covers(w, owner, other);
      if other == l {
        forall id | id in OwnedKeys(scanned, owner) ensures id in Listed(scanned.secrets[l]) {
          assert id in Listed(w.secrets[l]);
          if id in RetiringIds(w.secrets[l]) {
            var r :| r in w.secrets[l].retiring && r.id == id;
            assert r in scanned.secrets[l].retiring;
          }
        }
      }
    }
  }

  /**
   And exactly when a further service does: when the key that it puts into service is registered already, or known
   to every other Secret of the owner. For an owner with one Secret that is always so.
   */
  lemma ServiceTracksExactly(w: World, owner: Uid, l: Location, request: string, candidate: KeyId, revision: string,
                             scan: real, at: real)
    requires AllWellFormed(w) && Tracked(w, owner) && Held(w, owner, l) && candidate !in w.issued
    ensures var intended := WithIntent(Scanned(w, l, scan), l, candidate, request);
      && Selected(intended.secrets[l]).Some?
      && var id := Selected(intended.secrets[l]).value;
        Tracked(Served(w, owner, l, request, candidate, revision, scan, at), owner)
        <==> (id in intended.keys || forall other :: other != l && Held(w, owner, other) ==> id in Listed(w.secrets[other]))
  {
    ScanKeepsTrack(w, owner, l, scan);
    var scanned := Scanned(w, l, scan);
    var intended := WithIntent(scanned, l, candidate, request);
    var s, id := intended.secrets[l], Selected(intended.secrets[l]).value;
    var after := Served(w, owner, l, request, candidate, revision, scan, at);
    assert id in Listed(s);
    assert Listed(scanned.secrets[l]) <= Listed(s);
    assert Listed(after.secrets[l]) == Listed(s) by {
      if s.pending.Some? { PromotedListsTheSame(s, revision, at); }
    }
    assert OwnedKeys(after, owner) == if id in intended.keys then OwnedKeys(scanned, owner) else OwnedKeys(scanned, owner) + {id};
    OtherSecretsTrack(w, scanned, after, owner, l, id, id in intended.keys);
  }

  lemma OtherSecretsTrack(w: World, scanned: World, after: World, owner: Uid, l: Location, id: KeyId, known: bool)
    requires Tracked(scanned, owner) && Held(scanned, owner, l) && Held(after, owner, l)
    requires forall other :: other != l ==>
      (other in after.secrets <==> other in w.secrets) && (other in scanned.secrets <==> other in w.secrets)
      && (other in w.secrets ==> after.secrets[other] == w.secrets[other] && scanned.secrets[other] == w.secrets[other])
    requires OwnedKeys(after, owner) == if known then OwnedKeys(scanned, owner) else OwnedKeys(scanned, owner) + {id}
    requires Listed(scanned.secrets[l]) <= Listed(after.secrets[l]) && id in Listed(after.secrets[l])
    ensures Tracked(after, owner)
       <==> (known || forall other :: other != l && Held(w, owner, other) ==> id in Listed(w.secrets[other]))
  {
    forall other ensures Covers(after, owner, other)
      <==> (other == l || known || (Held(w, owner, other) ==> id in Listed(w.secrets[other])))
    {
      assert Covers(scanned, owner, other) && Covers(scanned, owner, l);
    }
  }

  lemma {:induction false} RunConcat(w: World, a: seq<Action>, b: seq<Action>)
    ensures Run(w, a + b) == Run(Run(w, a), b)
  {
    if b == [] {
      assert a + b == a;
    } else {
      RunConcat(w, a, b[..|b| - 1]);
      assert (a + b)[..|a + b| - 1] == a + b[..|b| - 1];
    }
  }

  /** A reconciliation that finds no unrecorded Secret elsewhere keeps track of every key, however it ends. */
  lemma EnsureTracks(before: seq<Action>, after: seq<Action>, owner: Uid, l: Location)
    requires before <= after && forall i :: |before| <= i < |after| ==> IsEnsure(after[i], owner, l)
    ensures Tracked(Run(EMPTY, before), owner) && Movable(Run(EMPTY, before), owner, l) ==>
      Tracked(Run(EMPTY, after), owner)
  {
    var rest := after[|before|..];
    assert after == before + rest;
    RunConcat(EMPTY, before, rest);
    RunKeepsWellFormed(EMPTY, before);
    if Tracked(Run(EMPTY, before), owner) && Movable(Run(EMPTY, before), owner, l) {
      EnsuringKeepsTrack(Run(EMPTY, before), rest, owner, l);
    }
  }

  /** No key that the Secret lists is somebody else's. */
  predicate ListsOwnKeys(w: World, owner: Uid, s: Secret) {
    forall id :: id in Listed(s) && id in w.keys ==> w.keys[id].owner == owner
  }

  /** No Secret that a key of the owner names is somebody else's. */
  predicate NamesOwnSecrets(w: World, owner: Uid) {
    forall id :: id in w.keys && w.keys[id].owner == owner && w.keys[id].location in w.secrets ==>
      w.secrets[w.keys[id].location].owner == owner
  }

  /** The key to be put into service is not somebody else's. */
  predicate UsesOwnKey(w: World, owner: Uid, s: Secret)
    requires Selected(s).Some?
  {
    Selected(s).value in w.keys ==> w.keys[Selected(s).value].owner == owner
  }

  /** The replacement of lost credentials has a key that nobody else has. */
  lemma ReplacementIsOwn(w: World, owner: Uid, l: Location, candidate: KeyId, request: string)
    requires AllWellFormed(w) && l !in w.secrets && candidate !in w.issued
    ensures var rest := WithoutRecords(w, OwnedKeys(w, owner));
      && OwnedKeys(rest, owner) == {} && l !in rest.secrets && candidate !in rest.keys
      && Replaced(w, owner, l, candidate, request)
         == WithSecret(rest, l, FirstIntent(owner, candidate, request)).(issued := rest.issued + {candidate})
  {
  }

  /** After the scan, the Secret still lists no key of somebody else, and neither is such a key put into service. */
  lemma ScanKeepsOwn(w: World, owner: Uid, l: Location, scan: real, candidate: KeyId, request: string)
    requires AllWellFormed(w) && Held(w, owner, l) && ListsOwnKeys(w, owner, w.secrets[l]) && candidate !in w.issued
    ensures var scanned := Scanned(w, l, scan).(now := scan);
      && ListsOwnKeys(scanned, owner, scanned.secrets[l])
      && Selected(WithIntent(scanned, l, candidate, request).secrets[l]).Some?
      && UsesOwnKey(scanned, owner, WithIntent(scanned, l, candidate, request).secrets[l])
  {
    ScanIsSeen(w, l, scan);
    var scanned := Scanned(w, l, scan).(now := scan);
    IntentIsSeen(scanned, l, candidate, request);
    hide Scanned, WithIntent, WellFormed;
    forall id | id in Listed(scanned.secrets[l]) ensures id in Listed(w.secrets[l]) {
      if id in RetiringIds(scanned.secrets[l]) {
        var r :| r in scanned.secrets[l].retiring && r.id == id;
        assert r in w.secrets[l].retiring;
      }
    }
  }

  class ServiceKeys {
    /** Whether all calls of the API servers succeed. */
    const smooth: bool
    var world: World
    ghost var trace: seq<Action>

    ghost predicate Valid()
      reads this
    {
      world == Run(EMPTY, trace)
    }

    constructor (smooth: bool)
      ensures Valid() && world == EMPTY && this.smooth == smooth
    {
      this.smooth := smooth;
      world := EMPTY;
      trace := [];
    }

    /** The actions of `trace` after the first `n` are this owner's ensure writes at this location. */
    ghost predicate OnlyEnsures(n: nat, owner: Uid, location: Location)
      reads this
    {
      n <= |trace| && forall i :: n <= i < |trace| ==> IsEnsure(trace[i], owner, location)
    }

    /** One request to an API server: a failure may hit before or after the write took effect. */
    method Call(a: Action) returns (ok: bool)
      requires Valid() && Enabled(world, a)
      modifies this
      ensures Valid()
      ensures ok ==> world == Apply(old(world), a)
      ensures (trace == old(trace) + [a] && world == Apply(old(world), a)) || (!ok && trace == old(trace) && world == old(world))
      ensures smooth ==> ok
    {
      var arrives: bool, answers: bool := *, *;
      if !arrives && !smooth {
        return false;
      }
      RunSnoc(EMPTY, trace, a);
      world, trace := Apply(world, a), trace + [a];
      ok := answers || smooth;
    }

    method Now() returns (t: real)
      requires Valid()
      modifies this
      ensures Valid() && world == old(world).(now := t) && old(world).now <= t
      ensures trace == old(trace) + [Tick(t)]
    {
      t := *;
      if t < world.now { t := world.now; }
      RunSnoc(EMPTY, trace, Tick(t));
      world, trace := world.(now := t), trace + [Tick(t)];
    }

    /** A read, which can fail but changes nothing. */
    method Inventory(owner: Uid) returns (r: Result<set<KeyId>, Failure>)
      ensures r.Ok? ==> r.value == OwnedKeys(world, owner)
      ensures smooth ==> r.Ok?
    {
      var answers: bool := *;
      if !answers && !smooth { return Err(Unavailable); }
      r := Ok(OwnedKeys(world, owner));
    }

    method Info(id: KeyId, owner: Uid) returns (r: Result<Option<Key>, Failure>)
      ensures r.Ok? && r.value.None? ==> id !in world.keys
      ensures r.Ok? && r.value.Some? ==> Owned(world, owner, id) && r.value.value == world.keys[id]
      ensures smooth && (id in world.keys ==> world.keys[id].owner == owner) ==> r.Ok?
    {
      var answers: bool := *;
      if !answers && !smooth { return Err(Unavailable); }
      if id !in world.keys {
        r := Ok(None);
      } else if world.keys[id].owner != owner {
        r := Err(Foreign);
      } else {
        r := Ok(Some(world.keys[id]));
      }
    }

    method GetSecret(location: Location, owner: Uid) returns (r: Result<Option<Secret>, Failure>)
      ensures r.Ok? && r.value.None? ==> location !in world.secrets
      ensures r.Ok? && r.value.Some? ==> Held(world, owner, location) && r.value.value == world.secrets[location]
      ensures smooth && (location in world.secrets ==> world.secrets[location].owner == owner) ==> r.Ok?
    {
      var answers: bool := *;
      if !answers && !smooth { return Err(Unavailable); }
      if location !in world.secrets {
        r := Ok(None);
      } else if world.secrets[location].owner != owner {
        r := Err(Foreign);
      } else {
        r := Ok(Some(world.secrets[location]));
      }
    }

    method Block(id: KeyId, owner: Uid, location: Location, blocked: bool) returns (r: Result<(), Failure>)
      requires Valid()
      modifies this
      ensures Valid() && OnlyEnsures(|old(trace)|, owner, location) && old(trace) <= trace
      ensures r.Ok? ==> world == old(world).(keys := if id in old(world).keys
                                                     then old(world).keys[id := old(world).keys[id].(blocked := blocked)]
                                                     else old(world).keys)
      ensures r.Ok? && id in old(world).keys ==> Owned(old(world), owner, id)
      ensures smooth && (id in old(world).keys ==> old(world).keys[id].owner == owner) ==> r.Ok?
    {
      var info := Info(id, owner);
      if info.Err? { return Err(info.error); }
      if info.value.Some? && info.value.value.blocked != blocked {
        var ok := Call(SetBlocked(owner, location, id, blocked));
        if !ok { return Err(Unavailable); }
      }
      r := Ok(());
    }

    /** Keys and Secrets of lost credentials are removed one by one before a replacement exists. */
    method RevokeLostKeys(owner: Uid, location: Location) returns (r: Result<(), Failure>)
      requires Valid() && location !in world.secrets
      modifies this
      ensures Valid() && OnlyEnsures(|old(trace)|, owner, location) && old(trace) <= trace
      ensures location !in world.secrets && world.issued == old(world).issued
      ensures r.Ok? ==> world == WithoutRecords(old(world), OwnedKeys(old(world), owner))
      ensures smooth && NamesOwnSecrets(old(world), owner) ==> r.Ok?
    {
      hide Run;
      var records := Inventory(owner);
      if records.Err? { return Err(records.error); }
      var remaining, done: set<KeyId> := records.value, {};
      ghost var w0 := world;
      assert world == WithoutRecords(w0, {});
      while remaining != {}
        invariant Valid() && OnlyEnsures(|old(trace)|, owner, location) && old(trace) <= trace
        invariant done + remaining == OwnedKeys(w0, owner) && done !! remaining
        invariant world == WithoutRecords(w0, done)
        decreases remaining
      {
        var id :| id in remaining;
        var secret := GetSecret(world.keys[id].location, owner);
        if secret.Err? { return Err(secret.error); }
        WithoutOneMore(w0, done, id);
        if secret.value.Some? {
          var dropped := Call(DropRecorded(owner, location, id));
          if !dropped { return Err(Unavailable); }
        }
        var revoked := Call(RevokeLost(owner, location, id));
        if !revoked { return Err(Unavailable); }
        remaining, done := remaining - {id}, done + {id};
      }
      assert done == OwnedKeys(w0, owner);
      r := Ok(());
    }

    /** Keys past their grace are deleted, then forgotten. */
    method RetireExpired(owner: Uid, location: Location) returns (r: Result<(), Failure>, scan: real)
      requires Valid() && Held(world, owner, location) && |world.secrets[location].retiring| <= 1
      modifies this
      ensures Valid() && OnlyEnsures(|old(trace)|, owner, location) && old(trace) <= trace
      ensures old(world).now <= scan <= world.now && world.issued == old(world).issued
      ensures r.Ok? ==> world == Scanned(old(world), location, scan).(now := scan)
      ensures smooth && ListsOwnKeys(old(world), owner, old(world).secrets[location]) ==> r.Ok?
    {
      hide Run;
      ghost var w0 := world;
      var retiring, keep, i := world.secrets[location].retiring, [], 0;
      scan := world.now;
      assert retiring == [] ==> w0.secrets[location := w0.secrets[location].(retiring := [])] == w0.secrets;
      while i < |retiring|
        invariant 0 <= i <= |retiring| && w0.now <= scan == world.now
        invariant Valid() && OnlyEnsures(|old(trace)|, owner, location) && old(trace) <= trace
        invariant keep == Keep(retiring[..i], scan)
        invariant world == w0.(keys := w0.keys - ExpiredIds(retiring[..i], scan), now := scan)
      {
        assert retiring[..i] == [] && retiring[..i + 1] == [retiring[i]];
        var retired := retiring[i];
        scan := Now();
        if scan >= retired.until {
          var info := Info(retired.id, owner);
          if info.Err? { return Err(info.error), scan; }
          if info.value.Some? {
            var ok := Call(Expire(owner, location, retired.id));
            if !ok { return Err(Unavailable), scan; }
          }
        } else {
          keep := keep + [retired];
        }
        i := i + 1;
      }
      assert retiring[..i] == retiring;
      if keep != retiring {
        KeepIsFilter(retiring, scan);
        var saved := Call(SaveKeep(owner, location, keep));
        if !saved { return Err(Unavailable), scan; }
      } else {
        assert w0.secrets[location := w0.secrets[location].(retiring := keep)] == w0.secrets;
      }
      r := Ok(());
    }

    /** Register and unblock the selected key. */
    method Register(id: KeyId, owner: Uid, location: Location) returns (r: Result<(), Failure>)
      requires Valid() && Held(world, owner, location) && Selected(world.secrets[location]) == Some(id)
      modifies this
      ensures Valid() && OnlyEnsures(|old(trace)|, owner, location) && old(trace) <= trace
      ensures r.Ok? ==> world == Registered(old(world), id, owner, location) && Owned(world, owner, id)
      ensures smooth && (id in old(world).keys ==> old(world).keys[id].owner == owner) ==> r.Ok?
    {
      var info := Info(id, owner);
      if info.Err? { return Err(info.error); }
      if info.value.None? {
        var generated := Call(Generate(owner, location, id));
        if !generated { return Err(Unavailable); }
        var registered := Info(id, owner);
        if registered.Err? || registered.value.None? { return Err(Unavailable); }
      }
      r := Block(id, owner, location, false);
    }

    /** A pending key is published as the active one. */
    method Activate(owner: Uid, location: Location, revision: string) returns (r: Result<string, Failure>)
      requires Valid() && Held(world, owner, location) && AllWellFormed(world)
      requires Selected(world.secrets[location]).Some?
      modifies this
      ensures Valid() && OnlyEnsures(|old(trace)|, owner, location) && old(trace) <= trace
      ensures r.Ok? ==> world == Activated(old(world), owner, location, revision, world.now)
      ensures r.Ok? ==> Held(world, owner, location) && r.value == world.secrets[location].revision && old(world).now <= world.now
      ensures smooth && UsesOwnKey(old(world), owner, old(world).secrets[location]) ==> r.Ok?
    {
      var secret := world.secrets[location];
      assert WellFormed(secret, world);
      var registered := Register(Selected(secret).value, owner, location);
      if registered.Err? { return Err(registered.error); }
      if secret.pending.Some? {
        if secret.active.Some? {
          var _ := Now();
        }
        var promoted := Call(Promote(owner, location, revision));
        if !promoted { return Err(Unavailable); }
      }
      r := Ok(world.secrets[location].revision);
    }

    method BlockAll(ids: seq<KeyId>, owner: Uid, location: Location) returns (r: Result<(), Failure>)
      requires Valid()
      modifies this
      ensures Valid() && OnlyEnsures(|old(trace)|, owner, location) && old(trace) <= trace
      ensures r.Ok? ==> world == Blocked(old(world), set id | id in ids)
      ensures smooth && (forall id :: id in ids && id in old(world).keys ==> old(world).keys[id].owner == owner) ==> r.Ok?
    {
      ghost var w0 := world;
      var i := 0;
      assert Blocked(w0, {}).keys == w0.keys;
      while i < |ids|
        invariant 0 <= i <= |ids|
        invariant Valid() && OnlyEnsures(|old(trace)|, owner, location) && old(trace) <= trace
        invariant world == Blocked(w0, set id | id in ids[..i])
      {
        var blocked := Block(ids[i], owner, location, true);
        if blocked.Err? { return Err(blocked.error); }
        assert ids[..i + 1] == ids[..i] + [ids[i]];
        i := i + 1;
        assert world.keys == Blocked(w0, set id | id in ids[..i]).keys;
      }
      assert ids[..i] == ids;
      r := Ok(());
    }

    /**
     One reconciliation of an instance's credential. Every way out, success or failure, leaves a trace of enabled
     writes, so the theorems of `KeyProtocol` hold at each crash point; on success the new state is exact.
     */
    method Ensure(owner: Uid, location: Location, request: string, enabled: bool,
                  candidate: KeyId, revision: string)
      returns (r: Result<string, Failure>, ghost scan: real)
      requires Valid() && candidate !in world.issued
      modifies this
      ensures Valid() && OnlyEnsures(|old(trace)|, owner, location) && old(trace) <= trace
      ensures location in old(world).secrets && !Held(old(world), owner, location) ==> r.Err? && world == old(world)
      ensures r.Ok? && !Held(old(world), owner, location) ==>
        world == if enabled
                 then Activated(Replaced(old(world), owner, location, candidate, request), owner, location, revision, world.now)
                 else Blocked(old(world), OwnedKeys(old(world), owner))
      ensures r.Ok? && Held(old(world), owner, location) ==>
        old(world).now <= scan <= world.now
        && world == if enabled
                    then Served(old(world), owner, location, request, candidate, revision, scan, world.now)
                    else var w := Scanned(old(world), location, scan).(now := scan);
                         Blocked(w, Listed(w.secrets[location]))
      ensures r.Ok? && enabled ==>
        && location in world.secrets
        && var before, s := old(world).secrets, world.secrets[location];
           s.revision == if location in before && s.active == before[location].active then before[location].revision
                         else revision
      ensures r.Ok? && enabled && Held(old(world), owner, location) ==>
        && location in world.secrets && world.secrets - {location} == old(world).secrets - {location}
        && SecretServed(old(world).secrets[location], world.secrets[location], request, candidate, revision, scan, world.now)
        && KeysServed(old(world), world, owner, location, scan)
      ensures r.Ok? && enabled && !Held(old(world), owner, location) ==>
        FirstServed(old(world), world, owner, location, request, candidate, revision)
      ensures r.Ok? && !enabled && Held(old(world), owner, location) ==> Suspends(old(world), world, location, scan)
      ensures r.Ok? && !enabled && !Held(old(world), owner, location) ==>
        world.secrets == old(world).secrets && OnlyBlocked(old(world).keys, world.keys, OwnedKeys(old(world), owner))
      ensures r.Ok? ==> r.value == if location in world.secrets then world.secrets[location].revision else ""
      ensures Tracked(old(world), owner) && Movable(old(world), owner, location) ==> Tracked(world, owner)
      ensures smooth && NamesOwnSecrets(old(world), owner)
        && (location in old(world).secrets ==>
              Held(old(world), owner, location) && ListsOwnKeys(old(world), owner, old(world).secrets[location]))
        ==> r.Ok?
    {
      hide Run, Tracked, Movable, IsEnsure, Served, Activated, Replaced, Scanned, Blocked, Listed;
      hide SecretServed, KeysServed, FirstServed, Suspends, OnlyBlocked, AllWellFormed;
      RunKeepsWellFormed(EMPTY, trace);
      scan := world.now;
      var found := GetSecret(location, owner);
      if found.Err? { return Err(found.error), scan; }
      if found.value.None? {
        r := EnsureMissing(owner, location, request, enabled, candidate, revision);
      } else {
        r, scan := EnsureHeld(owner, location, request, enabled, candidate, revision);
      }
      EnsureTracks(old(trace), trace, owner, location);
      if r.Ok? {
        OutcomeIsSeen(old(world), world, owner, location, request, enabled, candidate, revision, scan);
      }
    }

    method EnsureMissing(owner: Uid, location: Location, request: string, enabled: bool,
                         candidate: KeyId, revision: string)
      returns (r: Result<string, Failure>)
      requires Valid() && candidate !in world.issued && location !in world.secrets
      modifies this
      ensures Valid() && OnlyEnsures(|old(trace)|, owner, location) && old(trace) <= trace
      ensures r.Ok? ==>
        world == if enabled
                 then Activated(Replaced(old(world), owner, location, candidate, request), owner, location, revision, world.now)
                 else Blocked(old(world), OwnedKeys(old(world), owner))
      ensures r.Ok? ==> r.value == if location in world.secrets then world.secrets[location].revision else ""
      ensures smooth && NamesOwnSecrets(old(world), owner) ==> r.Ok?
    {
      hide Run, Activated, Replaced, WithoutRecords, NamesOwnSecrets;
      RunKeepsWellFormed(EMPTY, trace);
      ReplacementIsOwn(world, owner, location, candidate, request);
      if !enabled {
        r := SuspendAll(owner, location);
        return;
      }
      var revoked := RevokeLostKeys(owner, location);
      if revoked.Err? { return Err(revoked.error); }
      var created := Call(CreateIntent(owner, location, candidate, request));
      if !created { return Err(Unavailable); }
      RunKeepsWellFormed(EMPTY, trace);
      r := Activate(owner, location, revision);
    }

    /** Without a Secret, every key that the owner has is blocked. */
    method SuspendAll(owner: Uid, location: Location) returns (r: Result<string, Failure>)
      requires Valid()
      modifies this
      ensures Valid() && OnlyEnsures(|old(trace)|, owner, location) && old(trace) <= trace
      ensures r.Ok? ==> world == Blocked(old(world), OwnedKeys(old(world), owner)) && r.value == ""
      ensures smooth ==> r.Ok?
    {
      hide Run, IsEnsure;
      var records := Inventory(owner);
      if records.Err? { return Err(records.error); }
      var ids := Listing(records.value);
      forall id | id in ids ensures id in OwnedKeys(world, owner) {
        assert id in (set i | i in ids);
      }
      var suspended := BlockAll(ids, owner, location);
      if suspended.Err? { return Err(suspended.error); }
      return Ok("");
    }

    method EnsureHeld(owner: Uid, location: Location, request: string, enabled: bool,
                      candidate: KeyId, revision: string)
      returns (r: Result<string, Failure>, ghost scan: real)
      requires Valid() && candidate !in world.issued && Held(world, owner, location)
      modifies this
      ensures Valid() && OnlyEnsures(|old(trace)|, owner, location) && old(trace) <= trace
      ensures r.Ok? ==> old(world).now <= scan <= world.now
      ensures r.Ok? ==> world == if enabled
                                 then Served(old(world), owner, location, request, candidate, revision, scan, world.now)
                                 else var w := Scanned(old(world), location, scan).(now := scan);
                                      Blocked(w, Listed(w.secrets[location]))
      ensures r.Ok? ==> location in world.secrets && r.value == world.secrets[location].revision
      ensures smooth && ListsOwnKeys(old(world), owner, old(world).secrets[location]) ==> r.Ok?
    {
      hide Run, Activated, Blocked, IsEnsure, Scanned, Served, WithIntent, WellFormed, NeedsCandidate, Listed;
      RunKeepsWellFormed(EMPTY, trace);
      AtMostOneRetiring(world, location);
      var retired;
      retired, scan := RetireExpired(owner, location);
      if retired.Err? { return Err(retired.error), scan; }
      ScannedHolds(old(world), owner, location, scan);
      if ListsOwnKeys(old(world), owner, old(world).secrets[location]) {
        ScanKeepsOwn(old(world), owner, location, scan, candidate, request);
      }
      hide ListsOwnKeys;
      if !enabled {
        r := Suspend(owner, location);
      } else {
        ServedAfterScan(old(world), owner, location, request, candidate, revision, scan, world.now);
        r := Renew(owner, location, request, candidate, revision);
        ServedAfterScan(old(world), owner, location, request, candidate, revision, scan, world.now);
      }
    }

    /** A disabled instance keeps its keys, blocked. */
    method Suspend(owner: Uid, location: Location) returns (r: Result<string, Failure>)
      requires Valid() && Held(world, owner, location)
      modifies this
      ensures Valid() && OnlyEnsures(|old(trace)|, owner, location) && old(trace) <= trace
      ensures r.Ok? ==> world == Blocked(old(world), Listed(old(world).secrets[location])) && world.now == old(world).now
      ensures r.Ok? ==> Held(world, owner, location) && r.value == world.secrets[location].revision
      ensures smooth && ListsOwnKeys(old(world), owner, old(world).secrets[location]) ==> r.Ok?
    {
      hide Run, IsEnsure;
      var secret := world.secrets[location];
      var suspended := BlockAll(Suspended(secret), owner, location);
      if suspended.Err? { return Err(suspended.error); }
      return Ok(secret.revision);
    }

    /** A new candidate is recorded where one is due, and the selected key is put into service. */
    method Renew(owner: Uid, location: Location, request: string, candidate: KeyId, revision: string)
      returns (r: Result<string, Failure>)
      requires Valid() && Held(world, owner, location) && candidate !in world.issued
      modifies this
      ensures Valid() && OnlyEnsures(|old(trace)|, owner, location) && old(trace) <= trace
      ensures Selected(WithIntent(old(world), location, candidate, request).secrets[location]).Some?
      ensures r.Ok? ==> old(world).now <= world.now
      ensures r.Ok? ==>
        world == Activated(WithIntent(old(world), location, candidate, request), owner, location, revision, world.now)
      ensures r.Ok? ==> Held(world, owner, location) && r.value == world.secrets[location].revision
      ensures smooth && UsesOwnKey(old(world), owner, WithIntent(old(world), location, candidate, request).secrets[location])
        ==> r.Ok?
    {
      hide Run, Activated;
      if NeedsCandidate(world.secrets[location], request) {
        var saved := Call(SaveIntent(owner, location, candidate, request));
        if !saved { return Err(Unavailable); }
      }
      RunKeepsWellFormed(EMPTY, trace);
      r := Activate(owner, location, revision);
    }

    /** A finalized instance loses every key, the Secrets they name, and last its own Secret. */
    method Delete(owner: Uid, location: Location) returns (r: Result<(), Failure>)
      requires Valid()
      modifies this
      ensures Valid() && old(trace) <= trace
      ensures location in old(world).secrets && !Held(old(world), owner, location) ==> r.Err? && world == old(world)
      ensures r.Ok? ==> world == Removed(old(world), owner, location)
      ensures r.Ok? ==> OwnerRemoved(old(world), world, owner, location)
      ensures Held(old(world), owner, location) && OwnedKeys(world, owner) != {} ==> Held(world, owner, location)
      ensures smooth && NamesOwnSecrets(old(world), owner)
        && (location in old(world).secrets ==> Held(old(world), owner, location))
        ==> r.Ok?
    {
      hide Run, OwnerRemoved, WithoutRecordsExcept;
      RemovalIsSeen(world, owner, location);
      RemovalIsLast(world, owner, location);
      var found := GetSecret(location, owner);
      if found.Err? { return Err(found.error); }
      r := RemoveRecords(owner, location);
      if r.Err? { return r; }
      if found.value.Some? {
        var deleted := Call(DeleteSecret(owner, location));
        if !deleted { return Err(Unavailable); }
      } else {
        assert world.secrets - {location} == world.secrets;
      }
      r := Ok(());
    }

    /** Every key of the owner is revoked, after the Secret that it names elsewhere is gone. */
    method RemoveRecords(owner: Uid, location: Location) returns (r: Result<(), Failure>)
      requires Valid()
      modifies this
      ensures Valid() && old(trace) <= trace
      ensures r.Ok? ==> world == WithoutRecordsExcept(old(world), OwnedKeys(old(world), owner), location)
      ensures Held(old(world), owner, location) ==> Held(world, owner, location)
      ensures smooth && NamesOwnSecrets(old(world), owner) ==> r.Ok?
    {
      hide Run;
      var records := Inventory(owner);
      if records.Err? { return Err(records.error); }
      var remaining, done: set<KeyId> := records.value, {};
      ghost var w0 := world;
      assert world == WithoutRecordsExcept(w0, {}, location);
      while remaining != {}
        invariant Valid() && old(trace) <= trace
        invariant done + remaining == OwnedKeys(w0, owner) && done !! remaining
        invariant world == WithoutRecordsExcept(w0, done, location)
        decreases remaining
      {
        var id :| id in remaining;
        WithoutOneMoreExcept(w0, done, id, location);
        if world.keys[id].location != location {
          var secret := GetSecret(world.keys[id].location, owner);
          if secret.Err? { return Err(secret.error); }
          if secret.value.Some? {
            var dropped := Call(DropRecorded(owner, location, id));
            if !dropped { return Err(Unavailable); }
          }
        }
        var revoked := Call(Revoke(owner, location, id));
        if !revoked { return Err(Unavailable); }
        remaining, done := remaining - {id}, done + {id};
      }
      assert done == OwnedKeys(w0, owner);
      r := Ok(());
    }
  }

  lemma AtMostOneRetiring(w: World, l: Location)
    requires AllWellFormed(w) && l in w.secrets
    ensures |w.secrets[l].retiring| <= 1
  {
    assert WellFormed(w.secrets[l], w);
  }

  /** The state that a successful call has reached, in terms of what a caller sees. */
  lemma OutcomeIsSeen(w: World, u: World, owner: Uid, l: Location, request: string, enabled: bool, candidate: KeyId,
                      revision: string, scan: real)
    requires AllWellFormed(w) && candidate !in w.issued && (l in w.secrets ==> Held(w, owner, l))
    requires u == if l !in w.secrets then
                    if enabled then Activated(Replaced(w, owner, l, candidate, request), owner, l, revision, u.now)
                    else Blocked(w, OwnedKeys(w, owner))
                  else if enabled then Served(w, owner, l, request, candidate, revision, scan, u.now)
                  else var scanned := Scanned(w, l, scan).(now := scan); Blocked(scanned, Listed(scanned.secrets[l]))
    ensures enabled && l in w.secrets ==>
      && l in u.secrets && u.secrets - {l} == w.secrets - {l}
      && SecretServed(w.secrets[l], u.secrets[l], request, candidate, revision, scan, u.now)
      && KeysServed(w, u, owner, l, scan)
    ensures enabled && l !in w.secrets ==> FirstServed(w, u, owner, l, request, candidate, revision)
    ensures enabled ==>
      && l in u.secrets
      && u.secrets[l].revision == if l in w.secrets && u.secrets[l].active == w.secrets[l].active
                                  then w.secrets[l].revision else revision
    ensures !enabled && l in w.secrets ==> Suspends(w, u, l, scan)
    ensures !enabled && l !in w.secrets ==>
      u.secrets == w.secrets && OnlyBlocked(w.keys, u.keys, OwnedKeys(w, owner))
  {
    hide Served, Scanned, Blocked, Activated, Replaced, AllWellFormed, Listed;
    hide SecretServed, KeysServed, FirstServed, Suspends, OnlyBlocked;
    if l !in w.secrets {
      if enabled {
        FirstIsSeen(w, owner, l, request, candidate, revision, u.now);
      } else {
        BlockingIsSeen(w, OwnedKeys(w, owner));
      }
    } else if enabled {
      SecretIsSeen(w, owner, l, request, candidate, revision, scan, u.now);
      RevisionFollowsTheKey(w.secrets[l], u.secrets[l], request, candidate, revision, scan, u.now);
      KeysAreSeen(w, owner, l, request, candidate, revision, scan, u.now);
    } else {
      SuspensionIsSeen(w, l, scan);
    }
  }

  lemma ScannedHolds(w: World, owner: Uid, l: Location, scan: real)
    requires Held(w, owner, l)
    ensures Held(Scanned(w, l, scan), owner, l)
  {
  }

  /** The time of the scan is overwritten by that of the activation. */
  lemma ServedAfterScan(w: World, owner: Uid, l: Location, request: string, candidate: KeyId, revision: string,
                        scan: real, at: real)
    requires Held(w, owner, l)
    ensures var scanned := Scanned(w, l, scan).(now := scan);
      && l in scanned.secrets && l in WithIntent(scanned, l, candidate, request).secrets
      && Selected(WithIntent(scanned, l, candidate, request).secrets[l]).Some?
      && Activated(WithIntent(scanned, l, candidate, request), owner, l, revision, at)
         == Served(w, owner, l, request, candidate, revision, scan, at)
  {
  }
}
