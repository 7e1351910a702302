/**
 When an owner that moves between Secret locations keeps all of its keys accounted for: the one write that can lose
 track of a key, the one decision that makes it possible, and what both mean for whole runs and for `ensure`.
 */
module KeyTracking {
  import opened Wrappers
  import opened KeyProtocol

  /** Every Secret of the owner, wherever it is, lists every key that the owner has. */
  ghost predicate Tracked(w: World, owner: Uid) {
    forall l :: Covers(w, owner, l)
  }

  /** A key is registered while a Secret elsewhere does not know of it. */
  predicate Orphans(w: World, a: Action, owner: Uid) {
    && a.Generate? && a.owner == owner
    && exists l :: l in w.secrets && l != a.location && Held(w, owner, l) && a.id !in Listed(w.secrets[l])
  }

  /** The owner gets a Secret although it still has one somewhere else. */
  predicate MovesAway(w: World, a: Action, owner: Uid) {
    a.CreateIntent? && a.owner == owner && exists l :: l in w.secrets && Held(w, owner, l)
  }

  // ---------- one write ----------

  lemma KeptAt(w: World, a: Action, owner: Uid, l: Location)
    requires AllWellFormed(w) && Enabled(w, a) && Covers(w, owner, l)
    requires a.Generate? && a.owner == owner && Held(w, owner, l) ==> a.id in Listed(w.secrets[l])
    ensures Covers(Apply(w, a), owner, l)
  {
    if Held(w, owner, l) && Held(Apply(w, a), owner, l) {
      var s, s' := w.secrets[l], Apply(w, a).secrets[l];
      if a.Promote? && a.location == l {
        PromotedListsTheSame(s, a.revision, w.now);
      } else if a.SaveKeep? && a.location == l {
        forall id | id in OwnedKeys(w, owner) ensures id in Listed(s') {
          if id in RetiringIds(s) {
            var r :| r in s.retiring && r.id == id;
            assert r in s'.retiring;
          }
        }
      }
    }
  }

  /**
   Exactly when a write loses track of a key, whatever locations the owner has been at: when it registers a key of
   which a Secret of the same owner at another location does not know.
   */
  lemma LosesTrackExactly(w: World, a: Action, owner: Uid)
    requires AllWellFormed(w) && Enabled(w, a) && Tracked(w, owner)
    ensures Tracked(Apply(w, a), owner) <==> !Orphans(w, a, owner)
  {
    if Orphans(w, a, owner) {
      var l :| l in w.secrets && l != a.location && Held(w, owner, l) && a.id !in Listed(w.secrets[l]);
      assert a.id in OwnedKeys(Apply(w, a), owner);
      assert !Covers(Apply(w, a), owner, l);
    } else {
      forall l ensures Covers(Apply(w, a), owner, l) {
        KeptAt(w, a, owner, l);
      }
    }
  }

  /** A new Secret loses track with the very next registration if and only if the owner still has another one. */
  lemma MovingAwayLosesTrack(w: World, owner: Uid, l: Location, candidate: KeyId, request: string)
    requires AllWellFormed(w) && Enabled(w, CreateIntent(owner, l, candidate, request))
    ensures var created := Apply(w, CreateIntent(owner, l, candidate, request));
      && Enabled(created, Generate(owner, l, candidate))
      && (Tracked(Apply(created, Generate(owner, l, candidate)), owner)
          <==> !MovesAway(w, CreateIntent(owner, l, candidate, request), owner))
  {
    var create, generate := CreateIntent(owner, l, candidate, request), Generate(owner, l, candidate);
    var created := Apply(w, create);
    assert OwnedKeys(created, owner) == {};
    assert Tracked(created, owner);
    StepKeepsWellFormed(w, create);
    LosesTrackExactly(created, generate, owner);
    if MovesAway(w, create, owner) {
      var other :| other in w.secrets && Held(w, owner, other);
      assert WellFormed(w.secrets[other], w);
      assert other in created.secrets && other != l && candidate !in Listed(created.secrets[other]);
    }
  }

  // ---------- whole runs ----------

  ghost predicate NeverOrphans(h: seq<Action>, owner: Uid) {
    forall i :: 0 <= i < |h| ==> !OrphansAt(h, owner, i)
  }

  ghost predicate TrackedThroughout(h: seq<Action>, owner: Uid) {
    forall i :: 0 <= i <= |h| ==> Tracked(Run(EMPTY, h[..i]), owner)
  }

  /** A run keeps track in all its states if and only if it never registers a key that another Secret misses. */
  lemma {:induction false} TrackIsKeptExactly(h: seq<Action>, owner: Uid)
    ensures TrackedThroughout(h, owner) <==> NeverOrphans(h, owner)
  {
    if h == [] {
      assert h[..0] == [];
    } else {
      var last := |h| - 1;
      var front := h[..last];
      TrackIsKeptExactly(front, owner);
      RunKeepsWellFormed(EMPTY, front);
      LastState(h, owner);
      LastWrite(h, owner);
      if TrackedThroughout(front, owner) {
        assert front[..last] == front;
        assert Tracked(Run(EMPTY, front), owner);
        if Enabled(Run(EMPTY, front), h[last]) {
          LosesTrackExactly(Run(EMPTY, front), h[last], owner);
        }
      }
    }
  }

  /** What the last write adds to each side. */
  lemma LastState(h: seq<Action>, owner: Uid)
    requires h != []
    ensures TrackedThroughout(h, owner)
            <==> (TrackedThroughout(h[..|h| - 1], owner) && Tracked(Run(EMPTY, h), owner))
  {
    hide Run, Tracked;
    var front := h[..|h| - 1];
    assert forall i :: 0 <= i < |h| ==> front[..i] == h[..i];
    assert h[..|h|] == h;
  }

  predicate OrphansAt(h: seq<Action>, owner: Uid, i: nat)
    requires i < |h|
  {
    Enabled(Run(EMPTY, h[..i]), h[i]) && Orphans(Run(EMPTY, h[..i]), h[i], owner)
  }

  lemma LastWrite(h: seq<Action>, owner: Uid)
    requires h != []
    ensures NeverOrphans(h, owner)
            <==> (NeverOrphans(h[..|h| - 1], owner) && !OrphansAt(h, owner, |h| - 1))
  {
    hide Run, Orphans, Enabled;
    var front := h[..|h| - 1];
    assert forall i :: 0 <= i < |front| ==> front[..i] == h[..i] && front[i] == h[i];
    assert forall i :: 0 <= i < |front| ==> OrphansAt(front, owner, i) == OrphansAt(h, owner, i);
  }

  /** The owner has a Secret at one location at most. */
  ghost predicate Settled(w: World, owner: Uid) {
    forall l, other :: Held(w, owner, l) && Held(w, owner, other) ==> l == other
  }

  ghost predicate NeverMovesAway(h: seq<Action>, owner: Uid) {
    forall i :: 0 <= i < |h| && Enabled(Run(EMPTY, h[..i]), h[i]) ==> !MovesAway(Run(EMPTY, h[..i]), h[i], owner)
  }

  lemma StepStaysSettled(w: World, a: Action, owner: Uid)
    requires Settled(w, owner) && Enabled(w, a) && !MovesAway(w, a, owner)
    ensures Settled(Apply(w, a), owner) && !Orphans(w, a, owner)
  {
    var u := Apply(w, a);
    forall l, other | Held(u, owner, l) && Held(u, owner, other) ensures l == other {
      if !a.CreateIntent? || a.owner != owner {
        assert Held(w, owner, l) && Held(w, owner, other);
      } else {
        assert !Held(w, owner, l) && !Held(w, owner, other);
      }
    }
  }

  /**
   Key-rotation safety for an owner that may move: if it never gets a Secret while it has another one, then in
   every reachable state, at every crash point, each Secret it has lists every key it has, at most two of them, with
   at most one retiring and never together with a pending one.
   */
  lemma {:induction false} MovingOwnersKeepTrack(h: seq<Action>, owner: Uid)
    requires NeverMovesAway(h, owner)
    ensures Settled(Run(EMPTY, h), owner) && Tracked(Run(EMPTY, h), owner)
    ensures var w := Run(EMPTY, h); forall l :: Held(w, owner, l) ==>
      && |w.secrets[l].retiring| <= 1 && (w.secrets[l].pending.Some? ==> w.secrets[l].retiring == [])
      && |OwnedKeys(w, owner)| <= 2
  {
    var w := Run(EMPTY, h);
    RunKeepsWellFormed(EMPTY, h);
    if h != [] {
      var last := |h| - 1;
      var front := h[..last];
      assert forall i :: 0 <= i < last ==> front[..i] == h[..i] && front[i] == h[i];
      MovingOwnersKeepTrack(front, owner);
      RunKeepsWellFormed(EMPTY, front);
      if Enabled(Run(EMPTY, front), h[last]) {
        StepStaysSettled(Run(EMPTY, front), h[last], owner);
        LosesTrackExactly(Run(EMPTY, front), h[last], owner);
      }
    }
    forall l | Held(w, owner, l)
      ensures |w.secrets[l].retiring| <= 1 && (w.secrets[l].pending.Some? ==> w.secrets[l].retiring == [])
      ensures |OwnedKeys(w, owner)| <= 2
    {
      assert Covers(w, owner, l) && WellFormed(w.secrets[l], w);
      AtMostTwo(w.secrets[l], OwnedKeys(w, owner), w);
    }
  }

  /** And the condition is needed: any run in which the owner does move away has an extension that loses track. */
  lemma {:induction false} MovingAwayIsLost(h: seq<Action>, owner: Uid, a: Action)
    requires Enabled(Run(EMPTY, h), a) && MovesAway(Run(EMPTY, h), a, owner)
    ensures !Tracked(Run(EMPTY, h + [a] + [Generate(owner, a.location, a.candidate)]), owner)
  {
    RunKeepsWellFormed(EMPTY, h);
    MovingAwayLosesTrack(Run(EMPTY, h), owner, a.location, a.candidate, a.request);
    RunSnoc(EMPTY, h, a);
    RunSnoc(EMPTY, h + [a], Generate(owner, a.location, a.candidate));
  }

  // ---------- reconciliations ----------

  /** Some key of the owner records that its Secret is at `l`, so that a move finds and removes it. */
  predicate Recorded(w: World, owner: Uid, l: Location) {
    exists id :: id in w.keys && Owned(w, owner, id) && w.keys[id].location == l
  }

  /** What a reconciliation at `l` must find: no other Secret, or, before the first one there, recorded ones only. */
  predicate Movable(w: World, owner: Uid, l: Location) {
    forall other :: other in w.secrets && other != l && Held(w, owner, other) ==>
      l !in w.secrets && Recorded(w, owner, other)
  }

  predicate IsEnsure(a: Action, owner: Uid, location: Location) {
    match a
    case Tick(_) => true
    case Revoke(_, _, _) => false
    case DeleteSecret(_, _) => false
    case SecretLost(_) => false
    case KeyLost(_) => false
    case _ => a.owner == owner && a.location == location
  }

  lemma StepStaysMovable(w: World, a: Action, owner: Uid, l: Location)
    requires Movable(w, owner, l) && IsEnsure(a, owner, l) && Enabled(w, a)
    ensures Movable(Apply(w, a), owner, l) && !Orphans(w, a, owner)
  {
    var u := Apply(w, a);
    forall other | other in u.secrets && other != l && Held(u, owner, other)
      ensures l !in u.secrets && Recorded(u, owner, other)
    {
      assert Recorded(w, owner, other);
      var id :| id in w.keys && Owned(w, owner, id) && w.keys[id].location == other;
      assert a.CreateIntent? ==> id in OwnedKeys(w, owner);
      assert id in u.keys && Owned(u, owner, id) && u.keys[id].location == other;
    }
  }

  /** Hence a reconciliation keeps track at every crash point, if it finds nothing that no key records. */
  lemma {:induction false} EnsuringKeepsTrack(w: World, h: seq<Action>, owner: Uid, l: Location)
    requires AllWellFormed(w) && Tracked(w, owner) && Movable(w, owner, l)
    requires forall a :: a in h ==> IsEnsure(a, owner, l)
    ensures Tracked(Run(w, h), owner) && Movable(Run(w, h), owner, l)
  {
    if h != [] {
      var front, a := h[..|h| - 1], h[|h| - 1];
      EnsuringKeepsTrack(w, front, owner, l);
      RunKeepsWellFormed(w, front);
      if Enabled(Run(w, front), a) {
        StepStaysMovable(Run(w, front), a, owner, l);
        LosesTrackExactly(Run(w, front), a, owner);
      }
    }
  }
}
