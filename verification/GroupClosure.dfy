/**
 Group membership of a user, closed under parent groups: the worklist of `InstanceAccess.group_ids`, which must end
 on every directory, cycles included, and never grant membership in a group that no parent link leads to.
 */
module GroupClosure {
  import opened Wrappers

  const MAX_GROUPS := 1000

  /** A group reference as the identity provider returns it: an identifier that passes the check, or not. */
  datatype Id = Id(text: string)

  datatype Ref = Group(id: Id) | Malformed

  datatype Failure = Unavailable | Unverified | TooMany

  /** The identity provider: the parent of each group, if it has one. */
  datatype Directory = Directory(parents: map<Id, Ref>) {
    function Parent(id: Id): Option<Ref> {
      if id in parents then Some(parents[id]) else None
    }
  }

  /** The group that lies `n` parent links above `start`. */
  function Ancestor(d: Directory, start: Ref, n: nat): Option<Ref> {
    if n == 0 then Some(start)
    else
      var below := Ancestor(d, start, n - 1);
      if below.Some? && below.value.Group? then d.Parent(below.value.id) else None
  }

  ghost predicate Reachable(d: Directory, direct: seq<Ref>, r: Ref) {
    exists g: Ref, n: nat :: g in direct && Ancestor(d, g, n) == Some(r)
  }

  /** Already collected, or still on the worklist. */
  predicate Noted(r: Ref, seen: set<Id>, pending: seq<Ref>) {
    r in pending || (r.Group? && r.id in seen)
  }

  lemma ParentIsReachable(d: Directory, direct: seq<Ref>, id: Id)
    requires Reachable(d, direct, Group(id)) && d.Parent(id).Some?
    ensures Reachable(d, direct, d.Parent(id).value)
  {
    var g: Ref, n: nat :| g in direct && Ancestor(d, g, n) == Some(Group(id));
    assert Ancestor(d, g, n + 1) == d.Parent(id);
  }

  /** A set that holds the direct groups and every parent of its members holds all that is reachable. */
  lemma {:induction false} ClosedHoldsAncestors(d: Directory, start: Ref, n: nat, seen: set<Id>)
    requires Noted(start, seen, [])
    requires forall id :: id in seen && d.Parent(id).Some? ==> Noted(d.Parent(id).value, seen, [])
    ensures Ancestor(d, start, n).Some? ==> Noted(Ancestor(d, start, n).value, seen, [])
  {
    if n > 0 { ClosedHoldsAncestors(d, start, n - 1, seen); }
  }

  lemma ClosedHoldsReachable(d: Directory, direct: seq<Ref>, seen: set<Id>)
    requires forall g :: g in direct ==> Noted(g, seen, [])
    requires forall id :: id in seen && d.Parent(id).Some? ==> Noted(d.Parent(id).value, seen, [])
    ensures forall r :: Reachable(d, direct, r) ==> Noted(r, seen, [])
  {
    forall g: Ref, n: nat | g in direct && Ancestor(d, g, n).Some?
      ensures Noted(Ancestor(d, g, n).value, seen, [])
    {
      ClosedHoldsAncestors(d, g, n, seen);
    }
  }

  lemma DirectIsReachable(d: Directory, direct: seq<Ref>)
    ensures forall g :: g in direct ==> Reachable(d, direct, g)
  {
    forall g | g in direct ensures Reachable(d, direct, g) {
      assert Ancestor(d, g, 0) == Some(g);
    }
  }

  /** Only reachable groups are noted, and every direct group and every parent of a collected one is. */
  ghost predicate Progress(d: Directory, direct: seq<Ref>, seen: set<Id>, pending: seq<Ref>) {
    && (forall g :: g in pending ==> Reachable(d, direct, g))
    && (forall id :: id in seen ==> Reachable(d, direct, Group(id)))
    && (forall g :: g in direct ==> Noted(g, seen, pending))
    && (forall id :: id in seen && d.Parent(id).Some? ==> Noted(d.Parent(id).value, seen, pending))
  }

  /** One turn of the worklist: drop a known group, or collect a new one and note its parent. */
  lemma Visit(d: Directory, direct: seq<Ref>, seen: set<Id>, pending: seq<Ref>)
    requires pending != [] && Progress(d, direct, seen, pending)
    ensures var group, rest := pending[|pending| - 1], pending[..|pending| - 1];
      && Reachable(d, direct, group)
      && (group.Group? ==>
        if group.id in seen then Progress(d, direct, seen, rest)
        else var parent := d.Parent(group.id);
             |seen + {group.id}| == |seen| + 1 &&
             Progress(d, direct, seen + {group.id}, rest + if parent.Some? then [parent.value] else []))
  {
    var group, rest := pending[|pending| - 1], pending[..|pending| - 1];
    assert pending == rest + [group];
    if group.Group? && group.id !in seen {
      var parent := d.Parent(group.id);
      var seen', pending' := seen + {group.id}, rest + if parent.Some? then [parent.value] else [];
      if parent.Some? { ParentIsReachable(d, direct, group.id); }
      forall r | Noted(r, seen, pending) ensures Noted(r, seen', pending') { }
    }
  }

  lemma TooManyReachable(d: Directory, direct: seq<Ref>, seen: set<Id>, id: Id) returns (ids: set<Id>)
    requires |seen| == MAX_GROUPS && id !in seen && Reachable(d, direct, Group(id))
    requires forall x :: x in seen ==> Reachable(d, direct, Group(x))
    ensures |ids| == MAX_GROUPS + 1 && forall x :: x in ids ==> Reachable(d, direct, Group(x))
  {
    ids := seen + {id};
    assert |ids| == MAX_GROUPS + 1;
  }

  /** The set holds the direct groups and, with every group, its parent; none of these is malformed. */
  ghost predicate IsClosed(d: Directory, direct: seq<Ref>, groups: set<Id>) {
    && (forall g :: g in direct ==> g.Group? && g.id in groups)
    && (forall id :: id in groups && id in d.parents ==> d.parents[id].Group? && d.parents[id].id in groups)
  }

  lemma {:induction false} ClosedHolds(d: Directory, direct: seq<Ref>, groups: set<Id>, start: Ref, n: nat)
    requires IsClosed(d, direct, groups) && start in direct && Ancestor(d, start, n).Some?
    ensures Ancestor(d, start, n).value.Group? && Ancestor(d, start, n).value.id in groups
  {
    if n > 0 { ClosedHolds(d, direct, groups, start, n - 1); }
  }

  /** What is reachable is closed. */
  lemma ReachableIsClosed(d: Directory, direct: seq<Ref>, groups: set<Id>)
    requires forall id :: id in groups <==> Reachable(d, direct, Group(id))
    requires !Reachable(d, direct, Malformed)
    ensures IsClosed(d, direct, groups)
  {
    DirectIsReachable(d, direct);
    hide Reachable;
    forall g | g in direct ensures g.Group? && g.id in groups {
      assert Reachable(d, direct, g);
    }
    forall id | id in groups && id in d.parents ensures d.parents[id].Group? && d.parents[id].id in groups {
      ParentIsReachable(d, direct, id);
    }
  }

  /** And no closed set is smaller. */
  lemma ReachableIsLeast(d: Directory, direct: seq<Ref>, groups: set<Id>)
    requires forall id :: id in groups <==> Reachable(d, direct, Group(id))
    requires !Reachable(d, direct, Malformed)
    ensures IsClosed(d, direct, groups)
    ensures forall other :: IsClosed(d, direct, other) ==> groups <= other
  {
    ReachableIsClosed(d, direct, groups);
    hide Reachable, IsClosed;
    forall other | IsClosed(d, direct, other) ensures groups <= other {
      ClosedIsLarge(d, direct, groups, other);
    }
  }

  /** A malformed reference that is reachable leaves no closed set. */
  lemma MalformedIsOpen(d: Directory, direct: seq<Ref>, groups: set<Id>)
    requires Reachable(d, direct, Malformed)
    ensures !IsClosed(d, direct, groups)
  {
    var g: Ref, n: nat :| g in direct && Ancestor(d, g, n) == Some(Malformed);
    if IsClosed(d, direct, groups) { ClosedHolds(d, direct, groups, g, n); }
  }

  lemma {:induction false} NoSmaller(a: set<Id>, b: set<Id>)
    requires a <= b
    ensures |a| <= |b|
  {
    if a != {} {
      var x :| x in a;
      NoSmaller(a - {x}, b - {x});
    }
  }

  /** Each closed set holds whatever is reachable. */
  lemma ClosedIsLarge(d: Directory, direct: seq<Ref>, ids: set<Id>, groups: set<Id>)
    requires forall id :: id in ids ==> Reachable(d, direct, Group(id))
    requires IsClosed(d, direct, groups)
    ensures ids <= groups && |ids| <= |groups|
  {
    forall id | id in ids ensures id in groups {
      var g: Ref, n: nat :| g in direct && Ancestor(d, g, n) == Some(Group(id));
      ClosedHolds(d, direct, groups, g, n);
    }
    NoSmaller(ids, groups);
  }

  /**
   The result is exactly the set of reachable groups, that is, the least set closed under parents. A refusal is always
   justified: by a reachable malformed reference, by more than 1000 distinct reachable groups, or by a lookup that fails,
   as it does for the groups in `down`.
   */
  method GroupIds(d: Directory, direct: seq<Ref>, down: set<Id>) returns (r: Result<set<Id>, Failure>)
    ensures r.Ok? ==> |r.value| <= MAX_GROUPS
                      && (forall id :: id in r.value <==> Reachable(d, direct, Group(id)))
                      && !Reachable(d, direct, Malformed)
    ensures r.Ok? ==> |r.value| <= 1000 && IsClosed(d, direct, r.value)
                      && forall other :: IsClosed(d, direct, other) ==> r.value <= other
    ensures r == Err(Unavailable) ==> exists id :: id in down && Reachable(d, direct, Group(id))
    ensures down == {} ==>
      (r.Ok? <==> exists groups :: IsClosed(d, direct, groups) && |groups| <= 1000)
    ensures r == Err(Unverified) ==> Reachable(d, direct, Malformed)
                                     && forall groups :: !IsClosed(d, direct, groups)
    ensures r == Err(TooMany) ==>
      forall groups :: IsClosed(d, direct, groups) ==> exists ids: set<Id> :: |ids| == 1001 && ids <= groups
    ensures r == Err(TooMany) ==>
      exists ids: set<Id> :: |ids| == MAX_GROUPS + 1 && forall id :: id in ids ==> Reachable(d, direct, Group(id))
  {
    hide IsClosed, Reachable;
    var pending, seen: set<Id> := direct, {};
    DirectIsReachable(d, direct);
    while pending != []
      invariant |seen| <= MAX_GROUPS && Progress(d, direct, seen, pending)
      decreases MAX_GROUPS - |seen|, |pending|
    {
      Visit(d, direct, seen, pending);
      var group := pending[|pending| - 1];
      pending := pending[..|pending| - 1];
      if group.Malformed? {
        forall groups ensures !IsClosed(d, direct, groups) {
          MalformedIsOpen(d, direct, groups);
        }
        return Err(Unverified);
      }
      if group.id in seen {
        continue;
      }
      if |seen| >= MAX_GROUPS {
        ghost var ids := TooManyReachable(d, direct, seen, group.id);
        forall groups | IsClosed(d, direct, groups) ensures ids <= groups && |groups| > 1000 {
          ClosedIsLarge(d, direct, ids, groups);
        }
        return Err(TooMany);
      }
      seen := seen + {group.id};
      if group.id in down {
        return Err(Unavailable);
      }
      var parent := d.Parent(group.id);
      pending := pending + if parent.Some? then [parent.value] else [];
    }
    ClosedHoldsReachable(d, direct, seen);
    ReachableIsLeast(d, direct, seen);
    r := Ok(seen);
  }
}
