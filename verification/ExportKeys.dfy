/**
 The LiteLLM keys of the exports: one restricted key for each, replaced when its export changes or it is about to
 expire. The store is changed in one transaction, LiteLLM call by call, so a failure leaves the two apart.
 */
module ExportKeys {
  import opened Wrappers

  const MARGIN := 600.0
  const LIFETIME := 86400.0

  /** The configuration of an export; a key carries the fingerprint of the one it was made for. */
  datatype Config = Config(model: string, rpm: nat, tpm: nat, maxConcurrent: nat)

  /** The export `share/<node>/<model>` of a member. */
  datatype Remote = Remote(node: string, model: string)

  datatype Key = Key(secret: nat, expiresAt: real, config: Config)

  datatype Failure = Failure

  /**
   How a call of LiteLLM ends: it does not arrive, its answer is lost, the key that it makes is not as restricted as
   requested, or all is well.
   */
  datatype Outcome = NotArrived | Unanswered | Unrestricted | Done

  /** The key still fits its export, with some time left. */
  predicate Fits(k: Key, name: Remote, exports: map<Remote, Config>, now: real) {
    name in exports && k.config == exports[name] && k.expiresAt > now + MARGIN
  }

  /** Every export has a key that fits, and there are no others. */
  ghost predicate Served(keys: map<Remote, Key>, exports: map<Remote, Config>, now: real) {
    keys.Keys == exports.Keys && forall n :: n in keys ==> Fits(keys[n], n, exports, now)
  }

  /** The names whose keys have to go. */
  function Stale(keys: map<Remote, Key>, exports: map<Remote, Config>, now: real): set<Remote> {
    set n | n in keys && !Fits(keys[n], n, exports, now)
  }

  /** The names that need a new key. */
  function Missing(keys: map<Remote, Key>, exports: map<Remote, Config>, now: real): set<Remote> {
    set n | n in exports && !(n in keys && Fits(keys[n], n, exports, now))
  }

  function Size(names: set<Remote>): nat {
    |names|
  }

  /** The calls that bring the keys in line with the exports. */
  function Work(keys: map<Remote, Key>, exports: map<Remote, Config>, now: real): nat {
    Size(Stale(keys, exports, now)) + Size(Missing(keys, exports, now))
  }

  /** The keys that fit, and those of `rest`. */
  function Remaining(keys: map<Remote, Key>, exports: map<Remote, Config>, now: real, rest: set<Remote>):
    map<Remote, Key>
  {
    map n | n in keys && (n in rest || Fits(keys[n], n, exports, now)) :: keys[n]
  }

  /** LiteLLM still knows the keys that fit, and those of `rest`, as far as it knew them. */
  ghost predicate FitStayLive(keys: map<Remote, Key>, exports: map<Remote, Config>, now: real, rest: set<Remote>,
                              before: set<nat>, live: set<nat>) {
    forall n :: n in keys && (n in rest || Fits(keys[n], n, exports, now)) ==>
      (keys[n].secret in live <==> keys[n].secret in before)
  }

  /** The key of an export is the one that was kept, or a new one. */
  predicate NewOrKept(kept: map<Remote, Key>, keys: map<Remote, Key>, n: Remote, exports: map<Remote, Config>, now: real,
                      live: set<nat>)
    requires n in keys
  {
    && n in exports
    && if n in kept then keys[n] == kept[n]
       else keys[n].config == exports[n] && keys[n].expiresAt == now + LIFETIME && keys[n].secret in live
  }

  ghost predicate AllNewOrKept(kept: map<Remote, Key>, keys: map<Remote, Key>, exports: map<Remote, Config>, now: real,
                               live: set<nat>) {
    forall n :: n in keys ==> NewOrKept(kept, keys, n, exports, now, live)
  }

  /** No two names share a secret. */
  ghost predicate Distinct(keys: map<Remote, Key>) {
    forall m, n :: m in keys && n in keys && keys[m].secret == keys[n].secret ==> m == n
  }

  ghost predicate AllLive(keys: map<Remote, Key>, live: set<nat>) {
    forall n :: n in keys ==> keys[n].secret in live
  }

  /** Keys that LiteLLM no longer knows are at least due to be replaced. */
  ghost predicate DeadAreDue(keys: map<Remote, Key>, live: set<nat>, exports: map<Remote, Config>, now: real) {
    forall n :: n in keys && keys[n].secret !in live ==> !Fits(keys[n], n, exports, now)
  }

  /** Secrets are numbered as LiteLLM hands them out. */
  ghost predicate Issued(keys: map<Remote, Key>, live: set<nat>, next: nat) {
    (forall n :: n in keys ==> keys[n].secret < next) && (forall s :: s in live ==> s < next)
  }

  /**
   One key for each export: the one that was there, if it was made for the same configuration and lasts for more than
   ten minutes; or else a new one, for one day.
   */
  ghost predicate KeysFit(before: map<Remote, Key>, after: map<Remote, Key>, exports: map<Remote, Config>, now: real,
                          live: set<nat>) {
    && (forall n :: n in after <==> n in exports)
    && forall n :: n in after ==>
         if n in before && before[n].config == exports[n] && now + 600.0 < before[n].expiresAt then after[n] == before[n]
         else after[n] == Key(after[n].secret, now + 86400.0, exports[n]) && after[n].secret in live
  }

  lemma KeysAreSeen(before: map<Remote, Key>, kept: map<Remote, Key>, after: map<Remote, Key>,
                    exports: map<Remote, Config>, now: real, live: set<nat>)
    requires kept == Remaining(before, exports, now, {})
    requires after.Keys == exports.Keys && AllNewOrKept(kept, after, exports, now, live)
    ensures KeysFit(before, after, exports, now, live)
  {
    assert forall n :: n in after <==> n in after.Keys;
  }

  class ExportKeys {
    /** How the calls end, one after the other; beyond that, all is well. */
    const outcomes: seq<Outcome>
    var keys: map<Remote, Key>
    var live: set<nat>
    var next: nat
    var calls: nat

    ghost predicate Valid()
      reads this
    {
      Issued(keys, live, next) && Distinct(keys)
    }

    constructor (outcomes: seq<Outcome>)
      ensures Valid() && keys == map[] && live == {} && calls == 0 && this.outcomes == outcomes
    {
      this.outcomes := outcomes;
      keys, live, next, calls := map[], {}, 0, 0;
    }

    function OutcomeOf(n: nat): Outcome {
      if n < |outcomes| then outcomes[n] else Done
    }

    /** One of the calls from `from` on, and before `to`, did not end well. */
    ghost predicate Failing(from: nat, to: nat) {
      exists n: nat :: from <= n < to && OutcomeOf(n) != Done
    }

    /** A key that LiteLLM does not know counts as deleted. */
    method DeleteKey(secret: nat) returns (r: Result<(), Failure>)
      modifies `live, `calls
      ensures calls == old(calls) + 1
      ensures live == (if old(OutcomeOf(calls)) == NotArrived then old(live) else old(live) - {secret})
      ensures r.Ok? <==> old(OutcomeOf(calls)) == Done
    {
      var outcome := OutcomeOf(calls);
      calls := calls + 1;
      if outcome != NotArrived { live := live - {secret}; }
      return if outcome == Done then Ok(()) else Err(Failure);
    }

    /** A key that does not come out as restricted as requested is deleted again. */
    method NewKey() returns (r: Result<nat, Failure>)
      requires forall s :: s in live ==> s < next
      modifies `live, `next, `calls
      ensures next == old(next) + 1
      ensures live == old(live) || live == old(live) + {old(next)}
      ensures r.Ok? <==> old(OutcomeOf(calls)) == Done
      ensures r.Ok? ==> r.value == old(next) && r.value in live && calls == old(calls) + 1
    {
      var secret, outcome := next, OutcomeOf(calls);
      next, calls := next + 1, calls + 1;
      if outcome != NotArrived { live := live + {secret}; }
      if outcome == Unrestricted {
        var deleted := DeleteKey(secret);
        assert old(live) + {secret} - {secret} == old(live);
      }
      return if outcome == Done then Ok(secret) else Err(Failure);
    }

    /** What does not fit is deleted; the keys that fit are left alone. */
    method Retire(exports: map<Remote, Config>, now: real) returns (r: Result<map<Remote, Key>, Failure>)
      requires Valid()
      modifies `live, `calls
      ensures Valid() && live <= old(live)
      ensures FitStayLive(keys, exports, now, {}, old(live), live)
      ensures r.Ok? ==> r.value == Remaining(keys, exports, now, {})
      ensures r.Ok? ==> calls == old(calls) + Size(Stale(keys, exports, now))
      ensures r.Err? ==> Failing(old(calls), old(calls) + Size(Stale(keys, exports, now)))
      ensures old(OutcomeOf(calls)) == Unanswered && Stale(keys, exports, now) != {} ==>
        r.Err? && exists n :: n in Stale(keys, exports, now) && live == old(live) - {keys[n].secret}
    {
      hide Failing, Remaining, FitStayLive, Stale, OutcomeOf, Size;
      ghost var stale := Stale(keys, exports, now);
      var current, rest := keys, keys.Keys;
      ghost var left := stale;
      NothingRetired(keys, exports, now, live);
      while rest != {}
        invariant rest <= keys.Keys && live <= old(live)
        invariant left == stale * rest && calls + Size(left) == old(calls) + Size(stale)
        invariant old(calls) <= calls && (calls == old(calls) ==> live == old(live))
        invariant calls > old(calls) ==> old(OutcomeOf(calls)) == Done
        invariant FitStayLive(keys, exports, now, rest, old(live), live)
        invariant current == Remaining(keys, exports, now, rest)
      {
        var name :| name in rest;
        ghost var before, n := live, calls;
        OneRetired(keys, exports, now, rest, old(live), before, name);
        if !Fits(keys[name], name, exports, now) {
          OneLess(left, name);
          var deleted := DeleteKey(keys[name].secret);
          if deleted.Err? {
            Fails(old(calls), n, old(calls) + Size(stale));
            assert n == old(calls) && old(OutcomeOf(calls)) == Unanswered ==> live == old(live) - {keys[name].secret};
            return Err(Failure);
          }
          current := current - {name};
          left := left - {name};
        }
        rest := rest - {name};
      }
      SizeMeans(left);
      SizeMeans(stale);
      return Ok(current);
    }

    lemma Fails(from: nat, n: nat, to: nat)
      requires from <= n < to && OutcomeOf(n) != Done
      ensures Failing(from, to)
    {
    }

    /** What a store of keys in the making keeps. */
    ghost predicate Growing(kept: map<Remote, Key>, current: map<Remote, Key>, exports: map<Remote, Config>, now: real)
      reads this
    {
      && Issued(current, live, next) && Distinct(current)
      && current.Keys <= exports.Keys && AllNewOrKept(kept, current, exports, now, live)
    }

    /** An export that has no key gets one. */
    method ProvideOne(kept: map<Remote, Key>, current: map<Remote, Key>, exports: map<Remote, Config>, now: real, name: Remote)
      returns (r: Result<map<Remote, Key>, Failure>)
      requires Growing(kept, current, exports, now) && name in exports && name !in kept && name !in current
      modifies `live, `next, `calls
      ensures next == old(next) + 1 && old(live) <= live <= old(live) + {old(next)}
      ensures r.Ok? ==> Growing(kept, r.value, exports, now) && r.value.Keys == current.Keys + {name}
      ensures r.Ok? ==> calls == old(calls) + 1
      ensures r.Err? ==> old(OutcomeOf(calls)) != Done
    {
      hide AllNewOrKept, Distinct, OutcomeOf;
      var secret := NewKey();
      if secret.Err? { return Err(Failure); }
      OneProvided(kept, current, exports, now, old(live), live, old(next), name);
      return Ok(current[name := Key(secret.value, now + LIFETIME, exports[name])]);
    }

    /** Every export without a key gets one. */
    method Provide(kept: map<Remote, Key>, exports: map<Remote, Config>, now: real)
      returns (r: Result<map<Remote, Key>, Failure>)
      requires Issued(kept, live, next) && Distinct(kept) && kept.Keys <= exports.Keys
      modifies `live, `next, `calls
      ensures Newer(old(live), old(next), live, next)
      ensures r.Ok? ==> Growing(kept, r.value, exports, now) && r.value.Keys == exports.Keys
      ensures r.Ok? ==> calls == old(calls) + Size(exports.Keys - kept.Keys)
      ensures r.Err? ==> Failing(old(calls), old(calls) + Size(exports.Keys - kept.Keys))
    {
      hide Failing, Distinct, Issued, AllNewOrKept, OutcomeOf, Newer, Growing, Size;
      var missing := exports.Keys - kept.Keys;
      var current, rest := kept, missing;
      KeptIsKept(kept, exports, now, live);
      Begin(kept, exports, now);
      while rest != {}
        invariant rest <= missing && current.Keys == exports.Keys - rest
        invariant old(calls) <= calls && calls + Size(rest) == old(calls) + Size(missing)
        invariant Newer(old(live), old(next), live, next)
        invariant Growing(kept, current, exports, now)
      {
        var name :| name in rest;
        ghost var n, before, number := calls, live, next;
        OneLess(rest, name);
        r := ProvideOne(kept, current, exports, now, name);
        NewerStill(old(live), old(next), before, number, live);
        if r.Err? {
          Fails(old(calls), n, old(calls) + Size(missing));
          return;
        }
        current, rest := r.value, rest - {name};
      }
      SizeMeans(rest);
      return Ok(current);
    }

    lemma Begin(kept: map<Remote, Key>, exports: map<Remote, Config>, now: real)
      requires Issued(kept, live, next) && Distinct(kept) && kept.Keys <= exports.Keys
      ensures Growing(kept, kept, exports, now) && Newer(live, next, live, next)
    {
    }

    /**
     Success leaves exactly the keys that the exports need, keys that fit are not replaced, and the keys that LiteLLM
     does not know are those that fit and were dead before. A failure leaves the store as it was, although LiteLLM
     may have lost some of its keys: but only keys that were due anyway.
     */
    method Reconcile(exports: map<Remote, Config>, now: real) returns (r: Result<(), Failure>)
      requires Valid()
      modifies this
      ensures Valid()
      ensures r.Ok? ==> Served(keys, exports, now)
      ensures r.Ok? ==> KeysFit(old(keys), keys, exports, now, live)
      ensures r.Ok? ==> forall n :: n in old(keys) && Fits(old(keys)[n], n, exports, now) ==> keys[n] == old(keys)[n]
      ensures r.Err? ==> keys == old(keys)
      ensures r.Ok? ==> calls == old(calls) + Work(old(keys), exports, now)
      ensures r.Err? ==> Failing(old(calls), old(calls) + Work(old(keys), exports, now))
      ensures old(OutcomeOf(calls)) == Unanswered && Stale(old(keys), exports, now) != {} ==>
        r.Err? && exists n :: n in Stale(old(keys), exports, now) && live == old(live) - {old(keys)[n].secret}
      ensures r.Ok? ==> forall n :: n in keys ==>
        (keys[n].secret !in live <==>
           n in old(keys) && Fits(old(keys)[n], n, exports, now) && old(keys)[n].secret !in old(live))
      ensures old(DeadAreDue(keys, live, exports, now)) ==>
        if r.Ok? then AllLive(keys, live) else DeadAreDue(keys, live, exports, now)
    {
      hide Size, OutcomeOf, Stale, Missing, KeysFit;
      var kept := Retire(exports, now);
      if kept.Err? { return Err(Failure); }
      MissingIsRest(keys, kept.value, exports, now);
      var complete := Provide(kept.value, exports, now);
      if complete.Err? { return Err(Failure); }
      KeysAreSeen(keys, kept.value, complete.value, exports, now, live);
      keys := complete.value;
      return Ok(());
    }
  }

  /** Nothing is lost, and what is new has a new number. */
  ghost predicate Newer(before: set<nat>, number: nat, live: set<nat>, next: nat) {
    && before <= live && number <= next
    && forall s :: s in live ==> s < next && (s in before || number <= s)
  }

  lemma NewerStill(before: set<nat>, number: nat, middle: set<nat>, next: nat, live: set<nat>)
    requires Newer(before, number, middle, next) && middle <= live <= middle + {next}
    ensures Newer(before, number, live, next + 1)
  {
  }

  // ---------- steps of the two loops ----------

  lemma OneLess(left: set<Remote>, name: Remote)
    requires name in left
    ensures Size(left) == Size(left - {name}) + 1
  {
    assert left == (left - {name}) + {name};
  }

  lemma SizeMeans(names: set<Remote>)
    ensures Size(names) == 0 <==> names == {}
  {
  }

  lemma NothingRetired(keys: map<Remote, Key>, exports: map<Remote, Config>, now: real, live: set<nat>)
    ensures Stale(keys, exports, now) * keys.Keys == Stale(keys, exports, now)
    ensures Remaining(keys, exports, now, keys.Keys) == keys
    ensures FitStayLive(keys, exports, now, keys.Keys, live, live)
  {
  }

  lemma OneRetired(keys: map<Remote, Key>, exports: map<Remote, Config>, now: real, rest: set<Remote>,
                   before: set<nat>, live: set<nat>, name: Remote)
    requires rest <= keys.Keys && name in rest && Distinct(keys) && FitStayLive(keys, exports, now, rest, before, live)
    ensures Fits(keys[name], name, exports, now) ==>
      && name !in Stale(keys, exports, now)
      && Remaining(keys, exports, now, rest - {name}) == Remaining(keys, exports, now, rest)
      && FitStayLive(keys, exports, now, rest - {name}, before, live)
    ensures !Fits(keys[name], name, exports, now) ==>
      && name in Stale(keys, exports, now)
      && Remaining(keys, exports, now, rest - {name}) == Remaining(keys, exports, now, rest) - {name}
      && FitStayLive(keys, exports, now, rest - {name}, before, live - {keys[name].secret})
      && FitStayLive(keys, exports, now, {}, before, live) && FitStayLive(keys, exports, now, {}, before, live - {keys[name].secret})
  {
  }

  lemma KeptIsKept(kept: map<Remote, Key>, exports: map<Remote, Config>, now: real, live: set<nat>)
    requires kept.Keys <= exports.Keys
    ensures kept.Keys == exports.Keys - (exports.Keys - kept.Keys)
    ensures AllNewOrKept(kept, kept, exports, now, live)
  {
  }

  lemma OneProvided(kept: map<Remote, Key>, current: map<Remote, Key>, exports: map<Remote, Config>, now: real,
                    before: set<nat>, live: set<nat>, secret: nat, name: Remote)
    requires Issued(current, before, secret) && Distinct(current)
    requires name in exports && name !in kept && name !in current && before <= live <= before + {secret} && secret in live
    requires current.Keys <= exports.Keys && AllNewOrKept(kept, current, exports, now, before)
    ensures var after := current[name := Key(secret, now + LIFETIME, exports[name])];
      && Issued(after, live, secret + 1) && Distinct(after)
      && AllNewOrKept(kept, after, exports, now, live)
  {
  }

  lemma MissingIsRest(keys: map<Remote, Key>, kept: map<Remote, Key>, exports: map<Remote, Config>, now: real)
    requires kept == Remaining(keys, exports, now, {})
    ensures exports.Keys - kept.Keys == Missing(keys, exports, now)
  {
  }

  /** As time passes, whatever was due stays due; so retries for the same exports end with every key alive. */
  lemma DueStaysDue(keys: map<Remote, Key>, live: set<nat>, exports: map<Remote, Config>, now: real, later: real)
    requires DeadAreDue(keys, live, exports, now) && now <= later
    ensures DeadAreDue(keys, live, exports, later)
  {
  }

  /**
   Not so when an export changes and changes back around a failure. The second of three reconciliations fails because
   the answer to its deletion is lost; the third succeeds, and leaves in place a key that LiteLLM no longer has.
   */
  method ChangeAndChangeBack(name: Remote, before: Config, after: Config, now: real)
    returns (store: ExportKeys, first: Result<(), Failure>, second: Result<(), Failure>, third: Result<(), Failure>)
    requires before != after
    ensures first.Ok? && second.Err? && third.Ok?
    ensures store.Valid() && Served(store.keys, map[name := before], now)
    ensures name in store.keys && store.keys[name].secret !in store.live
  {
    store := new ExportKeys([Done, Unanswered]);
    WorkForOne(store.keys, name, before, now);
    first := store.Reconcile(map[name := before], now);
    ghost var keys := store.keys;
    assert store.calls == 1 && Stale(keys, map[name := after], now) == {name};
    second := store.Reconcile(map[name := after], now);
    WorkForOne(store.keys, name, before, now);
    third := store.Reconcile(map[name := before], now);
  }

  lemma WorkForOne(keys: map<Remote, Key>, name: Remote, config: Config, now: real)
    ensures keys == map[] ==> Work(keys, map[name := config], now) == 1
    ensures Served(keys, map[name := config], now) ==> Work(keys, map[name := config], now) == 0
  {
    var exports := map[name := config];
    if keys == map[] {
      assert Stale(keys, exports, now) == {} && Missing(keys, exports, now) == {name};
    } else if Served(keys, exports, now) {
      assert Stale(keys, exports, now) == {} && Missing(keys, exports, now) == {};
    }
  }
}
