/**
 Rate limiting of shared models: the sliding window that `ExportBridge.reserve` keeps for each model.

 A gate remembers every admission it ever made; the deque of the source is its history without the `evicted`
 oldest entries. Times are readings of a clock in seconds.
 */
module SlidingWindow {
  const WINDOW := 60.0

  datatype Entry = Entry(at: real, tokens: nat)

  datatype Config = Config(maxConcurrent: nat, rpm: nat, tpm: nat)

  /** A call of `reserve`; `crowded` says that the concurrency limit refused it. */
  datatype Call = Call(started: real, tokens: nat, crowded: bool)

  datatype Gate = Gate(history: seq<Entry>, evicted: nat) {
    ghost predicate Valid() {
      evicted <= |history|
    }

    function Window(): seq<Entry>
      requires Valid()
    {
      history[evicted..]
    }
  }

  const OPEN := Gate([], 0)

  function Tokens(entries: seq<Entry>): nat {
    if entries == [] then 0 else Tokens(entries[..|entries| - 1]) + entries[|entries| - 1].tokens
  }

  /** The number of leading entries that are at least a minute old. */
  function Stale(window: seq<Entry>, started: real): (n: nat)
    ensures n <= |window| && forall i :: 0 <= i < n ==> window[i].at <= started - WINDOW
    ensures n < |window| ==> started - WINDOW < window[n].at
  {
    if window == [] || started - WINDOW < window[0].at then 0 else 1 + Stale(window[1..], started)
  }

  function Evicted(g: Gate, started: real): (r: Gate)
    requires g.Valid()
    ensures r.Valid()
  {
    g.(evicted := g.evicted + Stale(g.Window(), started))
  }

  predicate Fits(g: Gate, c: Config, tokens: nat)
    requires g.Valid()
  {
    |g.Window()| < c.rpm && Tokens(g.Window()) + tokens <= c.tpm
  }

  function Offer(g: Gate, c: Config, call: Call): (r: Gate)
    requires g.Valid()
    ensures r.Valid()
  {
    var pruned := Evicted(g, call.started);
    if call.crowded || !Fits(pruned, c, call.tokens) then pruned
    else pruned.(history := pruned.history + [Entry(call.started, call.tokens)])
  }

  function Offers(c: Config, calls: seq<Call>): (g: Gate)
    ensures g.Valid()
  {
    if calls == [] then OPEN else Offer(Offers(c, calls[..|calls| - 1]), c, calls[|calls| - 1])
  }

  // ---------- the bound, for every interval of one minute ----------

  function Within(entries: seq<Entry>, s: real): (r: seq<Entry>)
    ensures |r| <= |entries|
  {
    if entries == [] then []
    else
      var last := entries[|entries| - 1];
      Within(entries[..|entries| - 1], s) + if s < last.at <= s + WINDOW then [last] else []
  }

  /** In every half-open minute, at most `rpm` admissions with at most `tpm` tokens. */
  ghost predicate Bounded(entries: seq<Entry>, c: Config) {
    forall s :: |Within(entries, s)| <= c.rpm && Tokens(Within(entries, s)) <= c.tpm
  }

  lemma {:induction false} TokensConcat(a: seq<Entry>, b: seq<Entry>)
    ensures Tokens(a + b) == Tokens(a) + Tokens(b)
  {
    if b == [] {
      assert a + b == a;
    } else {
      TokensConcat(a, b[..|b| - 1]);
      assert (a + b)[..|a + b| - 1] == a + b[..|b| - 1];
    }
  }

  /** Old entries do not fall into a minute that contains a later admission. */
  lemma {:induction false} WithinSkipsTheOld(old_: seq<Entry>, recent: seq<Entry>, s: real)
    requires forall e :: e in old_ ==> e.at <= s
    ensures Within(old_ + recent, s) == Within(recent, s)
  {
    if recent == [] {
      assert old_ + recent == old_;
      NoneWithin(old_, s);
    } else {
      WithinSkipsTheOld(old_, recent[..|recent| - 1], s);
      assert (old_ + recent)[..|old_ + recent| - 1] == old_ + recent[..|recent| - 1];
    }
  }

  lemma {:induction false} NoneWithin(entries: seq<Entry>, s: real)
    requires forall e :: e in entries ==> e.at <= s
    ensures Within(entries, s) == []
  {
    if entries != [] { NoneWithin(entries[..|entries| - 1], s); }
  }

  lemma {:induction false} WithinIsLighter(entries: seq<Entry>, s: real)
    ensures Tokens(Within(entries, s)) <= Tokens(entries)
  {
    if entries != [] {
      WithinIsLighter(entries[..|entries| - 1], s);
      var last := entries[|entries| - 1];
      TokensConcat(Within(entries[..|entries| - 1], s), if s < last.at <= s + WINDOW then [last] else []);
    }
  }

  ghost predicate EvictedStaleAt(g: Gate, started: real)
    requires g.Valid()
  {
    forall i :: 0 <= i < g.evicted ==> g.history[i].at <= started - WINDOW
  }

  /** One more admission, for a single minute. */
  lemma BoundAt(g: Gate, c: Config, call: Call, s: real)
    requires g.Valid() && |Within(g.history, s)| <= c.rpm && Tokens(Within(g.history, s)) <= c.tpm
    requires EvictedStaleAt(g, call.started) && Fits(g, c, call.tokens)
    ensures var after := g.history + [Entry(call.started, call.tokens)];
      |Within(after, s)| <= c.rpm && Tokens(Within(after, s)) <= c.tpm
  {
    hide Offer, Offers, Evicted, Stale;
    var entry := Entry(call.started, call.tokens);
    var after := g.history + [entry];
    assert after[..|after| - 1] == g.history;
    if s < entry.at <= s + WINDOW {
      var stale, recent := g.history[..g.evicted], g.Window();
      assert g.history == stale + recent;
      WithinSkipsTheOld(stale, recent, s);
      WithinIsLighter(recent, s);
      TokensConcat(Within(g.history, s), [entry]);
      assert Within(after, s) == Within(g.history, s) + [entry];
    } else {
      assert Within(after, s) == Within(g.history, s);
    }
  }

  /** The guard of `reserve` keeps the bound as long as nothing younger than a minute was evicted. */
  lemma OfferKeepsBound(g: Gate, c: Config, call: Call)
    requires g.Valid() && Bounded(g.history, c)
    requires EvictedStaleAt(Evicted(g, call.started), call.started)
    ensures Bounded(Offer(g, c, call).history, c)
  {
    hide Within, Tokens, Stale;
    var pruned, after := Evicted(g, call.started), Offer(g, c, call);
    if after.history != g.history {
      forall s ensures |Within(after.history, s)| <= c.rpm && Tokens(Within(after.history, s)) <= c.tpm {
        BoundAt(pruned, c, call, s);
      }
    }
  }

  lemma EvictedAreStale(g: Gate, started: real)
    requires g.Valid() && EvictedStaleAt(g, started)
    ensures EvictedStaleAt(Evicted(g, started), started)
  {
    var window := g.Window();
    assert forall i :: g.evicted <= i < |g.history| ==> g.history[i] == window[i - g.evicted];
  }

  predicate NonDecreasing(calls: seq<Call>) {
    forall i, j :: 0 <= i < j < |calls| ==> calls[i].started <= calls[j].started
  }

  /**
   Every-window rate bound: whatever calls are made, if their start times never run back, no interval of 60 seconds,
   wherever it begins, holds more than the configured requests or tokens.
   */
  lemma {:induction false} EveryWindowIsBounded(c: Config, calls: seq<Call>)
    requires NonDecreasing(calls)
    ensures Bounded(Offers(c, calls).history, c)
    ensures calls != [] ==> EvictedStaleAt(Offers(c, calls), calls[|calls| - 1].started)
  {
    if calls == [] {
      forall s ensures |Within([], s)| <= c.rpm && Tokens(Within([], s)) <= c.tpm { }
    } else {
      var earlier := calls[..|calls| - 1];
      EveryWindowIsBounded(c, earlier);
      var g, call := Offers(c, earlier), calls[|calls| - 1];
      if earlier == [] {
        assert g == OPEN;
      } else {
        assert earlier[|earlier| - 1] == calls[|calls| - 2];
        assert calls[|calls| - 2].started <= call.started;
        assert EvictedStaleAt(g, calls[|calls| - 2].started);
      }
      EvictedAreStale(g, call.started);
      OfferKeepsBound(g, c, call);
    }
  }

  /**
   The order of the start times is needed, and for every single inversion: `reserve` reads its clock before it takes
   the lock, so a call that started earlier can be served later, and then the entries that a newer call evicted are
   missing. Two requests per minute allowed, three admitted within one.
   */
  lemma AnyInversionBreaksTheBound(late: real, early: real)
    requires early < late
    ensures var base := if late - WINDOW < early then late - WINDOW else early;
      var c := Config(64, 2, 1000);
      var calls := [Call(base, 1, false), Call(base, 1, false), Call(late, 1, false), Call(early, 1, false)];
      !Bounded(Offers(c, calls).history, c)
  {
    var base := if late - WINDOW < early then late - WINDOW else early;
    var c := Config(64, 2, 1000);
    var first, newer, older := Call(base, 1, false), Call(late, 1, false), Call(early, 1, false);
    var e0, e2, e3 := Entry(base, 1), Entry(late, 1), Entry(early, 1);
    FourAdmitted(c, first, newer, older);
    ThreeWithinOneMinute(e0, e2, e3, early - WINDOW);
  }

  lemma FourAdmitted(c: Config, first: Call, newer: Call, older: Call)
    requires c == Config(64, 2, 1000) && !first.crowded && !newer.crowded && !older.crowded
    requires first.tokens == newer.tokens == older.tokens == 1
    requires first.started <= newer.started - WINDOW && older.started < newer.started
    ensures var e0, e2, e3 := Entry(first.started, 1), Entry(newer.started, 1), Entry(older.started, 1);
      Offers(c, [first, first, newer, older]).history == [e0, e0, e2, e3]
  {
    hide Offers, Offer, Evicted, Fits, OneToken;
    var e0, e2, e3 := Entry(first.started, 1), Entry(newer.started, 1), Entry(older.started, 1);
    ThreeAdmitted(c, first, newer);
    OneMore(c, [first, first, newer], older, Gate([e0, e0, e2], 2), 2);
    assert [first, first, newer] + [older] == [first, first, newer, older];
    assert [e0, e0, e2] + [e3] == [e0, e0, e2, e3];
  }

  lemma ThreeAdmitted(c: Config, first: Call, newer: Call)
    requires c == Config(64, 2, 1000) && !first.crowded && !newer.crowded && first.tokens == newer.tokens == 1
    requires first.started <= newer.started - WINDOW
    ensures var e0, e2 := Entry(first.started, 1), Entry(newer.started, 1);
      Offers(c, [first, first, newer]) == Gate([e0, e0, e2], 2) && OneToken([e0, e0, e2])
  {
    hide Offers, Offer, Evicted, Fits, OneToken;
    var e0, e2 := Entry(first.started, 1), Entry(newer.started, 1);
    TwoAdmitted(c, first);
    OneMore(c, [first, first], newer, Gate([e0, e0], 0), 2);
    assert [first, first] + [newer] == [first, first, newer];
    assert [e0, e0] + [e2] == [e0, e0, e2];
  }

  lemma TwoAdmitted(c: Config, first: Call)
    requires c == Config(64, 2, 1000) && !first.crowded && first.tokens == 1
    ensures var e0 := Entry(first.started, 1);
      Offers(c, [first, first]) == Gate([e0, e0], 0) && OneToken([e0, e0])
  {
    hide Offer, Evicted, Fits;
    var e0 := Entry(first.started, 1);
    OneMore(c, [], first, OPEN, 0);
    assert [] + [first] == [first] && [] + [e0] == [e0];
    hide Offers, OneToken;
    OneMore(c, [first], first, Gate([e0], 0), 0);
    assert [first] + [first] == [first, first] && [e0] + [e0] == [e0, e0];
  }

  ghost predicate OneToken(entries: seq<Entry>) {
    forall i :: 0 <= i < |entries| ==> entries[i].tokens == 1
  }

  /** The gate evicts its entries before `evicted` and no others. */
  ghost predicate EvictsTo(g: Gate, evicted: nat, started: real) {
    && g.evicted <= evicted <= |g.history| <= evicted + 1 && |g.history| <= g.evicted + 2
    && (forall i :: g.evicted <= i < evicted ==> g.history[i].at <= started - WINDOW)
    && (evicted < |g.history| ==> started - WINDOW < g.history[evicted].at)
  }

  lemma OneMore(c: Config, calls: seq<Call>, call: Call, g: Gate, evicted: nat)
    requires Offers(c, calls) == g && !call.crowded && call.tokens == 1 && c.rpm == 2 && c.tpm == 1000
    requires EvictsTo(g, evicted, call.started) && OneToken(g.history)
    ensures Offers(c, calls + [call]) == Gate(g.history + [Entry(call.started, 1)], evicted)
    ensures OneToken(g.history + [Entry(call.started, 1)])
  {
    hide Offers;
    Admitted(c, calls, call);
    OneIsAdmitted(g, c, call, evicted);
  }

  lemma OneIsAdmitted(g: Gate, c: Config, call: Call, evicted: nat)
    requires !call.crowded && call.tokens == 1 && c.rpm == 2 && c.tpm == 1000
    requires EvictsTo(g, evicted, call.started) && OneToken(g.history)
    ensures g.Valid() && Offer(g, c, call) == Gate(g.history + [Entry(call.started, 1)], evicted)
  {
    var n := Stale(g.Window(), call.started);
    var window := g.Window();
    assert forall i :: 0 <= i < |window| ==> window[i] == g.history[g.evicted + i];
    assert n == evicted - g.evicted;
    var rest := Evicted(g, call.started).Window();
    assert Tokens(rest) <= 1 by { if rest != [] { assert rest[..|rest| - 1] == []; } }
  }

  lemma ThreeWithinOneMinute(e: Entry, other: Entry, last: Entry, s: real)
    requires s < e.at <= s + WINDOW && s < last.at <= s + WINDOW
    ensures |Within([e, e, other, last], s)| >= 3
  {
    assert [e][..0] == [] && [e, e][..1] == [e] && [e, e, other][..2] == [e, e];
    assert [e, e, other, last][..3] == [e, e, other];
    assert |Within([e], s)| == 1 && |Within([e, e], s)| == 2;
    assert |Within([e, e, other], s)| >= 2;
  }

  lemma Admitted(c: Config, calls: seq<Call>, call: Call)
    ensures Offers(c, calls + [call]) == Offer(Offers(c, calls), c, call)
  {
    assert (calls + [call])[..|calls|] == calls;
  }
}
