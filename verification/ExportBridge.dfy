/**
 `ExportBridge.reserve`: one lock-protected block admits a request, another one releases it. The object keeps one
 sliding window and one counter per model, the global counters, and at most 513 rows of per-peer activity.
 */
module ExportBridge {
  import opened Wrappers
  import opened SlidingWindow

  const MAX_ROWS := 512

  datatype Model = Model(id: string)

  datatype Peer = Peer(endpoint: string)

  datatype Label = Label(peer: Option<Peer>, model: Model)

  const OTHER := Label(None, Model("other"))

  datatype Activity = Activity(requests: nat, errors: nat, active: nat)

  datatype Reservation = Reservation(model: Model, key: Label)

  datatype Refusal = RateLimited

  /** A call of `reserve` for a model, with the configuration it was made under. */
  datatype Attempt = Attempt(config: Config, call: Call)

  function OfModel(open: seq<Reservation>, model: Model): nat {
    if open == [] then 0
    else OfModel(open[..|open| - 1], model) + if open[|open| - 1].model == model then 1 else 0
  }

  function OfRow(open: seq<Reservation>, key: Label): nat {
    if open == [] then 0
    else OfRow(open[..|open| - 1], key) + if open[|open| - 1].key == key then 1 else 0
  }

  function Count(active: map<Model, nat>, model: Model): nat {
    if model in active then active[model] else 0
  }

  function GateAt(gates: map<Model, Gate>, model: Model): Gate {
    if model in gates then gates[model] else OPEN
  }

  /** Each deque is the recent end of its model's history. */
  ghost predicate Recorded(windows: map<Model, seq<Entry>>, gates: map<Model, Gate>) {
    && windows.Keys == gates.Keys
    && forall m :: m in windows ==> gates[m].Valid() && windows[m] == gates[m].Window()
  }

  // ---------- the windows, over all calls ----------

  /** What a sequence of calls leaves of a gate that was open. */
  ghost function Played(attempts: seq<Attempt>): (g: Gate)
    ensures g.Valid()
  {
    if attempts == [] then OPEN
    else var last := attempts[|attempts| - 1]; Offer(Played(attempts[..|attempts| - 1]), last.config, last.call)
  }

  function CallsOf(attempts: seq<Attempt>): (calls: seq<Call>)
    ensures |calls| == |attempts| && forall i :: 0 <= i < |calls| ==> calls[i] == attempts[i].call
  {
    seq(|attempts|, i requires 0 <= i < |attempts| => attempts[i].call)
  }

  function AttemptsAt(attempts: map<Model, seq<Attempt>>, model: Model): seq<Attempt> {
    if model in attempts then attempts[model] else []
  }

  /** Every gate is the outcome of all calls made so far, refusals included. */
  ghost predicate Replays(gates: map<Model, Gate>, attempts: map<Model, seq<Attempt>>) {
    forall m :: GateAt(gates, m) == Played(AttemptsAt(attempts, m))
  }

  /** What `reserve` does to the gates is one more call. */
  lemma OneMoreAttempt(gates: map<Model, Gate>, attempts: map<Model, seq<Attempt>>, m: Model, config: Config, call: Call)
    requires Replays(gates, attempts)
    ensures GateAt(gates, m).Valid()
    ensures Replays(gates[m := Offer(GateAt(gates, m), config, call)],
                    attempts[m := AttemptsAt(attempts, m) + [Attempt(config, call)]])
  {
    hide Offer;
    var before := AttemptsAt(attempts, m);
    var after := before + [Attempt(config, call)];
    assert after[..|after| - 1] == before;
    var gates', attempts' := gates[m := Offer(GateAt(gates, m), config, call)], attempts[m := after];
    assert GateAt(gates, m) == Played(before);
    forall k ensures GateAt(gates', k) == Played(AttemptsAt(attempts', k)) {
      assert GateAt(gates, k) == Played(AttemptsAt(attempts, k));
    }
  }

  ghost predicate AllUnder(attempts: seq<Attempt>, config: Config) {
    forall i :: 0 <= i < |attempts| ==> attempts[i].config == config
  }

  lemma {:induction false} PlayedUnderOne(attempts: seq<Attempt>, config: Config)
    requires AllUnder(attempts, config)
    ensures Played(attempts) == Offers(config, CallsOf(attempts))
  {
    if attempts != [] {
      hide Offer;
      var front := attempts[..|attempts| - 1];
      PlayedUnderOne(front, config);
      assert CallsOf(attempts)[..|attempts| - 1] == CallsOf(front);
    }
  }

  /** The per-model and per-row counters count open reservations. */
  ghost predicate Counted(active: map<Model, nat>, rows: map<Label, Activity>, open: seq<Reservation>) {
    && (forall m :: Count(active, m) == OfModel(open, m))
    && (forall k :: OfRow(open, k) == if k in rows then rows[k].active else 0)
  }

  ghost predicate AllWithin(active: map<Model, nat>, limits: map<Model, Config>) {
    forall m :: m in limits ==> Count(active, m) <= limits[m].maxConcurrent
  }

  // ---------- what a caller sees ----------

  function WindowAt(windows: map<Model, seq<Entry>>, model: Model): seq<Entry> {
    if model in windows then windows[model] else []
  }

  /** The first `n` entries of a window, and no more at its head, are at least a minute old. */
  predicate Outdated(window: seq<Entry>, started: real, n: nat) {
    && n <= |window|
    && (forall i :: 0 <= i < n ==> window[i].at + 60.0 <= started)
    && (n < |window| ==> started < window[n].at + 60.0)
  }

  /** What remains of the window has room for one more request with so many tokens. */
  predicate HasRoom(rest: seq<Entry>, config: Config, tokens: nat) {
    |rest| < config.rpm && Tokens(rest) + tokens <= config.tpm
  }

  /** The tokens of a window are those of its entries, added up. */
  lemma TokensAddUp(a: seq<Entry>, b: seq<Entry>, e: Entry)
    ensures Tokens([]) == 0 && Tokens([e]) == e.tokens && Tokens(a + b) == Tokens(a) + Tokens(b)
  {
    TokensConcat(a, b);
    assert [e][..0] == [];
  }

  /** The row of a peer and a model, or the common one when the table is full. */
  function RowFor(rows: map<Label, Activity>, peer: Option<Peer>, model: Model): Label {
    if Label(peer, model) in rows || |rows| < 512 then Label(peer, model) else Label(None, Model("other"))
  }

  /** One more request, under way. */
  function Busier(row: Option<Activity>): Activity {
    if row.Some? then Activity(row.value.requests + 1, row.value.errors, row.value.active + 1) else Activity(1, 0, 1)
  }

  function RowAt(rows: map<Label, Activity>, key: Label): Option<Activity> {
    if key in rows then Some(rows[key]) else None
  }

  /** The number of leading entries that go is the number of those that are outdated. */
  lemma StaleIsSeen(window: seq<Entry>, started: real, n: nat)
    ensures Outdated(window, started, n) <==> n == Stale(window, started)
  {
    var k := Stale(window, started);
    assert k < |window| ==> started - WINDOW < window[k].at;
    assert Outdated(window, started, n) && n < |window| ==> started < window[n].at + 60.0;
  }

  class ExportBridge {
    var windows: map<Model, seq<Entry>>
    var active: map<Model, nat>
    var requests: nat
    var errors: nat
    var activeTotal: nat
    var rows: map<Label, Activity>
    ghost var gates: map<Model, Gate>
    ghost var attempts: map<Model, seq<Attempt>>
    ghost var open: seq<Reservation>

    function Active(model: Model): nat
      reads this
    {
      Count(active, model)
    }

    ghost function GateOf(model: Model): Gate
      reads this
    {
      GateAt(gates, model)
    }

    ghost predicate Valid()
      reads this
    {
      && Recorded(windows, gates)
      && Replays(gates, attempts)
      && Counted(active, rows, open)
      && activeTotal == |open|
      && |rows| <= MAX_ROWS + 1
      && (|rows| == MAX_ROWS + 1 ==> OTHER in rows)
    }

    ghost predicate WithinLimits(limits: map<Model, Config>)
      reads this
    {
      AllWithin(active, limits)
    }

    constructor ()
      ensures Valid() && open == [] && gates == map[] && attempts == map[]
    {
      windows, active, rows, gates, attempts, open := map[], map[], map[], map[], map[], [];
      requests, errors, activeTotal := 0, 0, 0;
    }

    /**
     The rate bound, of every bridge in every state it can be in: if a model was always called under one configuration
     and with clock readings that never ran back, no interval of 60 seconds holds more of its admissions, or of their
     tokens, than configured.
     */
    lemma RateHolds(model: Model, config: Config)
      requires Valid() && AllUnder(AttemptsAt(attempts, model), config)
      requires NonDecreasing(CallsOf(AttemptsAt(attempts, model)))
      ensures Bounded(GateOf(model).history, config)
    {
      hide Recorded, Counted;
      PlayedUnderOne(AttemptsAt(attempts, model), config);
      EveryWindowIsBounded(config, CallsOf(AttemptsAt(attempts, model)));
    }

    /** The overall count of active requests is the sum of the per-model counts. */
    lemma ActiveIsTheSumOverModels()
      requires Valid()
      ensures activeTotal == Total(active)
    {
      CountedTotal(active, rows, open);
    }

    /** The eviction loop of `reserve`. */
    method Prune(window: seq<Entry>, started: real) returns (kept: seq<Entry>)
      ensures kept == window[Stale(window, started)..]
    {
      kept := window;
      ghost var dropped := 0;
      while kept != [] && kept[0].at <= started - WINDOW
        invariant 0 <= dropped <= |window| && kept == window[dropped..]
        invariant dropped + Stale(kept, started) == Stale(window, started)
        decreases |kept|
      {
        kept, dropped := kept[1..], dropped + 1;
      }
    }

    method Consider(window: seq<Entry>, config: Config, tokens: nat, started: real, crowded: bool, ghost gate: Gate)
      returns (admitted: bool, after: seq<Entry>, ghost gate': Gate)
      requires gate.Valid() && window == gate.Window()
      ensures gate' == Offer(gate, config, Call(started, tokens, crowded)) && after == gate'.Window()
      ensures admitted <==> !crowded && Fits(Evicted(gate, started), config, tokens)
      ensures forall n: nat :: Outdated(window, started, n) ==>
        && (admitted <==> !crowded && HasRoom(window[n..], config, tokens))
        && after == window[n..] + if admitted then [Entry(started, tokens)] else []
    {
      hide Stale, Tokens, Outdated;
      forall n: nat ensures Outdated(window, started, n) <==> n == Stale(window, started) {
        StaleIsSeen(window, started, n);
      }
      after := Prune(window, started);
      gate' := Evicted(gate, started);
      assert after == gate'.Window();
      admitted := !crowded && |after| < config.rpm && Tokens(after) + tokens <= config.tpm;
      if admitted {
        var entry := Entry(started, tokens);
        assert (gate'.history + [entry])[gate'.evicted..] == after + [entry];
        after, gate' := after + [entry], gate'.(history := gate'.history + [entry]);
      }
    }

    /** The window of one model: evict, and append the request if there is room. */
    method Slide(model: Model, config: Config, tokens: nat, started: real) returns (admitted: bool)
      requires Recorded(windows, gates)
      modifies `windows, `gates
      ensures Recorded(windows, gates)
      ensures gates == old(gates)[model :=
          Offer(old(GateOf(model)), config, Call(started, tokens, Active(model) >= config.maxConcurrent))]
      ensures admitted <==> Active(model) < config.maxConcurrent
                            && Fits(Evicted(old(GateOf(model)), started), config, tokens)
      ensures forall n: nat :: Outdated(WindowAt(old(windows), model), started, n) ==>
        var rest := WindowAt(old(windows), model)[n..];
        && (admitted <==> Active(model) < config.maxConcurrent && HasRoom(rest, config, tokens))
        && windows == old(windows)[model := rest + if admitted then [Entry(started, tokens)] else []]
    {
      hide Offer, Evicted, Fits, Outdated, HasRoom;
      var window;
      ghost var gate;
      admitted, window, gate := Consider(if model in windows then windows[model] else [], config, tokens, started,
                                         Active(model) >= config.maxConcurrent, GateOf(model));
      windows, gates := windows[model := window], gates[model := gate];
    }

    /**
     Admission of one request. `limits` are the configured limits of every model: a caller that always passes the
     configured ones never has more requests of a model in flight than that model allows.
     */
    method Reserve(model: Model, config: Config, tokens: nat, peer: Option<Peer>, started: real,
                   ghost limits: map<Model, Config>)
      returns (r: Result<Reservation, Refusal>)
      requires Valid() && model in limits && limits[model] == config
      modifies `windows, `gates, `attempts, `active, `requests, `activeTotal, `rows, `open
      ensures Valid()
      ensures attempts == old(attempts)[model := AttemptsAt(old(attempts), model)
          + [Attempt(config, Call(started, tokens, old(Active(model)) >= config.maxConcurrent))]]
      ensures gates == old(gates)[model :=
          Offer(old(GateOf(model)), config, Call(started, tokens, old(Active(model)) >= config.maxConcurrent))]
      ensures r.Ok? <==> old(Active(model)) < config.maxConcurrent
                         && Fits(Evicted(old(GateOf(model)), started), config, tokens)
      ensures forall n: nat :: Outdated(WindowAt(old(windows), model), started, n) ==>
        var rest := WindowAt(old(windows), model)[n..];
        && (r.Ok? <==> Count(old(active), model) < config.maxConcurrent && HasRoom(rest, config, tokens))
        && windows == old(windows)[model := rest + if r.Ok? then [Entry(started, tokens)] else []]
      ensures r.Ok? ==> r.value == Reservation(model, RowFor(old(rows), peer, model))
                        && rows == old(rows)[r.value.key := Busier(RowAt(old(rows), r.value.key))]
      ensures r.Err? ==> unchanged(`active, `requests, `activeTotal, `rows, `open)
      ensures r.Ok? ==> open == old(open) + [r.value] && r.value.model == model
      ensures r.Ok? ==> r.value.key == if Label(peer, model) in old(rows) || |old(rows)| < MAX_ROWS
                                       then Label(peer, model) else OTHER
      ensures r.Ok? ==> active == old(active)[model := old(Active(model)) + 1]
      ensures r.Ok? ==> activeTotal == old(activeTotal) + 1 && requests == old(requests) + 1
      ensures old(WithinLimits(limits)) ==> WithinLimits(limits)
    {
      hide Recorded, Counted, Replays, OfModel, OfRow, Offer, Evicted, Outdated, HasRoom, Busier;
      ghost var call := Call(started, tokens, Active(model) >= config.maxConcurrent);
      OneMoreAttempt(gates, attempts, model, config, call);
      var admitted := Slide(model, config, tokens, started);
      attempts := attempts[model := AttemptsAt(attempts, model) + [Attempt(config, call)]];
      if !admitted {
        return Err(RateLimited);
      }
      var key := Label(peer, model);
      if key !in rows && |rows| >= MAX_ROWS {
        key := OTHER;
      }
      Take(model, key);
      r := Ok(Reservation(model, key));
    }

    /** The counters of one admitted request. */
    method Take(model: Model, key: Label)
      requires Valid() && (key in rows || |rows| < MAX_ROWS || (key == OTHER && |rows| <= MAX_ROWS))
      modifies `active, `requests, `activeTotal, `rows, `open
      ensures Valid() && open == old(open) + [Reservation(model, key)]
      ensures active == old(active)[model := old(Active(model)) + 1]
      ensures requests == old(requests) + 1 && activeTotal == old(activeTotal) + 1
      ensures rows == old(rows)[key := Busier(RowAt(old(rows), key))]
    {
      hide Recorded, Replays, OfModel, OfRow, Counted;
      var row := if key in rows then rows[key] else Activity(0, 0, 0);
      Opening(active, rows, open, Reservation(model, key));
      active := active[model := Active(model) + 1];
      requests, activeTotal := requests + 1, activeTotal + 1;
      rows := rows[key := row.(requests := row.requests + 1, active := row.active + 1)];
      open := open + [Reservation(model, key)];
    }

    method Release(reservation: Reservation, failed: bool, ghost limits: map<Model, Config>)
      requires Valid() && reservation in open
      modifies `active, `activeTotal, `errors, `rows, `open
      ensures Valid()
      ensures multiset(open) == multiset(old(open)) - multiset{reservation}
      ensures errors == old(errors) + if failed then 1 else 0
      ensures old(Active(reservation.model)) > 0
      ensures active == old(active)[reservation.model := old(Active(reservation.model)) - 1]
      ensures activeTotal == old(activeTotal) - 1
      ensures reservation.key in old(rows) && old(rows)[reservation.key].active > 0
      ensures var row := old(rows)[reservation.key];
        rows == old(rows)[reservation.key :=
          Activity(row.requests, row.errors + if failed then 1 else 0, row.active - 1)]
      ensures old(WithinLimits(limits)) ==> WithinLimits(limits)
    {
      hide Counted, Recorded, OfModel, OfRow, AllWithin, Without;
      var model, key := reservation.model, reservation.key;
      LoweringKeepsLimits(active, limits, model);
      ghost var i :| 0 <= i < |open| && open[i] == reservation;
      Closing(active, rows, open, i, if failed then 1 else 0);
      var row := rows[key];
      if failed {
        errors := errors + 1;
      }
      active := active[model := Active(model) - 1];
      activeTotal := activeTotal - 1;
      rows := rows[key := row.(errors := row.errors + if failed then 1 else 0, active := row.active - 1)];
      open := Without(open, i);
    }
  }

  // ---------- reservations are counted ----------

  lemma RowAdded(rows: map<Label, Activity>, key: Label, row: Activity)
    ensures |rows[key := row]| == |rows| + if key in rows then 0 else 1
  {
    assert rows[key := row].Keys == rows.Keys + {key};
    if key in rows { assert rows[key := row].Keys == rows.Keys; }
  }

  lemma Opening(active: map<Model, nat>, rows: map<Label, Activity>, open: seq<Reservation>, r: Reservation)
    requires Counted(active, rows, open)
    ensures var row := if r.key in rows then rows[r.key] else Activity(0, 0, 0);
      var rows' := rows[r.key := row.(requests := row.requests + 1, active := row.active + 1)];
      && Counted(active[r.model := Count(active, r.model) + 1], rows', open + [r])
      && |rows'| == |rows| + if r.key in rows then 0 else 1
  {
    var after := open + [r];
    assert after[..|after| - 1] == open && after[|after| - 1] == r;
    forall m ensures OfModel(after, m) == OfModel(open, m) + if m == r.model then 1 else 0 { }
    forall k ensures OfRow(after, k) == OfRow(open, k) + if k == r.key then 1 else 0 { }
    var row := if r.key in rows then rows[r.key] else Activity(0, 0, 0);
    RowAdded(rows, r.key, row.(requests := row.requests + 1, active := row.active + 1));
  }

  function Without(open: seq<Reservation>, i: nat): seq<Reservation>
    requires i < |open|
  {
    open[..i] + open[i + 1..]
  }

  lemma {:induction false} Removed(open: seq<Reservation>, i: nat, m: Model, k: Label)
    requires i < |open|
    ensures OfModel(Without(open, i), m) == OfModel(open, m) - if open[i].model == m then 1 else 0
    ensures OfRow(Without(open, i), k) == OfRow(open, k) - if open[i].key == k then 1 else 0
  {
    var last := |open| - 1;
    if i == last {
      assert Without(open, i) == open[..last];
    } else {
      var rest := Without(open, i);
      assert rest[..|rest| - 1] == Without(open[..last], i);
      Removed(open[..last], i, m, k);
    }
  }

  lemma LoweringKeepsLimits(active: map<Model, nat>, limits: map<Model, Config>, model: Model)
    ensures Count(active, model) > 0 && AllWithin(active, limits) ==>
      AllWithin(active[model := Count(active, model) - 1], limits)
  {
    if Count(active, model) > 0 && AllWithin(active, limits) {
      forall m | m in limits ensures Count(active[model := Count(active, model) - 1], m) <= limits[m].maxConcurrent {
        assert Count(active, m) <= limits[m].maxConcurrent;
      }
    }
  }

  lemma Closing(active: map<Model, nat>, rows: map<Label, Activity>, open: seq<Reservation>, i: nat, failed: nat)
    requires Counted(active, rows, open) && i < |open|
    ensures Count(active, open[i].model) > 0 && open[i].key in rows && rows[open[i].key].active > 0
    ensures var r, rest := open[i], Without(open, i);
      var row := rows[r.key];
      var rows' := rows[r.key := row.(errors := row.errors + failed, active := row.active - 1)];
      && Counted(active[r.model := Count(active, r.model) - 1], rows', rest)
      && |rows'| == |rows|
      && |rest| == |open| - 1
      && multiset(rest) == multiset(open) - multiset{r}
  {
    var r, rest := open[i], Without(open, i);
    Removed(open, i, r.model, r.key);
    var row := rows[r.key];
    var left := row.(errors := row.errors + failed, active := row.active - 1);
    var active', rows' := active[r.model := Count(active, r.model) - 1], rows[r.key := left];
    RowAdded(rows, r.key, left);
    forall m ensures Count(active', m) == OfModel(rest, m) { Removed(open, i, m, r.key); }
    forall k ensures OfRow(rest, k) == if k in rows' then rows'[k].active else 0 { Removed(open, i, r.model, k); }
    assert open == open[..i] + [r] + open[i + 1..];
  }

  // ---------- the totals ----------

  /** The sum of the per-model counts. */
  ghost function Total(active: map<Model, nat>): nat {
    if active == map[] then 0
    else var m :| m in active; active[m] + Total(active - {m})
  }

  function SumOver(models: set<Model>, open: seq<Reservation>): nat {
    if open == [] then 0
    else SumOver(models, open[..|open| - 1]) + if open[|open| - 1].model in models then 1 else 0
  }

  /** Adding up per-model counts, one model after the other, counts the reservations of those models. */
  lemma {:induction false} SumSplits(models: set<Model>, m: Model, open: seq<Reservation>)
    requires m !in models
    ensures SumOver(models + {m}, open) == SumOver(models, open) + OfModel(open, m)
  {
    if open != [] { SumSplits(models, m, open[..|open| - 1]); }
  }

  lemma {:induction false} SumOverAll(models: set<Model>, open: seq<Reservation>)
    requires forall r :: r in open ==> r.model in models
    ensures SumOver(models, open) == |open|
  {
    if open != [] {
      assert open[|open| - 1] in open;
      SumOverAll(models, open[..|open| - 1]);
    }
  }

  lemma {:induction false} SumOverNone(open: seq<Reservation>)
    ensures SumOver({}, open) == 0
  {
    if open != [] { SumOverNone(open[..|open| - 1]); }
  }

  lemma {:induction false} TotalIsSum(active: map<Model, nat>, open: seq<Reservation>)
    requires forall m :: m in active ==> active[m] == OfModel(open, m)
    ensures Total(active) == SumOver(active.Keys, open)
  {
    if active == map[] {
      assert active.Keys == {};
      SumOverNone(open);
    } else {
      var m :| m in active && Total(active) == active[m] + Total(active - {m});
      TotalIsSum(active - {m}, open);
      SumSplits((active - {m}).Keys, m, open);
      assert (active - {m}).Keys + {m} == active.Keys;
    }
  }

  lemma {:induction false} OpenIsOfItsModel(open: seq<Reservation>, i: nat)
    requires i < |open|
    ensures OfModel(open, open[i].model) > 0
  {
    if i < |open| - 1 { OpenIsOfItsModel(open[..|open| - 1], i); }
  }

  /** Every open reservation is of exactly one model, and every model with one has a count. */
  lemma CountedTotal(active: map<Model, nat>, rows: map<Label, Activity>, open: seq<Reservation>)
    requires Counted(active, rows, open)
    ensures Total(active) == |open|
  {
    forall m | m in active ensures active[m] == OfModel(open, m) {
      assert Count(active, m) == OfModel(open, m);
    }
    TotalIsSum(active, open);
    forall r | r in open ensures r.model in active.Keys {
      var i :| 0 <= i < |open| && open[i] == r;
      OpenIsOfItsModel(open, i);
      assert Count(active, r.model) == OfModel(open, r.model);
    }
    SumOverAll(active.Keys, open);
  }
}
