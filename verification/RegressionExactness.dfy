/**
 No condition on orderly runs can be spared: from every safe state, a disorderly action opens a way, by orderly
 actions alone, to a state with two runs in the lab or with a run in the lab whose account is gone.
 */
module RegressionExactness {
  import opened Wrappers
  import opened RegressionProtocol
  import opened RegressionSafety

  ghost predicate OrderlyFrom(w: World, trace: seq<Action>) {
    trace != [] ==>
      && OrderlyFrom(w, trace[..|trace| - 1])
      && Enabled(Run(w, trace[..|trace| - 1]), trace[|trace| - 1])
      && Orderly(Run(w, trace[..|trace| - 1]), trace[|trace| - 1])
  }

  /** The state can be followed by that one if everybody is orderly. */
  ghost predicate Leads(w: World, u: World) {
    exists trace :: OrderlyFrom(w, trace) && Run(w, trace) == u
  }

  lemma LeadsToItself(w: World)
    ensures Leads(w, w)
  {
    assert OrderlyFrom(w, []) && Run(w, []) == w;
  }

  lemma LeadsOn(w: World, u: World, a: Action)
    requires Leads(w, u) && Enabled(u, a) && Orderly(u, a)
    ensures Leads(w, Apply(u, a))
  {
    hide Enabled, Orderly, Apply;
    var trace :| OrderlyFrom(w, trace) && Run(w, trace) == u;
    assert (trace + [a])[..|trace|] == trace;
    assert OrderlyFrom(w, trace + [a]) && Run(w, trace + [a]) == Apply(u, a);
  }

  // ---------- orderly actions keep the promise ----------

  lemma {:induction false} OrderlyStaysSafe(w: World, trace: seq<Action>)
    requires Safe(w) && OrderlyFrom(w, trace)
    ensures Safe(Run(w, trace))
  {
    if trace != [] {
      OrderlyStaysSafe(w, trace[..|trace| - 1]);
      StepIsSafe(Run(w, trace[..|trace| - 1]), trace[|trace| - 1]);
    }
  }

  // ---------- ways ----------

  /** Accounts belong to runs that are not younger. */
  predicate Borrowing(w: World) {
    forall j: nat :: j < |w.runs| ==> w.runs[j].spec.account <= j
  }

  /** Without Pods and Job, and reported as failed. */
  function Over(s: Slot): Slot {
    s.(pods := false, job := None, phase := Failed)
  }

  function Ended(w: World, i: nat): World
    requires i < |w.runs|
  {
    World(w.runs[i := Over(w.runs[i])], w.accounts, w.listed - {i}, None, w.doing)
  }

  /** The Pods of any run can end, and then its Job can go. */
  lemma Vacate(w: World, u: World, i: nat)
    requires Leads(w, u) && i < |u.runs|
    ensures Leads(w, u.(runs := u.runs[i := u.runs[i].(pods := false, job := None)]))
  {
    hide Leads, Closed, Reopens;
    var s := u.runs[i];
    var v := u.(runs := u.runs[i := s.(pods := false)]);
    LeadsOn(w, u, PodEnds(i));
    assert Apply(u, PodEnds(i)) == v;
    LeadsOn(w, v, JobVanishes(i));
    assert v.runs[i := s.(pods := false, job := None)] == u.runs[i := s.(pods := false, job := None)];
  }

  /** So any run can be brought to its end. */
  lemma EndRun(w: World, u: World, i: nat)
    requires Leads(w, u) && i < |u.runs|
    ensures Leads(w, Ended(u, i))
  {
    hide Leads, Closed, Reopens;
    Vacate(w, u, i);
    var v := u.(runs := u.runs[i := u.runs[i].(pods := false, job := None)]);
    LeadsOn(w, v, Report(i, Failed, None, None));
    assert v.runs[i := Over(u.runs[i])] == Ended(u, i).runs;
    assert Apply(v, Report(i, Failed, None, None)) == Ended(u, i);
  }

  /** All runs before the `n`-th but the given one are over, and everything else is as before. */
  ghost predicate OthersEnded(u: World, v: World, n: nat, but: nat) {
    && |v.runs| == |u.runs| && v.accounts == u.accounts && v.doing == u.doing
    && (forall i: nat :: i < |u.runs| ==> v.runs[i] == if i < n && i != but then Over(u.runs[i]) else u.runs[i])
    && (forall i: nat :: i >= n || i == but ==> (i in v.listed <==> i in u.listed))
  }

  lemma {:induction false} EndRuns(w: World, u: World, n: nat, but: nat) returns (v: World)
    requires Leads(w, u) && n <= |u.runs|
    ensures Leads(w, v) && OthersEnded(u, v, n, but)
  {
    hide Leads;
    if n == 0 {
      v := u;
    } else {
      v := EndRuns(w, u, n - 1, but);
      if n - 1 != but {
        EndRun(w, v, n - 1);
        v := Ended(v, n - 1);
      }
    }
  }

  /** A run that is ready, unused and on the operator's list starts, with everything before it over. */
  lemma StartListed(w: World, u: World, j: nat) returns (v: World)
    requires Leads(w, u) && j < |u.runs| && j in u.listed && EarlierSettled(u, j)
    requires var s := u.runs[j]; s.spec.valid && s.ready && !s.used && !s.pods
    ensures Leads(w, v) && |v.runs| == |u.runs| && v.accounts == u.accounts
    ensures Unfinished(v.runs[j]) && v.runs[j].phase == u.runs[j].phase && v.runs[j].spec == u.runs[j].spec
    ensures forall k: nat :: k < |u.runs| && k != j ==> v.runs[k] == u.runs[k]
  {
    hide Leads;
    LeadsOn(w, u, JobVanishes(j));
    var v1 := Apply(u, JobVanishes(j));
    assert v1.runs[j] == u.runs[j].(job := None);
    LeadsOn(w, v1, MarkUsed(j));
    v := RequestJob(w, Apply(v1, MarkUsed(j)), j);
  }

  /** A run whose use is on record gets its Job. */
  lemma RequestJob(w: World, u: World, j: nat) returns (v: World)
    requires Leads(w, u) && j < |u.runs| && u.armed == Some(j) && EarlierSettled(u, j)
    requires u.runs[j].spec.valid && !u.runs[j].pods
    ensures Leads(w, v) && |v.runs| == |u.runs| && v.accounts == u.accounts
    ensures Unfinished(v.runs[j]) && v.runs[j].phase == u.runs[j].phase && v.runs[j].spec == u.runs[j].spec
    ensures forall k: nat :: k < |u.runs| && k != j ==> v.runs[k] == u.runs[k]
  {
    hide Leads;
    LeadsOn(w, u, JobVanishes(j));
    var v1 := Apply(u, JobVanishes(j));
    assert v1.runs[j] == u.runs[j].(job := None);
    LeadsOn(w, v1, PostJob(j));
    v := Apply(v1, PostJob(j));
  }

  /** An open, ready and unused run that is listed can be started, once everything before it has been ended. */
  lemma StartOpen(w: World, u: World, j: nat) returns (v: World)
    requires Leads(w, u) && j < |u.runs| && !Terminal(u.runs[j].phase)
    requires var s := u.runs[j]; s.spec.valid && s.ready && !s.used && !s.pods
    ensures Leads(w, v) && |v.runs| == |u.runs| && v.accounts == u.accounts
    ensures Unfinished(v.runs[j]) && v.runs[j].spec == u.runs[j].spec
    ensures forall k: nat :: j < k < |u.runs| ==> v.runs[k] == u.runs[k]
  {
    hide Leads;
    v := EndRuns(w, u, j, j);
    LeadsOn(w, v, List);
    v := Apply(v, List);
    assert forall i: nat :: i < j ==> v.runs[i] == Over(u.runs[i]);
    v := StartListed(w, v, j);
  }

  // ---------- two runs in the lab ----------

  ghost predicate TwoLive(w: World) {
    exists i: nat, j: nat :: i < j < |w.runs| && Live(w.runs[i]) && Live(w.runs[j])
  }

  lemma NewIsAlone(u: World, v: World, spec: Spec)
    requires Borrowing(u) && v.runs == u.runs + [Fresh(spec)]
    ensures !AnyCleaned(v, |u.runs|)
  {
    forall k: nat | k < |u.runs| ensures v.runs[k].spec.account <= k {
      assert v.runs[k] == u.runs[k];
    }
  }

  /** A new run, with an account of its own, on the operator's list. */
  lemma NewRun(w: World, u: World) returns (v: World)
    requires Leads(w, u) && Borrowing(u)
    ensures Leads(w, v) && |v.runs| == |u.runs| + 1 && v.runs[..|u.runs|] == u.runs
    ensures v.runs[|u.runs|] == Fresh(Spec(true, false, false, true, |u.runs|)).(ready := true)
    ensures |u.runs| in v.listed
  {
    hide Leads;
    var n := |u.runs|;
    var spec := Spec(true, false, false, true, n);
    LeadsOn(w, u, Submit(spec));
    var v1 := Apply(u, Submit(spec));
    assert v1.runs[..n] == u.runs && v1.runs[n] == Fresh(spec);
    NewIsAlone(u, v1, spec);
    LeadsOn(w, v1, CreateAccount(n));
    var v2 := Apply(v1, CreateAccount(n));
    assert v2.runs == v1.runs by { assert v1.runs[n := v1.runs[n]] == v1.runs; }
    LeadsOn(w, v2, MarkReady(n));
    v := Apply(v2, MarkReady(n));
    LeadsOn(w, v, List);
    v := Apply(v, List);
    assert v.runs[..n] == u.runs;
  }

  /** A run that is in the lab and reported as over lets another one in. */
  lemma LooseRun(w: World, u: World, j: nat) returns (v: World)
    requires Leads(w, u) && Borrowing(u) && j < |u.runs| && Live(u.runs[j]) && Terminal(u.runs[j].phase)
    ensures Leads(w, v) && TwoLive(v)
  {
    hide Leads, TwoLive;
    var v1 := EndRuns(w, u, |u.runs|, j);
    assert forall k: nat :: k < |v1.runs| ==> v1.runs[k].spec == u.runs[k].spec;
    var v2 := NewRun(w, v1);
    var n := |v1.runs|;
    assert forall k: nat :: k < n ==> v2.runs[k] == v2.runs[..n][k] == v1.runs[k];
    assert EarlierSettled(v2, n) by {
      forall i | 0 <= i < n ensures Terminal(v2.runs[i].phase) {
        assert v2.runs[i] == v1.runs[i];
      }
    }
    v := StartListed(w, v2, n);
    TwoAreLive(v, j, n);
  }

  lemma TwoAreLive(w: World, i: nat, j: nat)
    requires i < j < |w.runs| && Live(w.runs[i]) && Live(w.runs[j])
    ensures TwoLive(w)
  {
  }

  // ---------- no condition can be spared ----------

  ghost predicate Betrayed(w: World) {
    exists u :: Leads(w, u) && !Promised(u)
  }

  lemma TwoBetray(w: World, u: World)
    requires Leads(w, u) && TwoLive(u)
    ensures Betrayed(w)
  {
    assert !Promised(u);
  }

  lemma SafeIsBorrowing(w: World)
    requires Safe(w)
    ensures Borrowing(w)
  {
    forall j: nat | j < |w.runs| ensures w.runs[j].spec.account <= j {
      assert FamilyOk(w, j);
    }
  }

  /** A run that is in the lab is said to be over. */
  lemma LooseBetrays(w: World, j: nat)
    requires Borrowing(w) && j < |w.runs| && Live(w.runs[j]) && Terminal(w.runs[j].phase)
    ensures Betrayed(w)
  {
    hide Leads, TwoLive, Betrayed;
    LeadsToItself(w);
    var v := LooseRun(w, w, j);
    TwoBetray(w, v);
  }

  lemma RefusalBetrays(w: World, j: nat)
    requires Safe(w) && j < |w.runs| && Unfinished(w.runs[j])
    ensures Betrayed(Apply(w, Refuse(j)))
  {
    hide Betrayed, Safe;
    SafeIsBorrowing(w);
    LooseBetrays(Apply(w, Refuse(j)), j);
  }

  lemma OrphansBetray(w: World, a: Action, j: nat)
    requires Safe(w) && j < |w.runs| && w.runs[j].pods
    requires a.JobVanishes? || a.JobFinishes?
    requires a.run == j && Enabled(w, a)
    ensures Betrayed(Apply(w, a))
  {
    hide Betrayed, Safe, Leads;
    var u := Apply(w, a);
    SafeIsBorrowing(w);
    LeadsToItself(u);
    var report := Report(j, Failed, None, None);
    LeadsOn(u, u, report);
    var v := LooseRun(u, Apply(u, report), j);
    TwoBetray(u, v);
  }

  ghost predicate SameSpecs(u: World, v: World) {
    |u.runs| == |v.runs| && forall k: nat :: k < |u.runs| ==> v.runs[k].spec == u.runs[k].spec
  }

  lemma SpecsBorrow(u: World, v: World)
    requires Borrowing(u) && SameSpecs(u, v)
    ensures Borrowing(v)
  {
  }

  /** A run that is given up while the operator can still start it is in the lab although it is said to be over. */
  lemma PoisedBetrays(u: World, j: nat)
    requires Borrowing(u) && j < |u.runs| && Terminal(u.runs[j].phase) && !u.runs[j].pods
    requires u.runs[j].spec.valid && u.runs[j].ready
    requires if u.runs[j].used then u.armed == Some(j) && EarlierSettled(u, j) else j in u.listed
    ensures Betrayed(u)
  {
    hide Betrayed, Leads, TwoLive;
    LeadsToItself(u);
    var v;
    if u.runs[j].used {
      v := RequestJob(u, u, j);
    } else {
      var v1 := EndRuns(u, u, j, j);
      v := StartListed(u, v1, j);
      assert forall k: nat :: k < |u.runs| ==> v1.runs[k].spec == u.runs[k].spec;
    }
    SpecsBorrow(u, v);
    v := LooseRun(u, v, j);
    TwoBetray(u, v);
  }

  lemma GivingUpBetrays(w: World, j: nat)
    requires Safe(w) && j < |w.runs| && !MayBeGivenUp(w, j)
    ensures Betrayed(Apply(w, Abandon(j)))
  {
    hide Betrayed, Exclusive, AccountsOk, ClearedOk, FamiliesOk;
    var u := Apply(w, Abandon(j));
    SafeIsBorrowing(w);
    assert SlotOk(w.runs[j]);
    assert u.runs[j] == w.runs[j].(phase := Failed, abandoned := true);
    assert forall k: nat :: k < |w.runs| && k != j ==> u.runs[k] == w.runs[k];
    SpecsBorrow(w, u);
    if Unfinished(w.runs[j]) {
      LooseBetrays(u, j);
    } else {
      PoisedBetrays(u, j);
    }
  }

  // ---------- reopening ----------

  /** What a disorderly reopening has reopened: an unused run that can still start. */
  ghost predicate CanStart(u: World, j: nat) {
    && j < |u.runs| && !Terminal(u.runs[j].phase) && !u.runs[j].pods
    && u.runs[j].spec.valid && !u.runs[j].used
  }

  lemma StartsBeside(u: World, v: World, j: nat, k: nat)
    requires Leads(u, v) && CanStart(v, j) && v.runs[j].ready && j < k < |v.runs| && Live(v.runs[k])
    ensures Betrayed(u)
  {
    hide Leads, TwoLive, Betrayed;
    var x := StartOpen(u, v, j);
    TwoAreLive(x, j, k);
    TwoBetray(u, x);
  }

  lemma StartsWithout(u: World, v: World, j: nat)
    requires Leads(u, v) && CanStart(v, j) && v.runs[j].ready && v.runs[j].spec.account !in v.accounts
    ensures Betrayed(u)
  {
    hide Leads;
    var x := StartOpen(u, v, j);
    assert Live(x.runs[j]) && x.runs[j].spec.account !in x.accounts;
    assert !Promised(x);
  }

  /** A run that is not ready can become so, unless its account is lost. */
  lemma MakeReady(w: World, u: World, j: nat) returns (v: World)
    requires Leads(w, u) && FamiliesOk(u) && CanStart(u, j)
    requires !u.runs[j].ready ==> !u.runs[j].abandoned && !Lost(u, u.runs[j].spec.account)
    ensures Leads(w, v) && CanStart(v, j) && v.runs[j].ready && |v.runs| == |u.runs|
    ensures forall k: nat :: k < |u.runs| && k != j ==> v.runs[k] == u.runs[k]
  {
    hide Leads;
    v := u;
    if !u.runs[j].ready {
      assert FamilyOk(u, j);
      var account := u.runs[j].spec.account;
      if account !in u.accounts {
        LeadsOn(w, v, CreateAccount(account));
        v := Apply(u, CreateAccount(account));
        assert u.runs[account := u.runs[account]] == u.runs;
      }
      LeadsOn(w, v, MarkReady(j));
      v := Apply(v, MarkReady(j));
    }
  }

  lemma ReopeningBetrays(w: World, j: nat)
    requires Safe(w) && j < |w.runs| && !Reopens(w, j)
    ensures Betrayed(Apply(w, Recover(j)))
  {
    hide Betrayed, Leads, Exclusive, AccountsOk, ClearedOk, Lost;
    var u := Apply(w, Recover(j));
    var s := w.runs[j];
    assert SlotOk(s);
    assert w.armed != Some(j) by { if w.armed == Some(j) { ArmedIsNotQuiet(w, j); } }
    assert u.runs[j] == s.(phase := Recovering);
    assert CanStart(u, j);
    LeadsToItself(u);
    if s.ready && s.spec.account !in w.accounts {
      StartsWithout(u, u, j);
    } else if s.ready && IsClearing(w, s.spec.account) {
      var delete := DeleteAccount(s.spec.account, w.doing.value.latest);
      LeadsOn(u, u, delete);
      StartsWithout(u, Apply(u, delete), j);
    } else {
      FamiliesKept(w, Recover(j));
      LostIsTheSame(w, u, j);
      var v := MakeReady(u, u, j);
      var k: nat :| j < k < |w.runs| && Unfinished(w.runs[k]);
      assert v.runs[k] == u.runs[k] == w.runs[k];
      StartsBeside(u, v, j, k);
    }
  }

  lemma LostIsTheSame(w: World, u: World, j: nat)
    requires j < |w.runs| && u == Apply(w, Recover(j))
    ensures Lost(u, w.runs[j].spec.account) ==> Lost(w, w.runs[j].spec.account)
  {
    var account := w.runs[j].spec.account;
    if AnyCleaned(u, account) {
      var k: nat :| k < |u.runs| && InFamily(u, account, k) && u.runs[k].cleaned;
      assert InFamily(w, account, k) && w.runs[k].cleaned;
    }
  }

  /**
   An action is orderly if and only if the promise cannot be broken by orderly actions after it: the conditions on
   orderly runs are exact for what the lab is promised, in every safe state.
   */
  lemma OrderlyExactly(w: World, a: Action)
    requires Safe(w) && Enabled(w, a)
    ensures Orderly(w, a) <==> forall u :: Leads(Apply(w, a), u) ==> Promised(u)
  {
    hide Safe, Enabled, Apply, Promised, Leads, Reopens, MayBeGivenUp;
    if Orderly(w, a) {
      StepIsSafe(w, a);
      forall u | Leads(Apply(w, a), u) ensures Promised(u) {
        LeadsSafely(Apply(w, a), u);
      }
    } else {
      DisorderBetrays(w, a);
      BetrayalShows(Apply(w, a));
    }
  }

  lemma LeadsSafely(w: World, u: World)
    requires Safe(w) && Leads(w, u)
    ensures Promised(u)
  {
    hide Safe, Promised;
    var trace :| OrderlyFrom(w, trace) && Run(w, trace) == u;
    OrderlyStaysSafe(w, trace);
    SafeIsPromised(u);
  }

  lemma BetrayalShows(w: World)
    requires Betrayed(w)
    ensures exists u :: Leads(w, u) && !Promised(u)
  {
  }

  lemma DisorderBetrays(w: World, a: Action)
    requires Safe(w) && Enabled(w, a) && !Orderly(w, a)
    ensures Betrayed(Apply(w, a))
  {
    hide Safe, Betrayed, Apply, Reopens, MayBeGivenUp;
    match a
    case Recover(j) => ReopeningBetrays(w, j);
    case Refuse(j) => RefusalBetrays(w, j);
    case Abandon(j) => GivingUpBetrays(w, j);
    case JobFinishes(j, _) => OrphansBetray(w, a, j);
    case JobVanishes(j) => OrphansBetray(w, a, j);
  }

  /** They are also exact for the invariant that the proof rests on. */
  lemma SafeExactly(w: World, a: Action)
    requires Safe(w) && Enabled(w, a)
    ensures Safe(Apply(w, a)) <==> Orderly(w, a)
  {
    hide Safe, Enabled, Apply, Promised, Leads, Reopens, MayBeGivenUp, Orderly;
    if Orderly(w, a) {
      StepIsSafe(w, a);
    } else {
      DisorderBetrays(w, a);
      BetrayalShows(Apply(w, a));
      if Safe(Apply(w, a)) {
        var u :| Leads(Apply(w, a), u) && !Promised(u);
        LeadsSafely(Apply(w, a), u);
      }
    }
  }
}
