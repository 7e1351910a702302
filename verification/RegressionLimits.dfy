/**
 Reachable states in which each condition of an orderly run is missed once and two runs then occupy the lab; the one
 way in which an account goes although nobody has reported a verified cleanup; and a recovery that comes too late.
 */
module RegressionLimits {
  import opened Wrappers
  import opened RegressionProtocol
  import opened RegressionSafety
  import opened RegressionRetention
  import opened RegressionRecovery

  ghost predicate Reaches(trace: seq<Action>, w: World) {
    && Legal(START, trace) && OrderlyRun(trace) && WordKept(trace) && Run(START, trace) == w
    && forall j :: !VerifiedBefore(trace, j)
  }

  /** The state is reached by an orderly run that keeps its word and in which no runner reports a verified cleanup. */
  ghost predicate Reachable(w: World) {
    exists trace :: Reaches(trace, w)
  }

  lemma StartIsReachable()
    ensures Reachable(START)
  {
    assert Reaches([], START);
  }

  lemma StaysUnverified(trace: seq<Action>, a: Action, j: nat)
    requires !VerifiedBefore(trace, j) && !(a.Report? && a.cleanup.Some?)
    ensures !VerifiedBefore(trace + [a], j)
  {
    assert forall i :: 0 <= i < |trace| ==> (trace + [a])[i] == trace[i];
  }

  /** No report of a runner, and none about a run that has released its account. */
  predicate Plain(w: World, a: Action) {
    a.Report? ==> a.cleanup.None? && a.run < |w.runs| && !Released(w.runs[a.run])
  }

  lemma PlainVerifiesNothing(w: World, a: Action)
    requires Plain(w, a)
    ensures !(a.Report? && a.cleanup.Some?)
  {
  }

  lemma Next(w: World, a: Action)
    requires Reachable(w) && Enabled(w, a) && Orderly(w, a) && Plain(w, a)
    ensures Reachable(Apply(w, a))
  {
    assert KeepsWord(w, a);
    hide Enabled, Orderly, Apply, VerifiedBefore, KeepsWord, Plain;
    var trace :| Reaches(trace, w);
    assert (trace + [a])[..|trace|] == trace;
    LegalExtends(trace, a);
    forall j ensures !VerifiedBefore(trace + [a], j) {
      PlainVerifiesNothing(w, a);
      StaysUnverified(trace, a, j);
    }
    assert Reaches(trace + [a], Apply(w, a));
  }

  // ---------- building blocks ----------

  /** A valid full-mode run that uses the account of run `account`, with its account ready. */
  function Prepared(account: nat): Slot {
    Fresh(Spec(true, false, false, true, account)).(ready := true)
  }

  function Started(account: nat): Slot {
    Prepared(account).(used := true, job := Some(Job(true, None)))
  }

  function Ended(account: nat): Slot {
    Prepared(account).(used := true, job := Some(Job(true, Some(true))), phase := Failed, recovery := Some(true))
  }

  /** Too late for its readiness, but ready after all. */
  function Late(account: nat): Slot {
    Prepared(account).(phase := Failed, recovery := Some(true))
  }

  /** The API has last created the youngest run, and the operator is not about to request a Job. */
  function At(runs: seq<Slot>, accounts: set<nat>, listed: set<nat>): World
    requires runs != []
  {
    World(runs, accounts, listed, None, Some(Tending(|runs| - 1)))
  }

  lemma Submitted(w: World, spec: Spec)
    requires Reachable(w) && Enabled(w, Submit(spec))
    ensures Reachable(World(w.runs + [Fresh(spec)], w.accounts, w.listed, w.armed, Some(Tending(|w.runs|))))
  {
    Next(w, Submit(spec));
  }

  lemma Touched(w: World, a: Action, j: nat, runs: seq<Slot>, accounts: set<nat>, listed: set<nat>)
    requires Reachable(w) && Enabled(w, a) && Orderly(w, a) && Plain(w, a)
    requires Target(a) == Some(j) && j < |w.runs| && runs == w.runs[j := Touch(w.runs[j], a)]
    requires accounts == Accounts(w, a) && listed == Listed(w, a)
    ensures Reachable(World(runs, accounts, listed, Armed(w, a), Doing(w, a)))
  {
    Next(w, a);
  }

  lemma AddRun(w: World)
    requires Reachable(w) && forall k: nat :: k < |w.runs| ==> w.runs[k].spec.account < |w.runs|
    ensures Reachable(World(w.runs + [Prepared(|w.runs|)], w.accounts + {|w.runs|}, w.listed, w.armed, Some(Tending(|w.runs|))))
  {
    var n := |w.runs|;
    var spec := Spec(true, false, false, true, n);
    Submitted(w, spec);
    AddAccount(World(w.runs + [Fresh(spec)], w.accounts, w.listed, w.armed, Some(Tending(n))), n);
    var v := World(w.runs + [Fresh(spec)], w.accounts + {n}, w.listed, w.armed, Some(Tending(n)));
    Readied(v, n);
    assert v.runs[n := Prepared(n)] == w.runs + [Prepared(n)];
  }

  lemma AddAccount(w: World, n: nat)
    requires Reachable(w) && |w.runs| == n + 1 && w.runs[n] == Fresh(Spec(true, false, false, true, n))
    requires w.doing == Some(Tending(n)) && forall k: nat :: k < n ==> w.runs[k].spec.account < n
    ensures Reachable(w.(accounts := w.accounts + {n}))
  {
    assert w.runs[n := w.runs[n]] == w.runs;
    assert Enabled(w, CreateAccount(n)) by {
      assert forall k: nat :: k < |w.runs| && InFamily(w, n, k) ==> k == n;
      assert !AnyCleaned(w, n);
    }
    Touched(w, CreateAccount(n), n, w.runs, w.accounts + {n}, w.listed);
  }

  lemma Readied(w: World, j: nat)
    requires Reachable(w) && j < |w.runs| && w.runs[j].spec.account in w.accounts
    requires !w.runs[j].abandoned && Uncleared(w.doing) == w.doing
    ensures Reachable(w.(runs := w.runs[j := w.runs[j].(ready := true)]))
  {
    Touched(w, MarkReady(j), j, w.runs[j := w.runs[j].(ready := true)], w.accounts, w.listed);
  }

  /** The operator starts run `j`, which is on its list. */
  lemma StartListed(w: World, j: nat)
    requires Reachable(w) && j < |w.runs| && w.runs[j] == Prepared(w.runs[j].spec.account)
    requires EarlierSettled(w, j) && j in w.listed
    ensures Reachable(World(w.runs[j := Started(w.runs[j].spec.account)], w.accounts, w.listed, None, w.doing))
  {
    var used := w.runs[j].(used := true);
    Touched(w, MarkUsed(j), j, w.runs[j := used], w.accounts, w.listed);
    var v := World(w.runs[j := used], w.accounts, w.listed, Some(j), w.doing);
    assert w.runs[j := Started(w.runs[j].spec.account)] == v.runs[j := Started(w.runs[j].spec.account)];
    Touched(v, PostJob(j), j, v.runs[j := Started(w.runs[j].spec.account)], v.accounts, v.listed);
  }

  /** The operator lists the runs and starts run `j`. */
  lemma StartRun(w: World, j: nat, listed: set<nat>)
    requires Reachable(w) && j < |w.runs| && w.runs[j] == Prepared(w.runs[j].spec.account)
    requires EarlierSettled(w, j) && listed == Listed(w, List)
    ensures Reachable(World(w.runs[j := Started(w.runs[j].spec.account)], w.accounts, listed, None, w.doing))
  {
    Next(w, List);
    assert w.runs[j].ready && !Terminal(w.runs[j].phase);
    StartListed(World(w.runs, w.accounts, listed, None, w.doing), j);
  }

  /** Two runs wait with accounts of their own, and the first has its Job. */
  function FirstIsLive(): World {
    At([Started(0), Prepared(1)], {0, 1}, {0, 1})
  }

  lemma OneIsPrepared()
    ensures Reachable(At([Prepared(0)], {0}, {}))
  {
    hide Reachable;
    StartIsReachable();
    AddRun(START);
    assert START.runs + [Prepared(0)] == [Prepared(0)] && START.accounts + {0} == {0};
  }

  lemma TwoArePrepared()
    ensures Reachable(At([Prepared(0), Prepared(1)], {0, 1}, {}))
  {
    hide Reachable;
    OneIsPrepared();
    AddRun(At([Prepared(0)], {0}, {}));
    assert [Prepared(0)] + [Prepared(1)] == [Prepared(0), Prepared(1)];
    assert {0} + {1} == {0, 1};
  }

  lemma FirstGetsLive()
    ensures Reachable(FirstIsLive())
  {
    TwoArePrepared();
    var u := At([Prepared(0), Prepared(1)], {0, 1}, {});
    ListedBoth(u);
    StartRun(u, 0, {0, 1});
    assert u.runs[0 := Started(0)] == [Started(0), Prepared(1)];
  }

  lemma ListedBoth(u: World)
    requires |u.runs| == 2
    requires !Terminal(u.runs[0].phase) && !Terminal(u.runs[1].phase)
    ensures Listed(u, List) == {0, 1}
  {
  }

  // ---------- the three ways ----------

  /** What the operator does next, with run `first` in its Job and run `second` next in line. */
  ghost predicate StartsBeside(w: World, second: nat, first: nat) {
    && Enabled(w, MarkUsed(second))
    && Enabled(Apply(w, MarkUsed(second)), PostJob(second))
    && var u := Apply(Apply(w, MarkUsed(second)), PostJob(second));
      && first < |u.runs| && second < |u.runs| && first != second
      && Live(u.runs[first]) && Live(u.runs[second])
  }

  /** The disorderly action `a`, and `after` it in the next pass, let `second` start beside `first`. */
  ghost predicate Derails(w: World, a: Action, after: seq<Action>, second: nat, first: nat) {
    && Enabled(w, a) && !Orderly(w, a)
    && Legal(Apply(w, a), after)
    && StartsBeside(Run(Apply(w, a), after), second, first)
  }

  /** After an orderly run. */
  ghost predicate Breaks(a: Action, after: seq<Action>, second: nat, first: nat) {
    exists w :: Reachable(w) && Derails(w, a, after, second, first)
  }

  lemma OneStep(w: World, a: Action)
    requires Enabled(w, a)
    ensures Legal(w, [a]) && Run(w, [a]) == Apply(w, a)
  {
    assert [a][..0] == [];
  }

  lemma TwoSteps(w: World, a: Action, b: Action)
    requires Enabled(w, a) && Enabled(Apply(w, a), b)
    ensures Legal(w, [a, b]) && Run(w, [a, b]) == Apply(Apply(w, a), b)
  {
    OneStep(w, a);
    assert [a, b][..1] == [a];
  }

  lemma OnlySecondListed(u: World)
    requires |u.runs| == 2 && Terminal(u.runs[0].phase) && u.runs[1].ready && !Terminal(u.runs[1].phase)
    requires u.listed == {1} && u.armed == None
    ensures Apply(u, List) == u
  {
    assert Listed(u, List) == {1};
  }

  lemma SecondStartsBesideFirst(phase: Phase, abandoned: bool)
    requires phase == Blocked || phase == Failed
    ensures StartsBeside(
              At([Started(0).(phase := phase, abandoned := abandoned), Prepared(1)], {0, 1}, {1}), 1, 0)
  {
  }

  /** A change of the registered identities while a Job is active lets the next run start beside it. */
  lemma ChangedIdentityBreaksExclusion()
    ensures Breaks(Refuse(0), [List], 1, 0)
  {
    FirstGetsLive();
    RefusalDerails();
    assert Reachable(FirstIsLive());
  }

  lemma RefusalDerails()
    ensures Derails(FirstIsLive(), Refuse(0), [List], 1, 0)
  {
    SecondStartsBesideFirst(Blocked, false);
    var runs := [Started(0).(phase := Blocked), Prepared(1)];
    assert FirstIsLive().runs[0 := runs[0]] == runs;
    var u := At(runs, {0, 1}, {1});
    OnlySecondListed(u);
    assert Apply(FirstIsLive(), Refuse(0)) == u;
    OneStep(u, List);
  }

  /**
   So does a lost answer when the API declares an account ready: it reports the run as failed although the
   operator has started it.
   */
  lemma LateGivingUpBreaksExclusion()
    ensures Breaks(Abandon(0), [List], 1, 0)
  {
    FirstGetsLive();
    GivingUpDerails();
    assert Reachable(FirstIsLive());
  }

  lemma GivingUpDerails()
    ensures Derails(FirstIsLive(), Abandon(0), [List], 1, 0)
  {
    SecondStartsBesideFirst(Failed, true);
    var runs := [Started(0).(phase := Failed, abandoned := true), Prepared(1)];
    assert FirstIsLive().runs[0 := runs[0]] == runs;
    var u := At(runs, {0, 1}, {1});
    OnlySecondListed(u);
    var v := At(runs, {0, 1}, {0, 1});
    assert Apply(FirstIsLive(), Abandon(0)) == v;
    assert Listed(v, List) == {1};
    OneStep(v, List);
  }

  /** The first run has its Job and a Pod. */
  function FirstHasPods(): World {
    At([Started(0).(pods := true), Prepared(1)], {0, 1}, {0, 1})
  }

  lemma FirstGetsPods()
    ensures Reachable(FirstHasPods())
  {
    FirstGetsLive();
    Touched(FirstIsLive(), PodStarts(0), 0, [Started(0).(pods := true), Prepared(1)], {0, 1}, {0, 1});
  }

  /** And so does a Job that the cluster removes, or declares finished, before its Pods are gone. */
  lemma OrphanedPodsBreakExclusion()
    ensures Breaks(JobVanishes(0), [List, Report(0, Failed, None, None)], 1, 0)
    ensures Breaks(JobFinishes(0, true), [List, Report(0, Failed, None, None)], 1, 0)
  {
    FirstGetsPods();
    VanishingDerails(None);
    VanishingDerails(Some(Job(true, Some(true))));
    assert Reachable(FirstHasPods());
  }

  lemma VanishingDerails(job: Option<Job>)
    requires job == None || job == Some(Job(true, Some(true)))
    ensures Derails(FirstHasPods(), if job.None? then JobVanishes(0) else JobFinishes(0, true),
                    [List, Report(0, Failed, None, None)], 1, 0)
  {
    var a := if job.None? then JobVanishes(0) else JobFinishes(0, true);
    var first := Started(0).(pods := true, job := job);
    var v := At([first, Prepared(1)], {0, 1}, {0, 1});
    assert FirstHasPods().runs[0 := first] == v.runs;
    assert Apply(FirstHasPods(), a) == v;
    var u := At([first.(phase := Failed), Prepared(1)], {0, 1}, {1});
    ReportingEnds(v, u, first);
    OrphanIsBeside(first.(phase := Failed));
  }

  lemma ReportingEnds(v: World, u: World, first: Slot)
    requires !Unfinished(first) && !Terminal(first.phase)
    requires v == At([first, Prepared(1)], {0, 1}, {0, 1})
    requires u == At([first.(phase := Failed), Prepared(1)], {0, 1}, {1})
    ensures Legal(v, [List, Report(0, Failed, None, None)]) && Run(v, [List, Report(0, Failed, None, None)]) == u
  {
    ListedBoth(v);
    assert Apply(v, List) == v;
    assert v.runs[0 := first.(phase := Failed)] == u.runs;
    assert {0, 1} - {0} == {1};
    assert Apply(v, Report(0, Failed, None, None)) == u;
    TwoSteps(v, List, Report(0, Failed, None, None));
  }

  lemma OrphanIsBeside(first: Slot)
    requires first.pods && Terminal(first.phase)
    ensures StartsBeside(At([first, Prepared(1)], {0, 1}, {1}), 1, 0)
  {
  }

  /** The third of three runs on one account is live; the second was given up too early and is ready after all. */
  function ThirdIsLive(): World {
    At([Ended(0), Late(0), Started(0)], {0}, {2})
  }

  lemma ListedOne(u: World)
    requires |u.runs| == 1 && !Terminal(u.runs[0].phase)
    ensures Listed(u, List) == {0}
  {
  }

  lemma OneIsLive()
    ensures Reachable(At([Started(0)], {0}, {0}))
  {
    hide Reachable, Listed;
    OneIsPrepared();
    var u := At([Prepared(0)], {0}, {});
    ListedOne(u);
    StartRun(u, 0, {0});
    assert [Prepared(0)][0 := Started(0)] == [Started(0)];
  }

  function Broken(account: nat): Slot {
    Started(account).(job := Some(Job(true, Some(true))))
  }

  lemma FirstBreaks()
    ensures Reachable(At([Broken(0)], {0}, {0}))
  {
    OneIsLive();
    Touched(At([Started(0)], {0}, {0}), JobFinishes(0, true), 0, [Broken(0)], {0}, {0});
  }

  lemma FirstEnds()
    ensures Reachable(At([Ended(0)], {0}, {}))
  {
    FirstBreaks();
    assert {0} - {0} == {};
    Touched(At([Broken(0)], {0}, {0}), Report(0, Failed, Some(true), None), 0, [Ended(0)], {0}, {});
  }

  /** A family whose youngest run failed in need of recovery is offered for it. */
  lemma IsOffered(w: World)
    requires w.runs != [] && w.runs[|w.runs| - 1].recovery == Some(true)
    requires forall j: nat :: j < |w.runs| ==>
      Terminal(w.runs[j].phase) && !w.runs[j].cleaned && w.runs[j].spec.account == 0 && w.runs[j].consumer.None?
    ensures RecoveryCandidate(w) == Some(|w.runs| - 1) && Offered(w, 0)
  {
    assert FirstPending(w, |w.runs|).Some? by { assert !w.runs[0].cleaned; }
    assert Counts(w, 0, true, |w.runs| - 1);
  }

  lemma SecondIsLate()
    ensures Reachable(At([Ended(0), Late(0)], {0}, {}))
  {
    hide Reachable, RecoveryCandidate, Offered;
    FirstEnds();
    var spec := Spec(true, false, false, true, 0);
    IsOffered(At([Ended(0)], {0}, {}));
    Submitted(At([Ended(0)], {0}, {}), spec);
    assert [Ended(0)] + [Fresh(spec)] == [Ended(0), Fresh(spec)];
    SecondIsGivenUp(spec);
    Readied(At([Ended(0), Late(0).(ready := false)], {0}, {}), 1);
    assert [Ended(0), Late(0).(ready := false)][1 := Late(0)] == [Ended(0), Late(0)];
  }

  lemma SecondIsGivenUp(spec: Spec)
    requires spec == Spec(true, false, false, true, 0) && Reachable(At([Ended(0), Fresh(spec)], {0}, {}))
    ensures Reachable(At([Ended(0), Late(0).(ready := false)], {0}, {}))
  {
    Next(At([Ended(0), Fresh(spec)], {0}, {}), List);
    var u := At([Ended(0), Fresh(spec)], {0}, {1});
    SecondIsListed(spec);
    assert {1} - {1} == {};
    Touched(u, Report(1, Failed, Some(true), None), 1, [Ended(0), Late(0).(ready := false)], {0}, {});
  }

  lemma SecondIsListed(spec: Spec)
    ensures Apply(At([Ended(0), Fresh(spec)], {0}, {}), List)
         == At([Ended(0), Fresh(spec)], {0}, {1})
  {
    var w := At([Ended(0), Fresh(spec)], {0}, {});
    assert w.runs[0] == Ended(0) && w.runs[1] == Fresh(spec);
    assert Listed(w, List) == {1};
  }

  lemma ThirdIsPrepared()
    ensures Reachable(At([Ended(0), Late(0), Prepared(0)], {0}, {}))
  {
    hide Reachable, RecoveryCandidate, Offered;
    SecondIsLate();
    var spec := Spec(true, false, false, true, 0);
    IsOffered(At([Ended(0), Late(0)], {0}, {}));
    Submitted(At([Ended(0), Late(0)], {0}, {}), spec);
    assert [Ended(0), Late(0)] + [Fresh(spec)] == [Ended(0), Late(0), Fresh(spec)];
    Readied(At([Ended(0), Late(0), Fresh(spec)], {0}, {}), 2);
    assert [Ended(0), Late(0), Fresh(spec)][2 := Prepared(0)] == [Ended(0), Late(0), Prepared(0)];
  }

  lemma OnlyThirdListed(v: World)
    requires v.runs == [Ended(0), Late(0), Prepared(0)]
    ensures Listed(v, List) == {2} && EarlierSettled(v, 2)
  {
    assert v.runs[0] == Ended(0) && v.runs[1] == Late(0) && v.runs[2] == Prepared(0);
    assert forall j: nat :: j in Listed(v, List) <==> j == 2;
  }

  lemma ThirdGetsLive()
    ensures Reachable(ThirdIsLive())
  {
    ThirdIsPrepared();
    var v := At([Ended(0), Late(0), Prepared(0)], {0}, {});
    OnlyThirdListed(v);
    StartRun(v, 2, {2});
    assert v.runs[2 := Started(0)] == [Ended(0), Late(0), Started(0)];
  }

  lemma SecondStartsBesideThird()
    ensures StartsBeside(At([Ended(0), Late(0).(phase := Recovering), Started(0)], {0}, {1, 2}), 1, 2)
  {
  }

  /** And so does a failed read of a run that is over: it is reported as recovering, and may start in its turn. */
  lemma FailedReadBreaksExclusion()
    ensures Breaks(Recover(1), [List], 1, 2)
  {
    ThirdGetsLive();
    FailedReadDerails();
    assert Reachable(ThirdIsLive());
  }

  lemma ListedLastTwo(u: World)
    requires |u.runs| == 3 && Terminal(u.runs[0].phase)
    requires !Terminal(u.runs[1].phase) && !Terminal(u.runs[2].phase)
    ensures Listed(u, List) == {1, 2}
  {
  }

  lemma FailedReadDerails()
    ensures Derails(ThirdIsLive(), Recover(1), [List], 1, 2)
  {
    SecondStartsBesideThird();
    hide StartsBeside, RecoveryCandidate;
    var w := ThirdIsLive();
    var runs := [Ended(0), Late(0).(phase := Recovering), Started(0)];
    assert w.runs[1 := runs[1]] == runs;
    var u := Apply(w, Recover(1));
    assert u == At(runs, {0}, {2});
    ListedLastTwo(u);
    var v := Apply(u, List);
    assert v.listed == {1, 2};
    assert v == At(runs, {0}, {1, 2});
    assert w.runs[1] == Late(0);
    assert Enabled(w, Recover(1)) && !Orderly(w, Recover(1)) by { assert Unfinished(w.runs[2]); }
    OneStep(u, List);
  }

  // ---------- an account that nobody has verified ----------

  /** A borrower that the API turns down, because the installed schema does not know its selection. */
  function TurnedDown(account: nat): Slot {
    Fresh(Spec(true, false, false, true, account))
    .(phase := Failed, abandoned := true, recovery := Some(false), cleanup := Some(Verified))
  }

  lemma BorrowerIsTurnedDown()
    ensures Reachable(At([Ended(0), TurnedDown(0)], {0}, {}))
  {
    hide Reachable, RecoveryCandidate, Offered;
    FirstEnds();
    var spec := Spec(true, false, false, true, 0);
    IsOffered(At([Ended(0)], {0}, {}));
    Submitted(At([Ended(0)], {0}, {}), spec);
    assert [Ended(0)] + [Fresh(spec)] == [Ended(0), Fresh(spec)];
    SecondIsTurnedDown(spec);
  }

  lemma SecondIsTurnedDown(spec: Spec)
    requires spec == Spec(true, false, false, true, 0) && Reachable(At([Ended(0), Fresh(spec)], {0}, {}))
    ensures Reachable(At([Ended(0), TurnedDown(0)], {0}, {}))
  {
    hide Reachable;
    var u := At([Ended(0), Fresh(spec)], {0}, {});
    assert Touch(u.runs[1], TurnDown(1)) == TurnedDown(0);
    assert u.runs[1 := TurnedDown(0)] == [Ended(0), TurnedDown(0)];
    Touched(u, TurnDown(1), 1, [Ended(0), TurnedDown(0)], {0}, {});
  }

  lemma TurnedDownSpeaks(w: World)
    requires w == At([Ended(0), TurnedDown(0)], {0}, {})
    ensures Enabled(w, Clear(0, 1)) && Enabled(Apply(w, Clear(0, 1)), DeleteAccount(0, 1))
    ensures Apply(w, Clear(0, 1)).accounts == {0} && w.runs[0].used && InFamily(w, 0, 0)
  {
    assert w.runs[0] == Ended(0) && w.runs[1] == TurnedDown(0);
  }

  /**
   The exception of `DeletionFollowsVerification` is real: a full-mode Job has failed and asks for recovery, the API
   turns down the run that was to recover it, and stops. Then that run speaks for the family, and its account may go
   although no runner ever reported a verified cleanup.
   */
  lemma TurningDownReleasesTheAccount()
    ensures exists trace: seq<Action> ::
      && Legal(START, trace) && OrderlyRun(trace)
      && Enabled(Run(START, trace), DeleteAccount(0, 1)) && 0 in Run(START, trace).accounts
      && 0 < |Run(START, trace).runs| && Run(START, trace).runs[0].used
      && Run(START, trace).runs[0].recovery == Some(true)
      && forall j :: !VerifiedBefore(trace, j)
  {
    BorrowerIsTurnedDown();
    var w := At([Ended(0), TurnedDown(0)], {0}, {});
    TurnedDownSpeaks(w);
    Next(w, Clear(0, 1));
    var trace :| Reaches(trace, Apply(w, Clear(0, 1)));
    assert Run(START, trace).runs[0] == Ended(0);
  }

  // ---------- a recovery of an account that is gone ----------

  ghost predicate OffersGoneAccount(w: World, j: nat) {
    && RecoveryCandidate(w) == Some(j)
    && AnyUsed(w, w.runs[j].spec.account)
    && w.runs[j].spec.account !in w.accounts
  }

  lemma OtherIsOffered(u: World)
    requires u.runs == [Ended(0), TurnedDown(0).(cleaned := true)] && u.accounts == {}
    ensures OffersGoneAccount(u, 0)
  {
    assert u.runs[0] == Ended(0) && u.runs[1].cleaned;
    assert FirstPending(u, 2) == Some(0) && OnlyPendingAccount(u, 0);
    assert Counts(u, 0, true, 0) && forall k: nat :: Counts(u, 0, true, k) ==> k == 0;
    assert LatestFamily(u, 0, true) == Some(0);
    assert InFamily(u, 0, 0) && u.runs[0].used;
  }

  const RELEASED := Some(Clearing(0, 1, true))

  lemma AccountIsGone()
    ensures Reachable(World([Ended(0), TurnedDown(0)], {}, {}, None, RELEASED))
  {
    hide Reachable, Enabled, Orderly;
    BorrowerIsTurnedDown();
    var w := At([Ended(0), TurnedDown(0)], {0}, {});
    TurnedDownSpeaks(w);
    assert Orderly(w, Clear(0, 1)) && Orderly(Apply(w, Clear(0, 1)), DeleteAccount(0, 1)) by { AlwaysOrderly(); }
    Next(w, Clear(0, 1));
    Next(Apply(w, Clear(0, 1)), DeleteAccount(0, 1));
    assert {0} - {0} == {};
  }

  lemma AlwaysOrderly()
    ensures forall w: World, a: Action :: a.Clear? || a.DeleteAccount? || a.MarkCleaned? ==> Orderly(w, a)
  {
  }

  lemma SpeakerIsSettled()
    ensures Reachable(World([Ended(0), TurnedDown(0).(cleaned := true)], {}, {}, None, RELEASED))
  {
    hide Reachable;
    AccountIsGone();
    var v := World([Ended(0), TurnedDown(0)], {}, {}, None, RELEASED);
    var settled := TurnedDown(0).(cleaned := true);
    assert v.runs[1 := settled] == [Ended(0), settled];
    Touched(v, MarkCleaned(1, Some(false), Some(Verified)), 1, [Ended(0), settled], {}, {});
  }

  /**
   One half of `RegressionRecovery.OfferedAccountExists` at work: if the API stops after it has settled the speaker of
   a family and before it has settled the others, recovery is offered for an account that is gone.
   */
  lemma HalfSettledFamilyIsOffered()
    ensures exists w :: Reachable(w) && OffersGoneAccount(w, 0)
  {
    hide OffersGoneAccount, Reachable;
    SpeakerIsSettled();
    OtherIsOffered(World([Ended(0), TurnedDown(0).(cleaned := true)], {}, {}, None, RELEASED));
  }

  /** A failed read reopens the speaker, which was never ready, after its account has gone. */
  lemma SpeakerIsReopened()
    ensures Reachable(World([Ended(0), TurnedDown(0).(phase := Recovering)], {}, {1}, None, RELEASED))
  {
    hide Reachable;
    AccountIsGone();
    var v := World([Ended(0), TurnedDown(0)], {}, {}, None, RELEASED);
    var reopened := TurnedDown(0).(phase := Recovering);
    assert v.runs[1 := reopened] == [Ended(0), reopened];
    Touched(v, Recover(1), 1, [Ended(0), reopened], {}, {});
    var u := World([Ended(0), reopened], {}, {}, None, RELEASED);
    OnlyLastListed(u);
    Next(u, List);
  }

  lemma OnlyLastListed(u: World)
    requires |u.runs| == 2 && Terminal(u.runs[0].phase) && !Terminal(u.runs[1].phase)
    ensures Listed(u, List) == {1}
  {
  }

  ghost predicate TakesBack(w: World, a: Action, account: nat) {
    && Enabled(w, a) && Orderly(w, a) && !KeepsWord(w, a)
    && Offered(Apply(w, a), account) && AnyUsed(Apply(w, a), account)
    && account !in Apply(w, a).accounts && !AnyCleaned(Apply(w, a), account)
  }

  lemma LateReportTakesBack(w: World)
    requires w == World([Ended(0), TurnedDown(0).(phase := Recovering)], {}, {1}, None, RELEASED)
    ensures TakesBack(w, Report(1, Failed, Some(true), None), 0)
  {
    var a := Report(1, Failed, Some(true), None);
    var u := Apply(w, a);
    var late := TurnedDown(0).(recovery := Some(true));
    assert u.runs == [Ended(0), late];
    assert u.runs[0] == Ended(0) && u.runs[1] == late && w.runs[0] == Ended(0);
    IsOffered(u);
    assert InFamily(u, 0, 0) && InFamily(w, 0, 0) && w.runs[0].used;
    assert Latest(w, 0, 1) && Doomed(w, 0);
  }

  /**
   The other half: its condition is needed. If the API stops between the deletion of an account and the settling of its
   family, and a failed read of its speaker makes the operator report it once more, recovery is offered for an account
   that is gone although no run of its family is settled.
   */
  lemma LateReportOffersGoneAccount()
    ensures exists w :: Reachable(w) && TakesBack(w, Report(1, Failed, Some(true), None), 0)
  {
    hide TakesBack, Reachable;
    SpeakerIsReopened();
    LateReportTakesBack(World([Ended(0), TurnedDown(0).(phase := Recovering)], {}, {1}, None, RELEASED));
  }
}
