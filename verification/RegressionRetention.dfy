/** On what grounds a test account may be deleted, and where those grounds come from. */
module RegressionRetention {
  import opened Wrappers
  import opened RegressionProtocol
  import opened RegressionSafety

  // ---------- families ----------

  /** The speaker of a family with a full-mode run is itself a full-mode run. */
  lemma SpeakerIsFull(w: World, account: nat, latest: nat, k: nat)
    requires FamiliesOk(w) && Latest(w, account, latest) && InFamily(w, account, k) && !w.runs[k].spec.nonDestructive
    ensures !w.runs[latest].spec.nonDestructive
  {
    assert FamilyOk(w, latest) && FamilyOk(w, k) && FamilyOk(w, account);
    if latest == account && w.runs[account].consumer.Some? {
      assert InFamily(w, account, k) && k <= latest;
    }
  }

  // ---------- the decision ----------

  /** From one state to a later one, the same runs exist, and what was used or settled stays so. */
  ghost predicate SameRuns(w: World, u: World) {
    && |w.runs| == |u.runs|
    && forall k: nat :: k < |w.runs| ==> SameRun(w.runs[k], u.runs[k])
  }

  predicate SameRun(s: Slot, t: Slot) {
    t.spec == s.spec && (s.used ==> t.used) && (s.cleaned ==> t.cleaned)
  }

  lemma TouchKeepsRun(s: Slot, a: Action)
    ensures SameRun(s, Touch(s, a))
  {
  }

  lemma StepKeepsRuns(w: World, a: Action)
    requires !a.Submit?
    ensures SameRuns(w, Apply(w, a))
  {
    hide Touch;
    forall k: nat | k < |w.runs| ensures SameRun(w.runs[k], Apply(w, a).runs[k]) {
      StepAt(w, a, k);
      TouchKeepsRun(w.runs[k], a);
    }
  }

  lemma SameRunsTwice(w: World, u: World, v: World)
    requires SameRuns(w, u) && SameRuns(u, v)
    ensures SameRuns(w, v)
  {
    forall k: nat | k < |w.runs| ensures SameRun(w.runs[k], v.runs[k]) {
      assert SameRun(w.runs[k], u.runs[k]) && SameRun(u.runs[k], v.runs[k]);
    }
  }

  /** The API decided about the account with its `i`-th action, and no run has been submitted since. */
  ghost predicate DecidedAt(trace: seq<Action>, i: nat, account: nat, latest: nat) {
    && i < |trace|
    && trace[i] == Clear(account, latest)
    && Enabled(Run(START, trace[..i]), trace[i])
    && SameRuns(Run(START, trace[..i]), Run(START, trace))
  }

  predicate Decided(w: World) {
    w.doing.Some? && w.doing.value.Clearing?
  }

  lemma DecisionsStay(w: World, a: Action)
    requires Decided(Apply(w, a))
    ensures !a.Submit?
    ensures if a.Clear?
            then Apply(w, a).doing.value == Clearing(a.account, a.latest, a.latest < |w.runs| && Released(w.runs[a.latest]))
            else Decided(w) && Apply(w, a).doing == w.doing
  {
  }

  /** Whatever the API has cleared, it has decided about at some moment. */
  lemma {:induction false} DecisionsWereMade(trace: seq<Action>) returns (i: nat)
    requires Legal(START, trace) && Decided(Run(START, trace))
    ensures var c := Run(START, trace).doing.value; DecidedAt(trace, i, c.account, c.latest)
  {
    hide Enabled, Apply, SameRuns;
    var last := |trace| - 1;
    var front, a := trace[..last], trace[last];
    var w := Run(START, front);
    DecisionsStay(w, a);
    StepKeepsRuns(w, a);
    if a.Clear? {
      i := last;
    } else {
      i := DecisionsWereMade(front);
      assert front[..i] == trace[..i];
      SameRunsTwice(Run(START, front[..i]), w, Run(START, trace));
    }
  }

  lemma {:induction false} PrefixIsFine(trace: seq<Action>, i: nat)
    requires Legal(START, trace) && i <= |trace|
    ensures Legal(START, trace[..i]) && (OrderlyRun(trace) ==> OrderlyRun(trace[..i]))
  {
    if i < |trace| {
      PrefixIsFine(trace[..|trace| - 1], i);
      assert trace[..|trace| - 1][..i] == trace[..i];
    } else {
      assert trace[..i] == trace;
    }
  }

  /** What the API saw when it decided: all runs of the family over, and the speaker releasing a used account. */
  ghost predicate Grounds(w: World, account: nat, latest: nat) {
    && Latest(w, account, latest)
    && (forall k: nat :: k < |w.runs| && InFamily(w, account, k) ==> Terminal(w.runs[k].phase) && !Live(w.runs[k]))
  }

  predicate FullyReleased(s: Slot) {
    s.cleanup == Some(Verified) && s.recovery == Some(false)
  }

  lemma DecisionHasGrounds(trace: seq<Action>, i: nat, account: nat, latest: nat)
    requires Legal(START, trace) && OrderlyRun(trace) && DecidedAt(trace, i, account, latest)
    ensures Grounds(Run(START, trace[..i]), account, latest)
  {
    var w := Run(START, trace[..i]);
    PrefixIsFine(trace, i);
    RunIsSafe(trace[..i]);
    forall k: nat | k < |w.runs| && InFamily(w, account, k) ensures !Live(w.runs[k]) {
      assert SlotOk(w.runs[k]);
    }
  }

  /** A full-mode Job was requested with the account. */
  predicate FullJob(trace: seq<Action>, w: World, account: nat, k: nat) {
    InFamily(w, account, k) && !w.runs[k].spec.nonDestructive && Posts(trace, k) > 0
  }

  lemma {:induction false} ReleaseWasRequired(trace: seq<Action>, k: nat)
    requires Legal(START, trace) && OrderlyRun(trace) && Decided(Run(START, trace))
    requires FullJob(trace, Run(START, trace), Run(START, trace).doing.value.account, k)
    ensures Run(START, trace).doing.value.released
  {
    AtMostOneJob(trace, k);
    RunIsSafe(trace);
    assert AnyUsed(Run(START, trace), Run(START, trace).doing.value.account);
  }

  lemma {:induction false} ReleaseWasSeen(trace: seq<Action>) returns (i: nat)
    requires Legal(START, trace) && Decided(Run(START, trace)) && Run(START, trace).doing.value.released
    ensures var c := Run(START, trace).doing.value;
      DecidedAt(trace, i, c.account, c.latest) && Released(Run(START, trace[..i]).runs[c.latest])
  {
    hide Enabled, Apply, SameRuns;
    var last := |trace| - 1;
    var front, a := trace[..last], trace[last];
    var w := Run(START, front);
    DecisionsStay(w, a);
    StepKeepsRuns(w, a);
    if a.Clear? {
      i := last;
    } else {
      i := ReleaseWasSeen(front);
      assert front[..i] == trace[..i];
      SameRunsTwice(Run(START, front[..i]), w, Run(START, trace));
    }
  }

  /**
   Whenever the API may delete an account, no run that shares it is live, and none can start with it: each is over, can
   never have a Job again, or was not declared ready. The API has decided so at a moment when all of them were over; and
   if a Job of a full-mode run was ever requested with the account, the run that speaks for the family said at that
   moment that its cleanup was verified and that nothing needed to be recovered.
   */
  lemma AccountsAreRetained(trace: seq<Action>, account: nat, latest: nat, k: nat) returns (i: nat)
    requires Legal(START, trace) && OrderlyRun(trace)
    requires Enabled(Run(START, trace), DeleteAccount(account, latest))
    ensures forall j: nat :: InFamily(Run(START, trace), account, j) ==> Idle(Run(START, trace), j)
    ensures DecidedAt(trace, i, account, latest) && Grounds(Run(START, trace[..i]), account, latest)
    ensures FullJob(trace, Run(START, trace), account, k) ==> FullyReleased(Run(START, trace[..i]).runs[latest])
  {
    RunIsSafe(trace);
    var w := Run(START, trace);
    forall j: nat | InFamily(w, account, j) ensures Idle(w, j) {
      ClearedIsIdle(w, j);
      assert SlotOk(w.runs[j]);
    }
    if FullJob(trace, w, account, k) {
      ReleaseWasRequired(trace, k);
      i := ReleaseWasSeen(trace);
      FullSpeaker(trace, i, account, latest, k);
    } else {
      i := DecisionsWereMade(trace);
    }
    DecisionHasGrounds(trace, i, account, latest);
  }

  /** The run is not in the lab, and could not start with its account as things are. */
  predicate Idle(w: World, j: nat)
    requires j < |w.runs|
  {
    !Live(w.runs[j]) && (Quiet(w, j) || !w.runs[j].ready)
  }

  lemma FullSpeaker(trace: seq<Action>, i: nat, account: nat, latest: nat, k: nat)
    requires Legal(START, trace) && OrderlyRun(trace) && DecidedAt(trace, i, account, latest)
    requires FullJob(trace, Run(START, trace), account, k)
    ensures !Run(START, trace[..i]).runs[latest].spec.nonDestructive
  {
    hide Legal, OrderlyRun, Run, SlotsOk, MemoryOk, Exclusive, AccountsOk, ClearedOk, FamiliesOk;
    var w := Run(START, trace[..i]);
    PrefixIsFine(trace, i);
    RunIsSafe(trace[..i]);
    assert SameRun(w.runs[k], Run(START, trace).runs[k]);
    SpeakerIsFull(w, account, latest, k);
  }

  // ---------- where a verified cleanup comes from ----------

  /** The operator takes over a runner's report that its cleanup is verified. */
  predicate Verifies(a: Action, j: nat) {
    a.Report? && a.run == j && a.cleanup == Some(Verified)
  }

  ghost predicate VerifiedBefore(trace: seq<Action>, j: nat) {
    exists i :: 0 <= i < |trace| && Verifies(trace[i], j)
  }

  predicate SaysVerified(w: World, j: nat) {
    j < |w.runs| && w.runs[j].cleanup == Some(Verified) && !w.runs[j].spec.nonDestructive
  }

  lemma OneSource(w: World, a: Action, j: nat)
    requires SaysVerified(Apply(w, a), j)
    ensures SaysVerified(w, j) || Verifies(a, j) || a == TurnDown(j) || Apply(w, a).runs[j].cleaned
    ensures j < |w.runs| && w.runs[j].cleaned ==> Apply(w, a).runs[j].cleaned
  {
    hide Touch;
    if j < |w.runs| {
      StepAt(w, a, j);
      TouchVerifies(w.runs[j], a);
    }
  }

  lemma TouchVerifies(s: Slot, a: Action)
    ensures Touch(s, a).cleanup == Some(Verified) ==>
      s.cleanup == Some(Verified) || a.TurnDown? || a.MarkCleaned? || (a.Report? && a.cleanup == Some(Verified))
    ensures s.cleaned || a.MarkCleaned? ==> Touch(s, a).cleaned
  {
  }

  /** A full-mode run says verified because its runner did, or the API turned it down, or its family is settled. */
  lemma {:induction false} VerificationHasASource(trace: seq<Action>, j: nat)
    requires Legal(START, trace) && SaysVerified(Run(START, trace), j)
    ensures VerifiedBefore(trace, j) || TurnDown(j) in trace || Run(START, trace).runs[j].cleaned
  {
    if trace != [] {
      hide SaysVerified, Verifies;
      var last := |trace| - 1;
      var front, a := trace[..last], trace[last];
      OneSource(Run(START, front), a, j);
      if SaysVerified(Run(START, front), j) {
        VerificationHasASource(front, j);
        SourcesStay(front, trace, j);
      } else {
        LastIsSource(trace, j);
      }
    }
  }

  lemma LastIsSource(trace: seq<Action>, j: nat)
    requires trace != []
    ensures Verifies(trace[|trace| - 1], j) ==> VerifiedBefore(trace, j)
    ensures trace[|trace| - 1] == TurnDown(j) ==> TurnDown(j) in trace
  {
  }

  lemma SourcesStay(front: seq<Action>, trace: seq<Action>, j: nat)
    requires front <= trace
    ensures VerifiedBefore(front, j) ==> VerifiedBefore(trace, j)
    ensures TurnDown(j) in front ==> TurnDown(j) in trace
  {
    if VerifiedBefore(front, j) {
      var i :| 0 <= i < |front| && Verifies(front[i], j);
      assert Verifies(trace[i], j);
    }
  }

  /**
   An account with which a full-mode Job was requested goes only after the runner of the run that speaks for it has
   reported a verified cleanup. The one exception is a speaker that the API has turned down itself.
   */
  lemma DeletionFollowsVerification(trace: seq<Action>, account: nat, latest: nat, k: nat)
    requires Legal(START, trace) && OrderlyRun(trace)
    requires Enabled(Run(START, trace), DeleteAccount(account, latest)) && account in Run(START, trace).accounts
    requires FullJob(trace, Run(START, trace), account, k)
    ensures VerifiedBefore(trace, latest) || TurnDown(latest) in trace
  {
    var i := AccountsAreRetained(trace, account, latest, k);
    var w, u := Run(START, trace[..i]), Run(START, trace);
    FullSpeaker(trace, i, account, latest, k);
    PrefixIsFine(trace, i);
    VerificationHasASource(trace[..i], latest);
    SourcesStay(trace[..i], trace, latest);
    assert SameRun(w.runs[latest], u.runs[latest]);
    RunIsSafe(trace);
    assert AccountOk(u, latest);
  }
}
