/** One run at a time, each with its account. */
module RegressionSafety {
  import opened Wrappers
  import opened RegressionProtocol

  /**
   The conditions under which an action keeps the invariant below. A run that is over and was never used may be
   reported as recovering only if nothing has been built on its being over; the registered identities do not change
   under a running Job; the API does not give up on a run that the operator may still start in its pass, or has
   started; and the cluster ends a Job only when its Pods are gone. Nothing else is asked of the operator, the API or
   the cluster, and no less would do (`RegressionExactness`).
   */
  predicate Orderly(w: World, a: Action) {
    match a
    case Recover(j) => j < |w.runs| ==> Reopens(w, j)
    case Refuse(j) => j < |w.runs| ==> !Unfinished(w.runs[j])
    case Abandon(j) => j < |w.runs| ==> MayBeGivenUp(w, j)
    case JobFinishes(j, _) => j < |w.runs| ==> !w.runs[j].pods
    case JobVanishes(j) => j < |w.runs| ==> !w.runs[j].pods
    case _ => true
  }

  /**
   The run is not over, or can never start again, or can be open again: no later run has a Job, and its account, if it
   was declared ready, is kept.
   */
  predicate Reopens(w: World, j: nat)
    requires j < |w.runs|
  {
    var s := w.runs[j];
    || !Terminal(s.phase) || Closed(w, j)
    || (&& (s.ready ==> s.spec.account in w.accounts && !IsClearing(w, s.spec.account))
        && forall k: nat :: j < k < |w.runs| ==> !Unfinished(w.runs[k]))
  }

  /** The run has no Job, and the operator cannot request one in its present pass. */
  predicate MayBeGivenUp(w: World, j: nat)
    requires j < |w.runs|
  {
    var s := w.runs[j];
    !Unfinished(s) && (s.spec.valid && s.ready && j in w.listed ==> Spent(w, j))
  }

  ghost predicate OrderlyRun(trace: seq<Action>) {
    trace != [] ==> OrderlyRun(trace[..|trace| - 1]) && Orderly(Run(START, trace[..|trace| - 1]), trace[|trace| - 1])
  }

  // ---------- the invariant ----------

  /** A run that is over has no Job; Pods have a Job; a Job means that its account is ready and in use. */
  predicate SlotOk(s: Slot) {
    && (s.pods ==> Unfinished(s))
    && (Terminal(s.phase) ==> !Unfinished(s))
    && (Unfinished(s) ==> s.spec.valid && s.used && s.ready)
  }

  ghost predicate SlotsOk(w: World) {
    forall j: nat :: j < |w.runs| ==> SlotOk(w.runs[j])
  }

  /** What the operator remembers within a pass: a listed run can only be over if it can never start again. */
  ghost predicate MemoryOk(w: World) {
    && (forall j: nat :: j in w.listed ==> ListedOk(w, j))
    && (w.armed.Some? ==> ArmedOk(w, w.armed.value))
  }

  predicate ListedOk(w: World, j: nat) {
    j < |w.runs| && (Terminal(w.runs[j].phase) ==> Closed(w, j))
  }

  predicate ArmedOk(w: World, j: nat) {
    && j in w.listed && j < |w.runs| && w.runs[j].used && w.runs[j].ready && w.runs[j].spec.valid
    && EarlierSettled(w, j)
  }

  /** Whatever was created before a run with a Job is over, or can never have a Job again. */
  ghost predicate Exclusive(w: World) {
    forall i: nat, j: nat :: i < j < |w.runs| && Unfinished(w.runs[j]) ==> Quiet(w, i)
  }

  /** The account of a run that is ready and can still start exists, and that of a settled run does not. */
  ghost predicate AccountsOk(w: World) {
    forall j: nat :: j < |w.runs| ==> AccountOk(w, j)
  }

  predicate AccountOk(w: World, j: nat)
    requires j < |w.runs|
  {
    && (w.runs[j].ready && !Quiet(w, j) ==> w.runs[j].spec.account in w.accounts)
    && (w.runs[j].cleaned ==> w.runs[j].spec.account !in w.accounts && Quiet(w, j))
  }

  /** The runs of an account that is being cleaned up cannot start with it, and it was released if it was ever used. */
  ghost predicate ClearedOk(w: World) {
    w.doing.Some? && w.doing.value.Clearing? ==>
      && (forall k: nat :: k < |w.runs| && InFamily(w, w.doing.value.account, k) ==> Quiet(w, k) || !w.runs[k].ready)
      && (AnyUsed(w, w.doing.value.account) ==> w.doing.value.released)
  }

  ghost predicate FamiliesOk(w: World) {
    forall j: nat :: j < |w.runs| ==> FamilyOk(w, j)
  }

  /** Accounts are borrowed from older runs that own theirs, by full-mode runs only. */
  ghost predicate FamilyOk(w: World, j: nat)
    requires j < |w.runs|
  {
    var original := w.runs[j].spec.account;
    && original <= j
    && w.runs[original].spec.account == original
    && (original < j ==> !w.runs[j].spec.nonDestructive)
    && (w.runs[j].consumer.Some? ==> j < w.runs[j].consumer.value)
  }

  ghost predicate Safe(w: World) {
    SlotsOk(w) && MemoryOk(w) && Exclusive(w) && AccountsOk(w) && ClearedOk(w) && FamiliesOk(w)
  }

  // ---------- what is quiet stays quiet ----------

  lemma CleanedStays(w: World, a: Action, account: nat)
    requires AnyCleaned(w, account)
    ensures AnyCleaned(Apply(w, a), account)
  {
    var k: nat :| k < |w.runs| && InFamily(w, account, k) && w.runs[k].cleaned;
    StepAt(w, a, k);
    TouchOnlyAdds(w.runs[k], a);
    assert InFamily(Apply(w, a), account, k);
  }

  lemma TouchOnlyAdds(s: Slot, a: Action)
    ensures var t := Touch(s, a);
      (s.cleaned ==> t.cleaned) && (s.ready ==> t.ready) && (s.used ==> t.used) && (s.abandoned ==> t.abandoned)
  {
    hide Touch;
    TouchKeepsReady(s, a);
    TouchKeepsUse(s, a);
  }

  lemma TouchKeepsReady(s: Slot, a: Action)
    ensures (s.cleaned ==> Touch(s, a).cleaned) && (s.ready ==> Touch(s, a).ready)
  {
  }

  lemma TouchKeepsUse(s: Slot, a: Action)
    ensures (s.used ==> Touch(s, a).used) && (s.abandoned ==> Touch(s, a).abandoned)
  {
  }

  lemma TouchReadies(s: Slot, a: Action)
    ensures !s.ready && Touch(s, a).ready ==> a.MarkReady?
  {
  }

  lemma TouchStartsNoJob(s: Slot, a: Action)
    ensures !Unfinished(s) && Unfinished(Touch(s, a)) ==> a.PostJob?
  {
  }

  lemma LostStays(w: World, a: Action, account: nat)
    requires Enabled(w, a) && Lost(w, account)
    ensures Lost(Apply(w, a), account)
  {
    hide Touch, EarlierSettled, Latest, AnyUsed, Offered;
    StepAt(w, a, account);
    TouchOnlyAdds(w.runs[account], a);
    if AnyCleaned(w, account) { CleanedStays(w, a, account); }
  }

  /** Nothing at all starts a run that can never start again. */
  lemma ClosedStays(w: World, a: Action, j: nat)
    requires Enabled(w, a) && j < |w.runs| && Closed(w, j)
    ensures j < |Apply(w, a).runs| && Closed(Apply(w, a), j)
  {
    hide Touch, EarlierSettled, Latest, AnyUsed, Offered, Lost;
    StepAt(w, a, j);
    TouchOnlyAdds(w.runs[j], a);
    TouchReadies(w.runs[j], a);
    TouchStartsNoJob(w.runs[j], a);
    if Lost(w, w.runs[j].spec.account) {
      LostStays(w, a, w.runs[j].spec.account);
      assert w.runs[j].spec.account !in w.accounts by { LostIsGone(w, w.runs[j].spec.account); }
    }
  }

  lemma LostIsGone(w: World, account: nat)
    requires Lost(w, account)
    ensures account !in w.accounts
  {
  }

  // ---------- every orderly step keeps the invariant ----------

  lemma ArmedIsNotQuiet(w: World, j: nat)
    requires MemoryOk(w) && w.armed == Some(j)
    ensures j < |w.runs| && !Quiet(w, j)
  {
    assert ListedOk(w, j);
  }

  /** Only a report that a run is over, or a reopening, changes whether it is over. */
  lemma TouchKeepsOver(s: Slot, a: Action)
    requires Terminal(s.phase) && !Terminal(Touch(s, a).phase)
    ensures a.Recover? || (a.Report? && !Terminal(a.phase))
  {
  }

  /** What is quiet stays so, but for a run that a failed read reopens. */
  lemma QuietStays(w: World, a: Action, j: nat)
    requires Safe(w) && Enabled(w, a) && j < |w.runs| && Quiet(w, j)
    ensures j < |Apply(w, a).runs|
    ensures Quiet(Apply(w, a), j) || (a == Recover(j) && !Closed(w, j))
  {
    hide SlotsOk, Exclusive, AccountsOk, ClearedOk, FamiliesOk, Touch, EarlierSettled, Latest, AnyUsed, Offered, Lost;
    if Closed(w, j) {
      ClosedStays(w, a, j);
    } else {
      StepAt(w, a, j);
      if !Terminal(Apply(w, a).runs[j].phase) {
        TouchKeepsOver(w.runs[j], a);
        assert a.Report? ==> ListedOk(w, j);
      }
    }
  }

  lemma TouchKeepsSlot(s: Slot, a: Action)
    requires SlotOk(s)
    requires a.PostJob? ==> s.used && s.ready && s.spec.valid && !Terminal(s.phase)
    requires a.Report? && Terminal(a.phase) ==> !Unfinished(s)
    requires a.Refuse? || a.Abandon? ==> !Unfinished(s)
    requires a.TurnDown? ==> !s.ready
    requires a.PodStarts? ==> Unfinished(s)
    requires a.JobFinishes? || a.JobVanishes? ==> !s.pods
    requires a.ForeignJob? ==> s.job.None?
    ensures SlotOk(Touch(s, a))
  {
  }

  lemma SlotKept(w: World, a: Action, j: nat)
    requires Safe(w) && Enabled(w, a) && Orderly(w, a) && j < |w.runs|
    ensures j < |Apply(w, a).runs| && SlotOk(Apply(w, a).runs[j])
  {
    hide Exclusive, AccountsOk, ClearedOk, FamiliesOk, Touch, EarlierSettled, Latest, AnyUsed, Offered, Closed, Reopens;
    assert SlotOk(w.runs[j]);
    StepAt(w, a, j);
    if !a.Consume? && Concerns(a, j) {
      if a.PostJob? { ArmedIsNotQuiet(w, j); }
      TouchKeepsSlot(w.runs[j], a);
    }
  }

  lemma SlotsKept(w: World, a: Action)
    requires Safe(w) && Enabled(w, a) && Orderly(w, a)
    ensures SlotsOk(Apply(w, a))
  {
    hide Safe, Enabled, Orderly;
    forall j: nat | j < |Apply(w, a).runs| ensures SlotOk(Apply(w, a).runs[j]) {
      if j < |w.runs| { SlotKept(w, a, j); }
    }
  }

  /** A Job appears only by being requested. */
  lemma JobsAreRequested(w: World, a: Action, j: nat)
    requires j < |w.runs| && Unfinished(Apply(w, a).runs[j])
    ensures Unfinished(w.runs[j]) || a == PostJob(j)
  {
    hide Touch, Apply;
    StepAt(w, a, j);
    if !a.Consume? && Concerns(a, j) { TouchStartsNoJob(w.runs[j], a); }
  }

  lemma EarlierAreQuiet(w: World, j: nat, i: nat)
    requires AccountsOk(w) && i < j <= |w.runs| && EarlierSettled(w, j)
    ensures Quiet(w, i)
  {
    assert AccountOk(w, i);
  }

  lemma ExclusiveKept(w: World, a: Action)
    requires Safe(w) && Enabled(w, a) && Orderly(w, a)
    ensures Exclusive(Apply(w, a))
  {
    hide Closed, Touch, SlotsOk, MemoryOk, AccountsOk, ClearedOk, FamiliesOk, Apply, EarlierSettled, Quiet;
    forall i: nat, j: nat | i < j < |Apply(w, a).runs| && Unfinished(Apply(w, a).runs[j])
      ensures Quiet(Apply(w, a), i)
    {
      if j < |w.runs| {
        JobsAreRequested(w, a, j);
        if !Unfinished(w.runs[j]) { EarlierAreQuiet(w, j, i); }
        QuietStays(w, a, i);
        if a == Recover(i) && !Closed(w, i) { OverOrClosed(w, i); }
      } else {
        NewIsNotUnfinished(w, a, j);
      }
    }
  }

  lemma OverOrClosed(w: World, i: nat)
    requires i < |w.runs| && Quiet(w, i) && !Closed(w, i)
    ensures Terminal(w.runs[i].phase)
  {
  }

  lemma NewIsNotUnfinished(w: World, a: Action, j: nat)
    requires |w.runs| <= j < |Apply(w, a).runs|
    ensures a.Submit? && j == |w.runs| && Apply(w, a).runs[j] == Fresh(a.spec)
  {
  }

  /** Only a report that ends a run, or a refusal, makes the operator strike it off its list. */
  lemma TouchKeepsOpen(s: Slot, a: Action)
    requires !Terminal(s.phase) && Terminal(Touch(s, a).phase)
    ensures a.Refuse? || a.Abandon? || a.TurnDown? || (a.Report? && Terminal(a.phase))
  {
    assert !Terminal(Recovering);
    hide Terminal;
  }

  lemma ListedKept(w: World, a: Action, j: nat)
    requires Safe(w) && Enabled(w, a) && Orderly(w, a) && j in Listed(w, a)
    ensures ListedOk(Apply(w, a), j)
  {
    hide SlotsOk, Exclusive, AccountsOk, ClearedOk, FamiliesOk, Touch, EarlierSettled, Latest, AnyUsed, Offered;
    hide Lost, Reopens;
    if a.List? {
      assert Apply(w, a).runs == w.runs;
    } else {
      assert ListedOk(w, j);
      StepAt(w, a, j);
      if Closed(w, j) {
        ClosedStays(w, a, j);
      } else if Terminal(Apply(w, a).runs[j].phase) {
        TouchKeepsOpen(w.runs[j], a);
        GivenUpIsClosed(w, a, j);
      }
    }
  }

  lemma GivenUpIsClosed(w: World, a: Action, j: nat)
    requires Enabled(w, a) && Orderly(w, a) && j < |w.runs| && j in w.listed
    requires a == Abandon(j) || a == TurnDown(j)
    ensures Closed(Apply(w, a), j)
  {
    StepAt(w, a, j);
  }

  lemma ArmedKept(w: World, a: Action)
    requires Safe(w) && Enabled(w, a) && Orderly(w, a) && Armed(w, a).Some?
    ensures ArmedOk(Apply(w, a), Armed(w, a).value)
  {
    hide SlotsOk, Exclusive, AccountsOk, ClearedOk, FamiliesOk, Touch, Latest, AnyUsed, Offered, Lost, Closed, Reopens;
    var j := Armed(w, a).value;
    assert j in Listed(w, a);
    StepAt(w, a, j);
    TouchOnlyAdds(w.runs[j], a);
    if a == MarkUsed(j) { assert Apply(w, a).runs[j] == Touch(w.runs[j], a); MarkingUses(w.runs[j], a); }
    forall i | 0 <= i < j ensures Terminal(Apply(w, a).runs[i].phase) || Apply(w, a).runs[i].cleaned {
      StepAt(w, a, i);
      TouchOnlyAdds(w.runs[i], a);
      if Terminal(w.runs[i].phase) && !Terminal(Touch(w.runs[i], a).phase) { TouchKeepsOver(w.runs[i], a); }
    }
  }

  lemma MarkingUses(s: Slot, a: Action)
    requires a.MarkUsed?
    ensures Touch(s, a).used
  {
  }

  lemma MemoryKept(w: World, a: Action)
    requires Safe(w) && Enabled(w, a) && Orderly(w, a)
    ensures MemoryOk(Apply(w, a))
  {
    hide Safe, Enabled, Orderly, ListedOk, ArmedOk;
    forall j: nat | j in Listed(w, a) ensures ListedOk(Apply(w, a), j) {
      ListedKept(w, a, j);
    }
    if Armed(w, a).Some? {
      ArmedKept(w, a);
    }
  }

  /** The accounts that change, and why. */
  lemma AccountsChange(w: World, a: Action, account: nat)
    requires Enabled(w, a)
    ensures account in w.accounts && account !in Accounts(w, a) ==> IsClearing(w, account)
    ensures account !in w.accounts && account in Accounts(w, a) ==> !AnyCleaned(w, account) && !a.MarkCleaned?
  {
  }

  lemma ClearedIsIdle(w: World, j: nat)
    requires ClearedOk(w) && j < |w.runs| && IsClearing(w, w.runs[j].spec.account)
    ensures Quiet(w, j) || !w.runs[j].ready
  {
    assert InFamily(w, w.doing.value.account, j);
  }

  /** A run that was never ready can never be once its family is settled. */
  lemma SettledIsClosed(w: World, j: nat)
    requires FamiliesOk(w) && j < |w.runs| && w.runs[j].cleaned && w.runs[j].spec.account !in w.accounts
    ensures !w.runs[j].ready ==> Closed(w, j)
  {
    assert FamilyOk(w, j);
    assert InFamily(w, w.runs[j].spec.account, j);
    assert AnyCleaned(w, w.runs[j].spec.account);
  }

  lemma ReadyKeepsAccount(w: World, a: Action, j: nat)
    requires Safe(w) && Enabled(w, a) && Orderly(w, a) && j < |w.runs|
    ensures var u := Apply(w, a); u.runs[j].ready && !Quiet(u, j) ==> u.runs[j].spec.account in u.accounts
  {
    hide SlotsOk, Exclusive, MemoryOk, FamiliesOk, ClearedOk, Touch, EarlierSettled, Latest, AnyUsed, Offered, Lost, Closed;
    assert AccountOk(w, j);
    StepAt(w, a, j);
    TouchReadies(w.runs[j], a);
    AccountsChange(w, a, w.runs[j].spec.account);
    if Quiet(w, j) { QuietStays(w, a, j); }
    if IsClearing(w, w.runs[j].spec.account) { ClearedIsIdle(w, j); }
  }

  lemma CleanedIsGone(w: World, a: Action, j: nat)
    requires Safe(w) && Enabled(w, a) && Orderly(w, a) && j < |w.runs|
    ensures var u := Apply(w, a); u.runs[j].cleaned ==> u.runs[j].spec.account !in u.accounts && Quiet(u, j)
  {
    hide SlotsOk, Exclusive, MemoryOk, ClearedOk, FamiliesOk, Touch, EarlierSettled, Latest, AnyUsed, Offered, Lost, Closed;
    hide AnyCleaned;
    var u := Apply(w, a);
    assert AccountOk(w, j);
    StepAt(w, a, j);
    TouchSettles(w.runs[j], a);
    AccountsChange(w, a, w.runs[j].spec.account);
    if w.runs[j].cleaned {
      CleanedCounts(w, j);
      SettledIsClosed(w, j);
      QuietStays(w, a, j);
    } else if u.runs[j].cleaned {
      ClearedIsIdle(w, j);
      FamiliesKept(w, a);
      SettledIsClosed(u, j);
      if Quiet(w, j) { QuietStays(w, a, j); }
      ReadyOrNot(w.runs[j], a);
    }
  }

  lemma ReadyOrNot(s: Slot, a: Action)
    requires a.MarkCleaned?
    ensures Touch(s, a).ready == s.ready
  {
  }

  lemma CleanedCounts(w: World, j: nat)
    requires j < |w.runs| && w.runs[j].cleaned
    ensures AnyCleaned(w, w.runs[j].spec.account)
  {
    assert InFamily(w, w.runs[j].spec.account, j);
  }

  lemma TouchSettles(s: Slot, a: Action)
    ensures Touch(s, a).cleaned ==> s.cleaned || a.MarkCleaned?
  {
  }

  lemma AccountsKept(w: World, a: Action)
    requires Safe(w) && Enabled(w, a) && Orderly(w, a)
    ensures AccountsOk(Apply(w, a))
  {
    hide Safe, Enabled, Orderly, Quiet;
    forall j: nat | j < |Apply(w, a).runs| ensures AccountOk(Apply(w, a), j) {
      if j < |w.runs| {
        ReadyKeepsAccount(w, a, j);
        CleanedIsGone(w, a, j);
      }
    }
  }

  /** While an account is being cleaned up, nobody starts to use it. */
  lemma UseIsOld(w: World, a: Action, account: nat)
    requires Safe(w) && Enabled(w, a) && IsClearing(w, account) && !a.Submit? && AnyUsed(Apply(w, a), account)
    ensures AnyUsed(w, account)
  {
    hide SlotsOk, Exclusive, AccountsOk, FamiliesOk, Touch, EarlierSettled, Latest, Offered, Lost;
    var k: nat :| k < |Apply(w, a).runs| && InFamily(Apply(w, a), account, k) && Apply(w, a).runs[k].used;
    StepAt(w, a, k);
    assert InFamily(w, account, k);
    if !w.runs[k].used {
      TouchUses(w.runs[k], a);
      UseIsNotQuiet(w, k);
      ClearedIsIdle(w, k);
    }
  }

  lemma UseIsNotQuiet(w: World, k: nat)
    requires MemoryOk(w) && Enabled(w, MarkUsed(k))
    ensures !Quiet(w, k) && w.runs[k].ready
  {
    assert ListedOk(w, k);
  }

  lemma TouchUses(s: Slot, a: Action)
    ensures Touch(s, a).used ==> s.used || a.MarkUsed?
  {
  }

  lemma IdleStays(w: World, a: Action, account: nat, k: nat)
    requires Safe(w) && Enabled(w, a) && Orderly(w, a) && IsClearing(w, account) && IsClearing(Apply(w, a), account)
    requires !a.Clear? && k < |w.runs| && w.runs[k].spec.account == account
    ensures Quiet(Apply(w, a), k) || !Apply(w, a).runs[k].ready
  {
    hide SlotsOk, Exclusive, AccountsOk, MemoryOk, FamiliesOk, ClearedOk, Touch, EarlierSettled, Latest, AnyUsed, Offered;
    hide Lost, Closed;
    ClearedIsIdle(w, k);
    StepAt(w, a, k);
    TouchReadies(w.runs[k], a);
    if Quiet(w, k) { QuietStays(w, a, k); }
  }

  lemma ClearedKept(w: World, a: Action)
    requires Safe(w) && Enabled(w, a) && Orderly(w, a)
    ensures ClearedOk(Apply(w, a))
  {
    hide SlotsOk, Exclusive, AccountsOk, MemoryOk, FamiliesOk, Touch, EarlierSettled, AnyUsed, Offered, Closed;
    var u := Apply(w, a);
    if u.doing.Some? && u.doing.value.Clearing? {
      var account := u.doing.value.account;
      if a.Clear? {
        assert u.runs == w.runs;
        ClearSeesAll(w, u, account);
      } else {
        assert u.doing == w.doing && |u.runs| == |w.runs|;
        forall k: nat | k < |u.runs| && InFamily(u, account, k) ensures Quiet(u, k) || !u.runs[k].ready {
          StepAt(w, a, k);
          IdleStays(w, a, account, k);
        }
        if AnyUsed(u, account) { UseIsOld(w, a, account); }
      }
    }
  }

  lemma ClearSeesAll(w: World, u: World, account: nat)
    requires u.runs == w.runs
    ensures AnyUsed(u, account) <==> AnyUsed(w, account)
    ensures forall k: nat :: InFamily(u, account, k) <==> InFamily(w, account, k)
  {
    assert forall k: nat :: InFamily(u, account, k) <==> InFamily(w, account, k);
  }

  lemma FamilyKept(w: World, a: Action, j: nat)
    requires FamiliesOk(w) && Enabled(w, a) && j < |w.runs|
    ensures FamilyOk(Apply(w, a), j)
  {
    hide Touch, Latest, AnyUsed, Offered, EarlierSettled;
    assert FamilyOk(w, j);
    StepAt(w, a, j);
    ConsumerAt(w, a, j);
    StepAt(w, a, w.runs[j].spec.account);
  }

  lemma FamiliesKept(w: World, a: Action)
    requires FamiliesOk(w) && Enabled(w, a)
    ensures FamiliesOk(Apply(w, a))
  {
    hide Touch, Latest, AnyUsed, Offered, EarlierSettled;
    forall j: nat | j < |Apply(w, a).runs| ensures FamilyOk(Apply(w, a), j) {
      if j < |w.runs| {
        FamilyKept(w, a, j);
      } else if a.spec.account < j {
        FamilyKept(w, a, a.spec.account);
      }
    }
  }

  lemma StepIsSafe(w: World, a: Action)
    requires Safe(w) && Enabled(w, a) && Orderly(w, a)
    ensures Safe(Apply(w, a))
  {
    hide SlotsOk, MemoryOk, Exclusive, AccountsOk, ClearedOk, FamiliesOk, Enabled, Orderly;
    SlotsKept(w, a);
    MemoryKept(w, a);
    ExclusiveKept(w, a);
    AccountsKept(w, a);
    ClearedKept(w, a);
    FamiliesKept(w, a);
  }

  lemma {:induction false} RunIsSafe(trace: seq<Action>)
    requires Legal(START, trace) && OrderlyRun(trace)
    ensures Safe(Run(START, trace))
  {
    if trace != [] {
      RunIsSafe(trace[..|trace| - 1]);
      StepIsSafe(Run(START, trace[..|trace| - 1]), trace[|trace| - 1]);
    }
  }

  // ---------- mutual exclusion ----------

  lemma LiveIsNotQuiet(w: World, j: nat)
    requires SlotsOk(w) && j < |w.runs| && Live(w.runs[j])
    ensures Unfinished(w.runs[j]) && !Quiet(w, j) && w.runs[j].ready
  {
    assert SlotOk(w.runs[j]);
  }

  lemma SafeIsExclusive(w: World, i: nat, j: nat)
    requires Safe(w) && i < |w.runs| && j < |w.runs| && Live(w.runs[i]) && Live(w.runs[j])
    ensures i == j
    ensures forall k: nat :: k < j ==> Quiet(w, k)
  {
    hide MemoryOk, AccountsOk, ClearedOk, FamiliesOk, Quiet;
    LiveIsNotQuiet(w, i);
    LiveIsNotQuiet(w, j);
    assert forall k: nat :: k < i ==> Quiet(w, k);
    assert forall k: nat :: k < j ==> Quiet(w, k);
  }

  /**
   In every state that an orderly run reaches, at most one run occupies the lab, and every run created before it
   is over, or can never have a Job again.
   */
  lemma OneRunAtATime(trace: seq<Action>, i: nat, j: nat)
    requires Legal(START, trace) && OrderlyRun(trace)
    requires var w := Run(START, trace); i < |w.runs| && j < |w.runs| && Live(w.runs[i]) && Live(w.runs[j])
    ensures i == j
    ensures forall k: nat :: k < j ==> Quiet(Run(START, trace), k)
  {
    RunIsSafe(trace);
    SafeIsExclusive(Run(START, trace), i, j);
  }

  lemma SafeHasAccount(w: World, j: nat)
    requires Safe(w) && j < |w.runs| && Live(w.runs[j])
    ensures w.runs[j].spec.account in w.accounts
  {
    hide MemoryOk, Exclusive, ClearedOk, FamiliesOk, Quiet;
    LiveIsNotQuiet(w, j);
    assert AccountOk(w, j);
  }

  /** A run that occupies the lab has its account. */
  lemma LiveRunsHaveTheirAccount(trace: seq<Action>, j: nat)
    requires Legal(START, trace) && OrderlyRun(trace)
    requires j < |Run(START, trace).runs| && Live(Run(START, trace).runs[j])
    ensures Run(START, trace).runs[j].spec.account in Run(START, trace).accounts
  {
    RunIsSafe(trace);
    SafeHasAccount(Run(START, trace), j);
  }

  /** What the lab is promised: one run at a time, and each with its account. */
  ghost predicate Promised(w: World) {
    && (forall i: nat, j: nat :: i < |w.runs| && j < |w.runs| && Live(w.runs[i]) && Live(w.runs[j]) ==> i == j)
    && (forall j: nat :: j < |w.runs| && Live(w.runs[j]) ==> w.runs[j].spec.account in w.accounts)
  }

  lemma SafeIsPromised(w: World)
    requires Safe(w)
    ensures Promised(w)
  {
    hide Safe;
    forall i: nat, j: nat | i < |w.runs| && j < |w.runs| && Live(w.runs[i]) && Live(w.runs[j]) ensures i == j {
      SafeIsExclusive(w, i, j);
    }
    forall j: nat | j < |w.runs| && Live(w.runs[j]) ensures w.runs[j].spec.account in w.accounts {
      SafeHasAccount(w, j);
    }
  }
}
