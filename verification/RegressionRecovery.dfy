/** When the account that the API offers to recover still exists. */
module RegressionRecovery {
  import opened Wrappers
  import opened RegressionProtocol
  import opened RegressionSafety

  /** The account was used, is gone or about to go, and no run of its family is settled. */
  predicate Doomed(w: World, account: nat) {
    AnyUsed(w, account) && !AnyCleaned(w, account) && (account !in w.accounts || IsClearing(w, account))
  }

  predicate Gone(w: World, account: nat) {
    Doomed(w, account) && account !in w.accounts
  }

  /** Whoever speaks for such an account has released it. */
  ghost predicate SpeakersReleased(w: World) {
    forall account: nat, j: nat :: Latest(w, account, j) && Doomed(w, account) ==> Released(w.runs[j])
  }

  /** The API is not concerned with a run whose account is gone. */
  predicate TendedOk(w: World) {
    w.doing.Some? && w.doing.value.Tending? && w.doing.value.run < |w.runs| ==>
      !Gone(w, w.runs[w.doing.value.run].spec.account)
  }

  ghost predicate RecoveryOk(w: World) {
    SpeakersReleased(w) && TendedOk(w)
  }

  /**
   The one condition, on the operator's reports: the run that speaks for a used account does not take back that it has
   released the account, once the account is gone or being cleaned up.
   */
  predicate KeepsWord(w: World, a: Action) {
    a.Report? && a.run < |w.runs| && Released(w.runs[a.run]) && !Released(Touch(w.runs[a.run], a)) ==>
      var account := w.runs[a.run].spec.account;
      !(Latest(w, account, a.run) && Doomed(w, account))
  }

  ghost predicate WordKept(trace: seq<Action>) {
    trace != [] ==>
      WordKept(trace[..|trace| - 1]) && KeepsWord(Run(START, trace[..|trace| - 1]), trace[|trace| - 1])
  }

  // ---------- who speaks ----------

  lemma OneSpeaker(w: World, account: nat, i: nat, j: nat)
    requires Latest(w, account, i) && Latest(w, account, j)
    ensures i == j
  {
  }

  /** Among the runs of a family of which none is settled, the candidate for recovery is the one that speaks for it. */
  lemma CandidateSpeaks(w: World, account: nat)
    requires FamiliesOk(w) && Offered(w, account) && !AnyCleaned(w, account)
    ensures Latest(w, account, RecoveryCandidate(w).value)
    ensures w.runs[RecoveryCandidate(w).value].recovery == Some(true)
  {
    var c := RecoveryCandidate(w).value;
    assert FamilyOk(w, c);
    forall k: nat | InFamily(w, account, k) ensures Counts(w, account, true, k) {
      assert !w.runs[k].cleaned;
    }
    assert InFamily(w, account, account);
  }

  /** So a released account of which no run is settled is not offered. */
  lemma DoomedIsNotOffered(w: World, account: nat)
    requires FamiliesOk(w) && SpeakersReleased(w) && Doomed(w, account)
    ensures !Offered(w, account)
  {
    if Offered(w, account) {
      CandidateSpeaks(w, account);
    }
  }

  // ---------- how an account comes to be doomed ----------

  lemma UsedBefore(w: World, a: Action, account: nat)
    requires Safe(w) && Enabled(w, a) && AnyUsed(Apply(w, a), account)
    ensures AnyUsed(w, account) || (a.MarkUsed? && account in w.accounts && !IsClearing(w, account))
  {
    hide SlotsOk, Exclusive, FamiliesOk, ClearedOk, Touch, EarlierSettled, Latest, Offered, Lost;
    var u := Apply(w, a);
    var k: nat :| k < |u.runs| && InFamily(u, account, k) && u.runs[k].used;
    if k < |w.runs| {
      StepAt(w, a, k);
      TouchUses(w.runs[k], a);
      assert InFamily(w, account, k);
      if !w.runs[k].used {
        UseIsNotQuiet(w, k);
        assert AccountOk(w, k);
        if IsClearing(w, account) { ClearedIsIdle(w, k); }
      }
    }
  }

  lemma DoomedBefore(w: World, a: Action, account: nat)
    requires Safe(w) && Enabled(w, a) && Doomed(Apply(w, a), account)
    ensures Doomed(w, account) || (a.Clear? && a.account == account && AnyUsed(w, account))
  {
    hide SlotsOk, Exclusive, FamiliesOk, ClearedOk, MemoryOk, AccountsOk, AnyUsed, AnyCleaned, EarlierSettled, Latest, Offered;
    UsedBefore(w, a, account);
    AccountsChange(w, a, account);
    if AnyCleaned(w, account) { CleanedStays(w, a, account); }
  }

  lemma GoneBefore(w: World, a: Action, account: nat)
    requires Safe(w) && Enabled(w, a) && Gone(Apply(w, a), account)
    ensures Gone(w, account) || (IsClearing(w, account) && Doomed(w, account))
  {
    hide SlotsOk, Exclusive, FamiliesOk, ClearedOk, MemoryOk, AccountsOk, AnyUsed, AnyCleaned, EarlierSettled, Latest, Offered;
    UsedBefore(w, a, account);
    AccountsChange(w, a, account);
    if AnyCleaned(w, account) { CleanedStays(w, a, account); }
  }

  // ---------- every orderly step that keeps the word ----------

  lemma NobodyJoins(w: World, a: Action, account: nat)
    requires Safe(w) && SpeakersReleased(w) && a.Submit? && Enabled(w, a) && Doomed(w, account)
    ensures a.spec.account != account
  {
    hide SlotsOk, Exclusive, MemoryOk, AccountsOk, ClearedOk, RecoveryCandidate, AnyCleaned, Latest;
    var k: nat :| k < |w.runs| && InFamily(w, account, k) && w.runs[k].used;
    assert FamilyOk(w, k);
    DoomedIsNotOffered(w, account);
  }

  /** Who speaks for a family changes only with a new run or a new consumer. */
  lemma SpeaksBefore(w: World, a: Action, account: nat, j: nat)
    requires Enabled(w, a) && Latest(Apply(w, a), account, j) && account < |w.runs|
    requires a.Submit? ==> a.spec.account != account
    requires a.Consume? ==> w.runs[a.run].spec.account != account
    ensures Latest(w, account, j)
  {
    hide Touch, EarlierSettled, AnyUsed, Offered, AnyCleaned;
    var u := Apply(w, a);
    assert j < |w.runs|;
    forall k: nat | k < |w.runs| ensures InFamily(w, account, k) <==> InFamily(u, account, k) {
      StepAt(w, a, k);
    }
    StepAt(w, a, account);
    ConsumerAt(w, a, account);
    if a.Submit? { assert forall k: nat :: InFamily(u, account, k) ==> k < |w.runs|; }
  }

  lemma TouchKeepsRelease(s: Slot, a: Action)
    requires Released(s) && !a.Report? && !a.Retain? && !a.MarkCleaned?
    ensures Released(Touch(s, a))
  {
  }

  lemma StaysReleased(w: World, a: Action, account: nat, j: nat)
    requires Safe(w) && RecoveryOk(w) && Enabled(w, a) && KeepsWord(w, a)
    requires Latest(Apply(w, a), account, j) && Doomed(Apply(w, a), account) && Doomed(w, account)
    ensures Released(Apply(w, a).runs[j])
  {
    hide SlotsOk, Exclusive, MemoryOk, AccountsOk, ClearedOk, Touch, EarlierSettled, AnyUsed, AnyCleaned, Latest, Offered;
    DoomedExists(w, account);
    if a.Submit? { NobodyJoins(w, a, account); }
    if a.Consume? { TendedIsNotDoomed(w, a.run); }
    SpeaksBefore(w, a, account, j);
    SpeakerIsOf(w, account, j);
    StepAt(w, a, j);
    if !a.Consume? && Concerns(a, j) {
      if a.Retain? {
        TendedIsNotDoomed(w, j);
      } else if a.MarkCleaned? {
        SettlingCleans(w, a, j);
      } else if !a.Report? {
        TouchKeepsRelease(w.runs[j], a);
      }
    }
  }

  lemma DoomedExists(w: World, account: nat)
    requires FamiliesOk(w) && Doomed(w, account)
    ensures account < |w.runs|
  {
    var k: nat :| k < |w.runs| && InFamily(w, account, k) && w.runs[k].used;
    assert FamilyOk(w, k);
  }

  lemma SpeakerIsOf(w: World, account: nat, j: nat)
    requires Latest(w, account, j)
    ensures j < |w.runs| && w.runs[j].spec.account == account
  {
  }

  lemma TendedIsNotDoomed(w: World, j: nat)
    requires TendedOk(w) && w.doing == Some(Tending(j)) && j < |w.runs|
    ensures !Doomed(w, w.runs[j].spec.account)
  {
  }

  lemma SettlingCleans(w: World, a: Action, j: nat)
    requires a.MarkCleaned? && a.run == j < |w.runs|
    ensures AnyCleaned(Apply(w, a), w.runs[j].spec.account)
  {
    StepAt(w, a, j);
    assert InFamily(Apply(w, a), w.runs[j].spec.account, j);
  }

  lemma SpeakersStayReleased(w: World, a: Action)
    requires Safe(w) && RecoveryOk(w) && Enabled(w, a) && KeepsWord(w, a)
    ensures SpeakersReleased(Apply(w, a))
  {
    hide Safe, Doomed, Released, KeepsWord, AnyUsed;
    forall account: nat, j: nat | Latest(Apply(w, a), account, j) && Doomed(Apply(w, a), account)
      ensures Released(Apply(w, a).runs[j])
    {
      DoomedBefore(w, a, account);
      if Doomed(w, account) {
        StaysReleased(w, a, account, j);
      } else {
        ClearedIsReleased(w, a, j);
      }
    }
  }

  lemma ClearedIsReleased(w: World, a: Action, j: nat)
    requires a.Clear? && Enabled(w, a) && AnyUsed(w, a.account) && Latest(Apply(w, a), a.account, j)
    ensures j < |w.runs| && Apply(w, a).runs == w.runs && Released(w.runs[j])
  {
    var u := Apply(w, a);
    assert forall k: nat :: InFamily(u, a.account, k) <==> InFamily(w, a.account, k);
    OneSpeaker(w, a.account, j, a.latest);
  }

  lemma TendedStaysOk(w: World, a: Action)
    requires Safe(w) && RecoveryOk(w) && Enabled(w, a)
    ensures TendedOk(Apply(w, a))
  {
    hide SlotsOk, Exclusive, MemoryOk, AccountsOk, ClearedOk, Touch, EarlierSettled, AnyUsed, AnyCleaned, Offered;
    hide Released, Latest;
    var u := Apply(w, a);
    if u.doing.Some? && u.doing.value.Tending? && u.doing.value.run < |u.runs| {
      var j := u.doing.value.run;
      var account := u.runs[j].spec.account;
      if Gone(u, account) {
        GoneBefore(w, a, account);
        if a.Submit? {
          NobodyJoins(w, a, account);
        } else {
          StepAt(w, a, j);
        }
      }
    }
  }

  lemma StepKeepsRecovery(w: World, a: Action)
    requires Safe(w) && RecoveryOk(w) && Enabled(w, a) && KeepsWord(w, a)
    ensures RecoveryOk(Apply(w, a))
  {
    hide Safe, Enabled, KeepsWord, SpeakersReleased, TendedOk;
    SpeakersStayReleased(w, a);
    TendedStaysOk(w, a);
  }

  /** The condition is exact: every other report breaks the invariant. */
  lemma RecoveryExactly(w: World, a: Action)
    requires Safe(w) && RecoveryOk(w) && Enabled(w, a)
    ensures RecoveryOk(Apply(w, a)) <==> KeepsWord(w, a)
  {
    hide Safe, RecoveryOk;
    if KeepsWord(w, a) {
      StepKeepsRecovery(w, a);
    } else {
      TakingBackShows(w, a);
    }
  }

  lemma TakingBackShows(w: World, a: Action)
    requires Enabled(w, a) && !KeepsWord(w, a)
    ensures !RecoveryOk(Apply(w, a))
  {
    hide Enabled;
    var u, j := Apply(w, a), a.run;
    var account := w.runs[j].spec.account;
    forall k: nat | k < |w.runs|
      ensures InFamily(w, account, k) <==> InFamily(u, account, k)
      ensures u.runs[k].used == w.runs[k].used && u.runs[k].cleaned == w.runs[k].cleaned
    {
      StepAt(w, a, k);
    }
    StepAt(w, a, j);
    StepAt(w, a, account);
    assert Latest(u, account, j) && Doomed(u, account);
  }

  lemma {:induction false} RunKeepsRecovery(trace: seq<Action>)
    requires Legal(START, trace) && OrderlyRun(trace) && WordKept(trace)
    ensures RecoveryOk(Run(START, trace))
  {
    if trace != [] {
      var front := trace[..|trace| - 1];
      RunKeepsRecovery(front);
      RunIsSafe(front);
      StepKeepsRecovery(Run(START, front), trace[|trace| - 1]);
    }
  }

  /**
   In every state of an orderly run in which recovery is offered for an account that was used, the account exists if
   and only if no run of its family is settled; provided that no speaker has taken back a release too late.
   */
  lemma OfferedAccountExists(trace: seq<Action>, account: nat)
    requires Legal(START, trace) && OrderlyRun(trace) && WordKept(trace)
    requires Offered(Run(START, trace), account) && AnyUsed(Run(START, trace), account)
    ensures account in Run(START, trace).accounts <==> !AnyCleaned(Run(START, trace), account)
  {
    var w := Run(START, trace);
    RunIsSafe(trace);
    RunKeepsRecovery(trace);
    if AnyCleaned(w, account) {
      var k: nat :| k < |w.runs| && InFamily(w, account, k) && w.runs[k].cleaned;
      assert AccountOk(w, k);
    } else if account !in w.accounts {
      DoomedIsNotOffered(w, account);
    }
  }
}
