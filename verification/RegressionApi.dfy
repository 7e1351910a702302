/** The dashboard API's side of regression runs: which run speaks for an account, and when the account may go. */
module RegressionApi {
  import opened Wrappers
  import opened RegressionProtocol
  import opened RegressionSafety

  datatype ApiError = Conflict | Unavailable

  /**
   What became of a family in a pass: cleaned up, tried in vain, left because its speaker is not over, or left because
   its speaker is settled.
   */
  datatype Outcome = Done | Refused | NotOver | SettledBefore

  /** Among all runs of an account, the choice is the one that the protocol speaks of. */
  lemma LatestFamilySpeaks(w: World, account: nat, j: nat)
    requires FamiliesOk(w) && j < |w.runs| && w.runs[j].spec.account == account
    ensures LatestFamily(w, account, false).Some? && Latest(w, account, LatestFamily(w, account, false).value)
  {
    assert FamilyOk(w, j);
    assert forall k: nat :: InFamily(w, account, k) <==> Counts(w, account, false, k);
    assert Counts(w, account, false, j) && Counts(w, account, false, account);
  }

  ghost predicate Pending(w: World, k: nat) {
    k < |w.runs| && !w.runs[k].cleaned
  }

  /** The consumer on record of an account, if both that and the run of the account itself are pending. */
  ghost predicate PendingConsumer(w: World, account: nat, c: nat) {
    && Pending(w, account) && w.runs[account].spec.account == account && w.runs[account].consumer == Some(c)
    && Pending(w, c) && w.runs[c].spec.account == account
  }

  /**
   The run needs recovery, and is the one to take over from: everything pending is over and uses one account, and it is
   the consumer on record, or else the youngest.
   */
  ghost predicate ToBeRecovered(w: World, j: nat) {
    && Pending(w, j) && w.runs[j].recovery == Some(true)
    && (forall k: nat :: Pending(w, k) ==> Terminal(w.runs[k].phase) && w.runs[k].spec.account == w.runs[j].spec.account)
    && if exists c: nat :: PendingConsumer(w, w.runs[j].spec.account, c) then PendingConsumer(w, w.runs[j].spec.account, j)
       else forall k: nat :: Pending(w, k) ==> k <= j
  }

  /** Where everything pending uses one account, the selection is what it should be. */
  lemma SpeaksForPending(w: World, account: nat, latest: nat)
    requires LatestFamily(w, account, true) == Some(latest)
    requires forall k: nat :: Counts(w, account, true, k) <==> Pending(w, k)
    ensures Pending(w, latest) && w.runs[latest].spec.account == account
    ensures if exists c: nat :: PendingConsumer(w, account, c) then PendingConsumer(w, account, latest)
            else forall k: nat :: Pending(w, k) ==> k <= latest
    ensures forall j: nat ::
      (if exists c: nat :: PendingConsumer(w, account, c) then PendingConsumer(w, account, j)
       else Pending(w, j) && forall k: nat :: Pending(w, k) ==> k <= j) ==> j == latest
  {
    assert Counts(w, account, true, latest);
    if c: nat :| PendingConsumer(w, account, c) {
      assert Counts(w, account, true, account) && Counts(w, account, true, c);
    } else if Counts(w, account, true, account) && w.runs[account].consumer.Some?
              && Counts(w, account, true, w.runs[account].consumer.value) {
      assert PendingConsumer(w, account, w.runs[account].consumer.value);
    }
  }

  lemma CandidateExactly(w: World, j: nat)
    ensures RecoveryCandidate(w) == Some(j) <==> ToBeRecovered(w, j)
  {
    var first := FirstPending(w, |w.runs|);
    if first.Some? && OnlyPendingAccount(w, w.runs[first.value].spec.account) {
      var account := w.runs[first.value].spec.account;
      assert forall k: nat :: Counts(w, account, true, k) <==> Pending(w, k);
      assert Counts(w, account, true, first.value);
      SpeaksForPending(w, account, LatestFamily(w, account, true).value);
    } else if ToBeRecovered(w, j) {
      assert first.Some? && Pending(w, first.value);
      assert false;
    }
  }

  /** The consumer on record of an account, if it uses that. */
  ghost predicate IsConsumer(w: World, account: nat, c: nat) {
    && account < |w.runs| && w.runs[account].spec.account == account && w.runs[account].consumer == Some(c)
    && c < |w.runs| && w.runs[c].spec.account == account
  }

  /** The run speaks for its account: it is the consumer on record, or else the youngest run that uses it. */
  ghost predicate Speaks(w: World, account: nat, j: nat) {
    && j < |w.runs| && w.runs[j].spec.account == account
    && if exists c: nat :: IsConsumer(w, account, c) then IsConsumer(w, account, j)
       else forall k: nat :: k < |w.runs| && w.runs[k].spec.account == account ==> k <= j
  }

  lemma SpeaksExactly(w: World, account: nat, j: nat)
    ensures LatestFamily(w, account, false) == Some(j) <==> Speaks(w, account, j)
  {
    assert forall k: nat :: Counts(w, account, false, k) <==> k < |w.runs| && w.runs[k].spec.account == account;
    assert forall c: nat :: IsConsumer(w, account, c) ==> Counts(w, account, false, account) && Counts(w, account, false, c);
    if Counts(w, account, false, account) && w.runs[account].consumer.Some?
       && Counts(w, account, false, w.runs[account].consumer.value) {
      assert IsConsumer(w, account, w.runs[account].consumer.value);
    }
  }

  /** As long as an account that was ever used exists and is offered for recovery, it cannot be cleaned up. */
  lemma RecoveryExcludesDeletion(w: World, account: nat, latest: nat)
    requires Safe(w) && RecoveryCandidate(w).Some? && w.runs[RecoveryCandidate(w).value].spec.account == account
    requires AnyUsed(w, account) && account in w.accounts
    ensures !Enabled(w, Clear(account, latest))
  {
    hide SlotsOk, MemoryOk, Exclusive, ClearedOk;
    var candidate := RecoveryCandidate(w).value;
    assert FamilyOk(w, candidate);
    forall k: nat | InFamily(w, account, k) ensures !w.runs[k].cleaned {
      assert AccountOk(w, k);
    }
    if Latest(w, account, latest) {
      SpeakerIsUnique(w, account, latest, candidate);
    }
  }

  lemma SpeakerIsUnique(w: World, account: nat, a: nat, b: nat)
    requires FamiliesOk(w) && Latest(w, account, a) && LatestFamily(w, account, true) == Some(b)
    requires forall k: nat :: InFamily(w, account, k) ==> !w.runs[k].cleaned
    ensures a == b
  {
    assert FamilyOk(w, a);
    assert Counts(w, account, true, account) && Counts(w, account, true, a);
  }

  // ---------- what the operator and the cluster can do meanwhile ----------

  /** The API serialises its own changes, so while it cleans up only the others act; cancelling is not serialised. */
  predicate Apis(a: Action) {
    || a.Submit? || a.CreateAccount? || a.MarkReady? || a.Consume? || a.Abandon? || a.TurnDown? || a.Withhold?
    || a.Retain? || a.Clear? || a.DeleteAccount? || a.MarkCleaned?
  }

  /** What only the API changes about a run. */
  predicate RunKept(s: Slot, t: Slot) {
    t.spec == s.spec && t.consumer == s.consumer && t.cleaned == s.cleaned
  }

  ghost predicate Kept(w: World, u: World) {
    && |w.runs| == |u.runs| && u.accounts == w.accounts && u.doing == w.doing
    && forall j: nat :: j < |w.runs| ==> RunKept(w.runs[j], u.runs[j])
  }

  lemma OthersKeep(w: World, a: Action)
    requires !Apis(a)
    ensures Kept(w, Apply(w, a))
  {
    hide Touch;
    forall j: nat | j < |w.runs| ensures RunKept(w.runs[j], Apply(w, a).runs[j]) {
      StepAt(w, a, j);
      TouchKeepsRun(w.runs[j], a);
    }
  }

  lemma TouchKeepsRun(s: Slot, a: Action)
    requires !a.MarkCleaned?
    ensures RunKept(s, Touch(s, a))
  {
  }

  lemma KeptTwice(w: World, u: World, v: World)
    requires Kept(w, u) && Kept(u, v)
    ensures Kept(w, v)
  {
    forall j: nat | j < |w.runs| ensures RunKept(w.runs[j], v.runs[j]) {
      assert RunKept(w.runs[j], u.runs[j]) && RunKept(u.runs[j], v.runs[j]);
    }
  }

  /** The API is cleaning up this account. */
  predicate CleansUp(w: World, account: nat, run: nat) {
    IsClearing(w, account) && w.doing.value.latest == run
  }

  // ---------- what the API checks before it removes anything ----------

  /** No Pods of a run are active; the Secret is that of the account, and so is the identity. */
  datatype Check = NoPods(run: nat) | SecretIsOwn | IdentityIsOwn

  /** A check that was passed, after so many actions. */
  datatype Pass = Pass(check: Check, at: nat)

  predicate Removing(a: Action) {
    a.DeleteAccount? || a.MarkCleaned?
  }

  /** In between, nothing has been removed, and no run has been marked as settled. */
  ghost predicate Idle(before: seq<Action>, after: seq<Action>) {
    before <= after && forall i :: |before| <= i < |after| ==> !Removing(after[i])
  }

  /** In between, the check was passed, after `n` actions at most. */
  ghost predicate HasPassed(before: seq<Pass>, after: seq<Pass>, check: Check, n: nat) {
    exists m :: |before| <= m < |after| && after[m].check == check && after[m].at <= n
  }

  ghost predicate AllPassed(before: seq<Pass>, after: seq<Pass>, w: World, account: nat, n: nat) {
    && HasPassed(before, after, SecretIsOwn, n) && HasPassed(before, after, IdentityIsOwn, n)
    && QuietPassed(before, after, w, account, n)
  }

  ghost predicate QuietPassed(before: seq<Pass>, after: seq<Pass>, w: World, account: nat, n: nat) {
    forall k: nat :: k < |w.runs| && w.runs[k].spec.account == account ==> HasPassed(before, after, NoPods(k), n)
  }

  /** Whatever has been removed meanwhile was removed after all checks had been passed. */
  ghost predicate CheckedFirst(before: seq<Action>, after: seq<Action>, start: seq<Pass>, end: seq<Pass>,
                               w: World, account: nat) {
    forall i :: |before| <= i < |after| && Removing(after[i]) ==> AllPassed(start, end, w, account, i)
  }

  lemma IdleTwice(a: seq<Action>, b: seq<Action>, c: seq<Action>)
    requires Idle(a, b) && Idle(b, c)
    ensures Idle(a, c) && Unmarked(a, c)
  {
  }

  lemma IdleIsUnmarked(a: seq<Action>, b: seq<Action>)
    requires Idle(a, b)
    ensures Unmarked(a, b)
  {
  }

  lemma IdleIsChecked(before: seq<Action>, after: seq<Action>, start: seq<Pass>, end: seq<Pass>, w: World, account: nat)
    requires Idle(before, after)
    ensures CheckedFirst(before, after, start, end, w, account)
  {
  }

  lemma PassedLater(before: seq<Pass>, first: seq<Pass>, middle: seq<Pass>, after: seq<Pass>, n: nat)
    requires before <= first && middle <= after
    ensures forall c, m: nat :: HasPassed(first, middle, c, n) && n <= m ==> HasPassed(before, after, c, m)
  {
    forall c, m: nat | HasPassed(first, middle, c, n) && n <= m ensures HasPassed(before, after, c, m) {
      var i :| |first| <= i < |middle| && middle[i].check == c && middle[i].at <= n;
      assert after[i] == middle[i];
    }
  }

  lemma IdleItself(trace: seq<Action>)
    ensures Idle(trace, trace)
  {
  }

  lemma BothPassed(before: seq<Pass>, after: seq<Pass>, n: nat)
    requires after == before + [Pass(SecretIsOwn, n)] + [Pass(IdentityIsOwn, n)]
    ensures HasPassed(before, after, SecretIsOwn, n) && HasPassed(before, after, IdentityIsOwn, n)
  {
    assert after[|before|].check == SecretIsOwn && after[|before| + 1].check == IdentityIsOwn;
  }

  lemma PassesOne(before: seq<Pass>, middle: seq<Pass>, check: Check, n: nat)
    requires before <= middle
    ensures HasPassed(before, middle + [Pass(check, n)], check, n)
  {
    assert (middle + [Pass(check, n)])[|middle|] == Pass(check, n);
  }

  /** The family was found quiet first, and then both parts of the account its own; only then was anything removed. */
  lemma ChecksAreFirst(a: seq<Action>, b: seq<Action>, c: seq<Action>, d: seq<Action>,
                       start: seq<Pass>, quiet: seq<Pass>, end: seq<Pass>, w: World, account: nat)
    requires Idle(a, b) && Idle(b, c) && c <= d
    requires start <= quiet <= end && QuietPassed(start, quiet, w, account, |b|)
    requires HasPassed(quiet, end, SecretIsOwn, |c|) && HasPassed(quiet, end, IdentityIsOwn, |c|)
    ensures CheckedFirst(a, d, start, end, w, account)
  {
    PassedLater(start, start, quiet, end, |b|);
    PassedLater(start, quiet, end, end, |c|);
    IdleTwice(a, b, c);
    hide HasPassed;
    assert forall k :: |a| <= k < |c| ==> d[k] == c[k] && !Removing(d[k]);
    forall i | |a| <= i < |d| && Removing(d[i]) ensures AllPassed(start, end, w, account, i) {
      assert |b| <= |c| <= i;
    }
  }

  // ---------- what the API writes when it settles a family ----------

  /** In between, runs have been marked as settled only with these values. */
  ghost predicate OnlyMarks(before: seq<Action>, after: seq<Action>, recovery: Option<bool>, cleanup: Option<Cleanup>) {
    && before <= after
    && forall i :: |before| <= i < |after| && after[i].MarkCleaned? ==> after[i] == MarkCleaned(after[i].run, recovery, cleanup)
  }

  /** In between, no run has been marked as settled. */
  ghost predicate Unmarked(before: seq<Action>, after: seq<Action>) {
    before <= after && forall i :: |before| <= i < |after| ==> !after[i].MarkCleaned?
  }

  ghost predicate Marked(before: seq<Action>, after: seq<Action>, run: nat, recovery: Option<bool>, cleanup: Option<Cleanup>) {
    exists i :: |before| <= i < |after| && after[i] == MarkCleaned(run, recovery, cleanup)
  }

  ghost predicate FamilyMarked(w: World, before: seq<Action>, after: seq<Action>, account: nat,
                               recovery: Option<bool>, cleanup: Option<Cleanup>) {
    forall k: nat :: InFamily(w, account, k) ==> Marked(before, after, k, recovery, cleanup)
  }

  lemma UnmarkedTwice(a: seq<Action>, b: seq<Action>, c: seq<Action>)
    requires Unmarked(a, b) && Unmarked(b, c)
    ensures Unmarked(a, c)
  {
  }

  lemma MarksAfter(a: seq<Action>, b: seq<Action>, c: seq<Action>, recovery: Option<bool>, cleanup: Option<Cleanup>)
    requires OnlyMarks(a, b, recovery, cleanup) && OnlyMarks(b, c, recovery, cleanup)
    ensures OnlyMarks(a, c, recovery, cleanup)
    ensures forall k: nat :: Marked(a, b, k, recovery, cleanup) || Marked(b, c, k, recovery, cleanup)
              ==> Marked(a, c, k, recovery, cleanup)
  {
    forall k: nat | Marked(a, b, k, recovery, cleanup) ensures Marked(a, c, k, recovery, cleanup) {
      var i :| |a| <= i < |b| && b[i] == MarkCleaned(k, recovery, cleanup);
      assert c[i] == b[i];
    }
  }

  lemma UnmarkedIsOnly(a: seq<Action>, b: seq<Action>, recovery: Option<bool>, cleanup: Option<Cleanup>)
    requires Unmarked(a, b)
    ensures OnlyMarks(a, b, recovery, cleanup)
  {
  }

  /**
   What the family is settled with: that no recovery is required, if the account was still there; and that the cleanup
   is verified, if the account was never used, or else what the speaker said about it.
   */
  ghost predicate SettledWith(w: World, before: seq<Action>, after: seq<Action>, account: nat, run: nat, done: bool)
    requires run < |w.runs|
  {
    var recovery := if account in w.accounts then Some(false) else None;
    var used := exists k: nat :: k < |w.runs| && w.runs[k].spec.account == account && w.runs[k].used;
    var cleanup := if used then w.runs[run].cleanup else Some(Verified);
    && OnlyMarks(before, after, recovery, cleanup)
    && (done ==> FamilyMarked(w, before, after, account, recovery, cleanup))
  }

  lemma MarksNothing(trace: seq<Action>, recovery: Option<bool>, cleanup: Option<Cleanup>)
    ensures OnlyMarks(trace, trace, recovery, cleanup)
  {
  }

  lemma SettlesNothing(w: World, before: seq<Action>, after: seq<Action>, account: nat, run: nat)
    requires run < |w.runs| && Unmarked(before, after)
    ensures SettledWith(w, before, after, account, run, false)
  {
  }

  lemma SettlesAll(listing: World, w: World, before: seq<Action>, middle: seq<Action>, after: seq<Action>, account: nat,
                   run: nat, recovery: Option<bool>, cleanup: Option<Cleanup>, done: bool)
    requires run < |listing.runs| && SameSpecs(listing, w)
    requires recovery == (if account in listing.accounts then Some(false) else None)
    requires cleanup == (if AnyUsed(listing, account) then listing.runs[run].cleanup else Some(Verified))
    requires Unmarked(before, middle) && OnlyMarks(middle, after, recovery, cleanup)
    requires done ==> FamilyMarked(w, middle, after, account, recovery, cleanup)
    ensures SettledWith(listing, before, after, account, run, done)
  {
    UnmarkedIsOnly(before, middle, recovery, cleanup);
    MarksAfter(before, middle, after, recovery, cleanup);
    hide OnlyMarks, Marked, Unmarked;
    if done {
      forall k: nat | InFamily(listing, account, k) ensures Marked(before, after, k, recovery, cleanup) {
        assert InFamily(w, account, k);
      }
    }
  }

  lemma SpecsAreSame(w: World, u: World)
    requires u.runs == w.runs
    ensures SameSpecs(w, u)
  {
  }

  lemma SettlesLater(w: World, before: seq<Action>, middle: seq<Action>, after: seq<Action>, account: nat, run: nat,
                     done: bool)
    requires run < |w.runs| && Unmarked(before, middle) && SettledWith(w, middle, after, account, run, done)
    ensures SettledWith(w, before, after, account, run, done)
  {
    var recovery := if account in w.accounts then Some(false) else None;
    var cleanup := if AnyUsed(w, account) then w.runs[run].cleanup else Some(Verified);
    SpecsAreSame(w, w);
    SettlesAll(w, w, before, middle, after, account, run, recovery, cleanup, done);
  }

  lemma SpecsStay(listing: World, w: World, u: World, account: nat)
    requires SameSpecs(listing, w) && Tidied(w, u, account)
    ensures SameSpecs(listing, u)
  {
    forall k: nat | k < |w.runs| ensures u.runs[k].spec == w.runs[k].spec {
      assert RunSettling(w.runs[k], u.runs[k], account);
    }
  }

  /** The family is over, and if the account was used, the speaker needs no recovery and has a verified cleanup. */
  ghost predicate MayGo(w: World, account: nat, run: nat)
    requires run < |w.runs|
  {
    && (forall k: nat :: k < |w.runs| && w.runs[k].spec.account == account ==> Terminal(w.runs[k].phase))
    && ((exists k: nat :: k < |w.runs| && w.runs[k].spec.account == account && w.runs[k].used) ==>
          w.runs[run].recovery == Some(false) && (w.runs[run].spec.nonDestructive || w.runs[run].cleanup == Some(Verified)))
  }

  lemma MayGoExactly(w: World, account: nat, run: nat)
    requires Latest(w, account, run)
    ensures Enabled(w, Clear(account, run)) <==> MayGo(w, account, run)
    ensures Terminal(w.runs[run].phase) ==> (MayGo(w, account, run) <==> Releasable(w, account, run))
    ensures Terminal(w.runs[run].phase) ==>
      (Releasable(w, account, run) <==>
         OthersAreOver(w, account, run) && (AnyUsed(w, account) ==> Released(w.runs[run])))
  {
  }

  lemma GoingIsOver(w: World, account: nat, run: nat)
    requires run < |w.runs| && w.runs[run].spec.account == account
    ensures MayGo(w, account, run) ==> Terminal(w.runs[run].phase)
  {
  }

  class RegressionApi {
    /** Whether all calls succeed and all checks outside the runs pass. */
    const smooth: bool
    var world: World
    ghost var trace: seq<Action>
    ghost var checks: seq<Pass>

    ghost predicate Valid()
      reads `world, `trace
    {
      Legal(START, trace) && OrderlyRun(trace) && Run(START, trace) == world && Safe(world)
    }

    constructor (smooth: bool)
      ensures Valid() && world == START && this.smooth == smooth
    {
      this.smooth := smooth;
      world := START;
      trace, checks := [], [];
    }

    method Perform(a: Action)
      requires Valid() && Enabled(world, a) && Orderly(world, a)
      modifies `world, `trace
      ensures Valid() && world == Apply(old(world), a) && trace == old(trace) + [a]
    {
      LegalExtends(trace, a);
      assert (trace + [a])[..|trace|] == trace;
      StepIsSafe(world, a);
      trace := trace + [a];
      world := Apply(world, a);
    }

    /** Anything the operator and the cluster may do, in any number, can happen before a call. */
    method Others()
      requires Valid()
      modifies `world, `trace
      ensures Valid() && Kept(old(world), world) && Idle(old(trace), trace)
    {
      var steps: nat := *;
      while steps > 0
        invariant Valid() && Kept(old(world), world) && Idle(old(trace), trace)
      {
        var a: Action := *;
        if !Apis(a) && Enabled(world, a) && Orderly(world, a) {
          OthersKeep(world, a);
          KeptTwice(old(world), world, Apply(world, a));
          Perform(a);
        }
        steps := steps - 1;
      }
    }

    /** A write that may fail, with or without having been carried out. */
    method Call(a: Action) returns (r: Result<(), ApiError>)
      requires Valid() && Enabled(world, a) && Orderly(world, a)
      modifies `world, `trace
      ensures Valid()
      ensures || (world == old(world) && trace == old(trace) && r.Err?)
              || (world == Apply(old(world), a) && trace == old(trace) + [a])
      ensures smooth ==> r.Ok?
    {
      var arrives: bool, answers: bool := *, *;
      if !arrives && !smooth { return Err(Unavailable); }
      Perform(a);
      return if answers || smooth then Ok(()) else Err(Unavailable);
    }

    method Answers() returns (r: Result<(), ApiError>)
      ensures smooth ==> r.Ok?
    {
      var answers: bool := *;
      return if answers || smooth then Ok(()) else Err(Unavailable);
    }

    /** A check of something outside the runs, as to who owns a Secret or an identity; it may refuse or fail. */
    method Checked(check: Check) returns (r: Result<(), ApiError>)
      modifies `checks
      ensures checks == old(checks) + if r.Ok? then [Pass(check, |trace|)] else []
      ensures smooth ==> r.Ok?
    {
      var passes: bool, error: ApiError := *, *;
      if !passes && !smooth { return Err(error); }
      checks := checks + [Pass(check, |trace|)];
      return Ok(());
    }

    /** No Pods of the run are active. */
    method CheckPods(run: nat) returns (r: Result<(), ApiError>)
      requires run < |world.runs|
      modifies `checks
      ensures checks == old(checks) + if r.Ok? then [Pass(NoPods(run), |trace|)] else []
      ensures r.Ok? ==> !world.runs[run].pods
      ensures smooth && !world.runs[run].pods ==> r.Ok?
    {
      var answers: bool := *;
      if !answers && !smooth { return Err(Unavailable); }
      if world.runs[run].pods { return Err(Conflict); }
      checks := checks + [Pass(NoPods(run), |trace|)];
      return Ok(());
    }

    /** No member of the listed family has an active Pod, and all but the given run are listed as over. */
    method FamilyIsQuiet(listing: World, account: nat, run: nat) returns (r: Result<(), ApiError>)
      requires Valid() && |listing.runs| == |world.runs|
      modifies `world, `trace, `checks
      ensures Valid() && Kept(old(world), world) && Idle(old(trace), trace)
      ensures old(checks) <= checks && (r.Ok? ==> QuietPassed(old(checks), checks, listing, account, |trace|))
      ensures r.Ok? ==> OthersAreOver(listing, account, run)
      ensures smooth && CleansUp(old(world), account, run) && SameSpecs(listing, old(world)) ==>
        (r.Ok? <==> OthersAreOver(listing, account, run))
    {
      hide Legal, OrderlyRun, Run, Safe, HasPassed, Idle;
      IdleItself(trace);
      var k := 0;
      while k < |listing.runs|
        invariant Valid() && Kept(old(world), world) && k <= |listing.runs| == |world.runs|
        invariant Idle(old(trace), trace) && old(checks) <= checks
        invariant forall i: nat :: i < k && InFamily(listing, account, i) ==> HasPassed(old(checks), checks, NoPods(i), |trace|)
        invariant forall i: nat :: i < k && InFamily(listing, account, i) && i != run ==> Terminal(listing.runs[i].phase)
      {
        if listing.runs[k].spec.account == account {
          ghost var before, heard := world, trace;
          Others();
          KeptTwice(old(world), before, world);
          ClearedHasNoPods(listing, old(world), world, account, run, k);
          IdleTwice(old(trace), heard, trace);
          PassedLater(old(checks), old(checks), checks, checks, |heard|);
          ghost var passed := checks;
          r := CheckPods(k);
          if r.Err? { return; }
          PassedLater(old(checks), old(checks), passed, checks, |trace|);
          PassesOne(old(checks), passed, NoPods(k), |trace|);
          if k != run && !Terminal(listing.runs[k].phase) { return Err(Conflict); }
        }
        k := k + 1;
      }
      return Ok(());
    }

    /** Marks the runs of a family as settled, one by one, in any order. */
    method Settle(account: nat, run: nat, recovery: Option<bool>, cleanup: Option<Cleanup>)
      returns (r: Result<(), ApiError>)
      requires Valid() && CleansUp(world, account, run) && account !in world.accounts
      modifies `world, `trace
      ensures Valid() && Settling(old(world), world, account)
      ensures r.Ok? ==> AllCleaned(world, account)
      ensures OnlyMarks(old(trace), trace, recovery, cleanup)
      ensures r.Ok? ==> FamilyMarked(old(world), old(trace), trace, account, recovery, cleanup)
      ensures smooth ==> r.Ok?
    {
      hide Legal, OrderlyRun, Run, Safe, OnlyMarks, Marked;
      MarksNothing(trace, recovery, cleanup);
      var rest := set k: nat | k < |world.runs| && InFamily(world, account, k) :: k;
      while rest != {}
        invariant Valid() && Settling(old(world), world, account)
        invariant forall k: nat :: k in rest ==> InFamily(world, account, k)
        invariant forall k: nat :: InFamily(world, account, k) && k !in rest ==> world.runs[k].cleaned
        invariant OnlyMarks(old(trace), trace, recovery, cleanup)
        invariant forall k: nat :: InFamily(old(world), account, k) && k !in rest ==>
          Marked(old(trace), trace, k, recovery, cleanup)
        decreases |rest|
      {
        var k :| k in rest;
        ghost var before, marked := world, trace;
        r := SettleOne(account, run, k, recovery, cleanup);
        MarksAfter(old(trace), marked, trace, recovery, cleanup);
        SettlesTwice(old(world), before, world, account);
        if r.Err? { return; }
        StaysCleaned(before, world, account, rest);
        rest := rest - {k};
      }
      return Ok(());
    }

    method SettleOne(account: nat, run: nat, k: nat, recovery: Option<bool>, cleanup: Option<Cleanup>)
      returns (r: Result<(), ApiError>)
      requires Valid() && CleansUp(world, account, run) && account !in world.accounts && InFamily(world, account, k)
      modifies `world, `trace
      ensures Valid() && Settling(old(world), world, account)
      ensures r.Ok? ==> world.runs[k].cleaned
      ensures OnlyMarks(old(trace), trace, recovery, cleanup)
      ensures r.Ok? ==> Marked(old(trace), trace, k, recovery, cleanup)
      ensures smooth ==> r.Ok?
    {
      hide Legal, OrderlyRun, Run, Safe;
      Others();
      assert RunKept(old(world).runs[k], world.runs[k]);
      KeptSettles(old(world), world, account);
      var a := MarkCleaned(k, recovery, cleanup);
      MarkingSettles(world, a, account);
      SettlesTwice(old(world), world, Apply(world, a), account);
      ghost var before := trace;
      r := Call(a);
      if trace != before { assert trace[|before|] == a; }
    }

    /** The family's use of its account must be cleaned up and recovered; if not, the account is marked as retained. */
    method RequireReleased(listing: World, account: nat, run: nat) returns (r: Result<(), ApiError>)
      requires Valid() && run < |listing.runs| == |world.runs|
      requires AnyUsed(listing, account) && !Released(listing.runs[run]) ==> world.doing == Some(Tending(run))
      modifies `world, `trace
      ensures Valid() && world.accounts == old(world).accounts && |world.runs| == |old(world).runs|
      ensures r.Ok? <==> (AnyUsed(listing, account) ==> Released(listing.runs[run]))
      ensures r.Ok? ==> world == old(world)
      ensures r.Err? ==> NothingSettled(old(world), world)
      ensures Tidied(old(world), world, account)
      ensures r.Err? ==> world == old(world) || world.runs[run].recovery == Some(true)
      ensures Idle(old(trace), trace)
    {
      hide Legal, OrderlyRun, Run, Safe;
      TidyItself(world, account);
      if !AnyUsed(listing, account) || Released(listing.runs[run]) { return Ok(()); }
      WritingTidies(world, Retain(run), account);
      var retained := Call(Retain(run));
      return Err(Conflict);
    }

    /** Both parts of the account go: the identity, if it exists, and the Secret. */
    method Remove(account: nat, run: nat) returns (r: Result<(), ApiError>)
      requires Valid() && CleansUp(world, account, run)
      modifies `world, `trace
      ensures Valid() && CleansUp(world, account, run) && Tidied(old(world), world, account)
      ensures Unmarked(old(trace), trace)
      ensures r.Ok? ==> account !in world.accounts
      ensures smooth ==> r.Ok?
    {
      hide Legal, OrderlyRun, Run, Safe, Tidied;
      var hasIdentity: bool := *;
      TidyItself(world, account);
      if hasIdentity {
        WritingTidies(world, DeleteAccount(account, run), account);
        r := Call(DeleteAccount(account, run));
        if r.Err? { return; }
        ghost var before := world;
        Others();
        KeptTidies(before, world, account);
        TidiedTwice(old(world), before, world, account);
      }
      WritingTidies(world, DeleteAccount(account, run), account);
      TidiedTwice(old(world), world, Apply(world, DeleteAccount(account, run)), account);
      r := Call(DeleteAccount(account, run));
    }

    /**
     Cleans up after the family of a run that is over and speaks for it. The account disappears, and the runs become
     settled, only if all runs of the family were over when they were listed and the speaker then said that nothing
     needs the account any more; success means that all of it is done.
     */
    method CleanUp(account: nat, run: nat) returns (r: Result<(), ApiError>)
      requires Valid() && Latest(world, account, run) && Terminal(world.runs[run].phase)
      modifies `world, `trace, `checks
      ensures Valid() && Tidied(old(world), world, account)
      ensures !Enabled(old(world), Clear(account, run)) ==> r.Err? && NothingSettled(old(world), world)
      ensures r.Ok? ==> account !in world.accounts && AllCleaned(world, account)
      ensures smooth && Enabled(old(world), Clear(account, run)) ==> r.Ok?
      ensures r.Ok? ==> MayGo(old(world), account, run)
      ensures smooth && MayGo(old(world), account, run) ==> r.Ok?
      ensures SettledWith(old(world), old(trace), trace, account, run, r.Ok?)
      ensures CheckedFirst(old(trace), trace, old(checks), checks, old(world), account)
    {
      hide Legal, OrderlyRun, Run, Safe, Tidied, SettledWith, SameSpecs, MayGo, Unmarked, AllCleaned;
      hide Idle, HasPassed, QuietPassed, CheckedFirst, Kept;
      var listing := world;
      MayGoExactly(world, account, run);
      hide Enabled, Latest, Releasable, OthersAreOver, AnyUsed, Released;
      SpecsAreSame(listing, listing);
      Decide(account, run);
      ghost var decided, asked := world, trace;
      SpecsAreSame(listing, decided);
      r := RequireReleasable(listing, account, run);
      TidiedTwice(old(world), decided, world, account);
      IdleTwice(old(trace), asked, trace);
      SettlesNothing(listing, old(trace), trace, account, run);
      IdleIsChecked(old(trace), trace, old(checks), checks, listing, account);
      if r.Err? { return; }
      ghost var allowed, quiet, passed := world, trace, checks;
      var there := CheckOwnership(account, run);
      KeptTidies(allowed, world, account);
      KeptMeans(allowed, world);
      TidiedTwice(old(world), allowed, world, account);
      IdleTwice(old(trace), quiet, trace);
      SettlesNothing(listing, old(trace), trace, account, run);
      IdleIsChecked(old(trace), trace, old(checks), checks, listing, account);
      if there.Err? { return Err(there.error); }
      ghost var checkedAt, before := world, trace;
      SpecsStay(listing, decided, allowed, account);
      SpecsStay(listing, allowed, world, account);
      r := CleanUpAccount(listing, account, run, there.value);
      TidiedTwice(old(world), checkedAt, world, account);
      SettlesLater(listing, old(trace), before, trace, account, run, r.Ok?);
      ChecksAreFirst(old(trace), quiet, before, trace, old(checks), passed, checks, listing, account);
    }

    /** The two checks before anything is removed. */
    method RequireReleasable(listing: World, account: nat, run: nat) returns (r: Result<(), ApiError>)
      requires Valid() && run < |listing.runs| == |world.runs| && Terminal(listing.runs[run].phase)
      requires SameSpecs(listing, world)
      requires AnyUsed(listing, account) && !Released(listing.runs[run]) ==> world.doing == Some(Tending(run))
      modifies `world, `trace, `checks
      ensures Valid() && Tidied(old(world), world, account) && NothingSettled(old(world), world)
      ensures Idle(old(trace), trace) && old(checks) <= checks
      ensures r.Ok? ==> QuietPassed(old(checks), checks, listing, account, |trace|)
      ensures r.Ok? ==> Releasable(listing, account, run) && world.doing == old(world).doing
      ensures smooth && CleansUp(old(world), account, run) && Releasable(listing, account, run) ==> r.Ok?
    {
      hide Legal, OrderlyRun, Run, Safe, Kept, Tidied, SameSpecs, AnyUsed, Released;
      r := FamilyIsQuiet(listing, account, run);
      KeptMeans(old(world), world);
      KeptTidies(old(world), world, account);
      if r.Err? { return; }
      ghost var quiet, heard := world, trace;
      r := RequireReleased(listing, account, run);
      IdleTwice(old(trace), heard, trace);
      PassedLater(old(checks), old(checks), checks, checks, |heard|);
      TidiedTwice(old(world), quiet, world, account);
    }

    /** What the listing says about the account: it may be cleaned up, needs recovery, or neither. */
    method Decide(account: nat, run: nat)
      requires Valid() && Latest(world, account, run) && Terminal(world.runs[run].phase)
      modifies `world, `trace
      ensures Valid() && Tidied(old(world), world, account) && NothingSettled(old(world), world)
      ensures Releasable(old(world), account, run) ==> CleansUp(world, account, run)
      ensures AnyUsed(old(world), account) && !Released(old(world).runs[run]) ==> world.doing == Some(Tending(run))
      ensures world.runs == old(world).runs && world.accounts == old(world).accounts && Idle(old(trace), trace)
    {
      hide Legal, OrderlyRun, Run, Safe;
      TidyItself(world, account);
      if Releasable(world, account, run) {
        WritingTidies(world, Clear(account, run), account);
        Perform(Clear(account, run));
      } else if AnyUsed(world, account) && !Released(world.runs[run]) {
        WritingTidies(world, Withhold(run), account);
        Perform(Withhold(run));
      }
    }

    /** The Secret, if there is one, must be that of the account, and the identity its own. */
    method CheckOwnership(account: nat, run: nat) returns (r: Result<bool, ApiError>)
      requires Valid() && CleansUp(world, account, run)
      modifies `world, `trace, `checks
      ensures Valid() && Kept(old(world), world) && Idle(old(trace), trace) && old(checks) <= checks
      ensures r.Ok? ==> (r.value <==> account in world.accounts)
      ensures r.Ok? ==> HasPassed(old(checks), checks, SecretIsOwn, |trace|)
                        && HasPassed(old(checks), checks, IdentityIsOwn, |trace|)
      ensures smooth ==> r.Ok?
    {
      hide Legal, OrderlyRun, Run, Safe;
      Others();
      var secret := Checked(SecretIsOwn);
      if secret.Err? { return Err(secret.error); }
      var there := account in world.accounts;
      var identity := Checked(IdentityIsOwn);
      if identity.Err? { return Err(identity.error); }
      BothPassed(old(checks), checks, |trace|);
      return Ok(there);
    }

    /** The account goes, if it is there, and the family is settled. */
    method CleanUpAccount(listing: World, account: nat, run: nat, there: bool) returns (r: Result<(), ApiError>)
      requires Valid() && CleansUp(world, account, run) && run < |listing.runs| && SameSpecs(listing, world)
      requires there == (account in world.accounts) == (account in listing.accounts)
      modifies `world, `trace
      ensures Valid() && Tidied(old(world), world, account) && old(trace) <= trace
      ensures r.Ok? ==> account !in world.accounts && AllCleaned(world, account)
      ensures SettledWith(listing, old(trace), trace, account, run, r.Ok?)
      ensures smooth ==> r.Ok?
    {
      hide Legal, OrderlyRun, Run, Safe, Tidied, Settling, AllCleaned, SettledWith, FamilyMarked, SameSpecs;
      TidyItself(world, account);
      var cleanup := if AnyUsed(listing, account) then listing.runs[run].cleanup else Some(Verified);
      if there {
        r := Remove(account, run);
        SettlesNothing(listing, old(trace), trace, account, run);
        if r.Err? { return; }
      }
      ghost var second, middle := world, trace;
      SpecsStay(listing, old(world), second, account);
      r := Settle(account, run, if there then Some(false) else None, cleanup);
      SettlingTidies(second, world, account);
      TidiedTwice(old(world), second, world, account);
      SettlesAll(listing, second, old(trace), middle, trace, account, run, if there then Some(false) else None, cleanup, r.Ok?);
    }

    /**
     Every family is tried whose speaker is over and not settled; a failure does not stop the others. Those that are
     done are settled as a whole. A family whose speaker is settled is left as it is, even if others of its runs are
     not. A family and its speaker are read at once.
     */
    method CleanUpFinished() returns (r: Result<(), ApiError>, outcomes: map<nat, Outcome>)
      requires Valid()
      modifies `world, `trace, `checks
      ensures Valid() && world.accounts <= old(world).accounts && (smooth ==> r.Ok?)
      ensures r.Ok? ==> outcomes.Keys == Owners(old(world))
      ensures forall account :: account in outcomes && outcomes[account] == Done ==>
        account !in world.accounts && AllCleaned(world, account)
      ensures forall account :: account in outcomes && outcomes[account] == SettledBefore ==>
        SpeakerIsSettled(old(world), account)
      ensures forall account :: SpeakerIsSettled(old(world), account) ==> NoneSettled(old(world), world, account)
    {
      hide Legal, OrderlyRun, Run, Safe, Kept, PassedBy, Owners, SpeakerIsSettled, NoneSettled, AllCleaned;
      outcomes := map[];
      Others();
      PassBegins(old(world), world);
      var listed := Answers();
      if listed.Err? {
        PassedMeans(old(world), world, Owners(old(world)), outcomes);
        return Err(Unavailable), outcomes;
      }
      var accounts := Owners(world);
      while accounts != {}
        invariant Valid() && PassedBy(old(world), world, accounts, outcomes)
        decreases |accounts|
      {
        var account :| account in accounts;
        ghost var before := world;
        Others();
        PassGoesOn(old(world), before, world, accounts, outcomes);
        ghost var looked := world;
        var outcome := CleanUpFamily(account);
        FamilyPasses(old(world), looked, world, accounts, outcomes, account, outcome);
        accounts, outcomes := accounts - {account}, outcomes[account := outcome];
      }
      PassedMeans(old(world), world, {}, outcomes);
      return Ok(()), outcomes;
    }

    /** One family in the pass: if nothing fails, it is done exactly when it is to be. */
    method CleanUpFamily(account: nat) returns (outcome: Outcome)
      requires Valid()
      modifies `world, `trace, `checks
      ensures Valid() && Tidied(old(world), world, account)
      ensures outcome == Done ==> account !in world.accounts && AllCleaned(world, account)
      ensures outcome == NotOver || outcome == SettledBefore ==> NothingSettled(old(world), world)
      ensures outcome == SettledBefore ==> SpeakerIsSettled(old(world), account)
      ensures outcome == Done || outcome == Refused ==> !SpeakerIsSettled(old(world), account)
      ensures outcome == Done ==> ToBeCleaned(old(world), account)
      ensures smooth && ToBeCleaned(old(world), account) ==> outcome == Done
      ensures forall j: nat :: Speaks(old(world), account, j) ==>
        && (outcome == NotOver <==> !Terminal(old(world).runs[j].phase))
        && (outcome == SettledBefore <==> Terminal(old(world).runs[j].phase) && old(world).runs[j].cleaned)
        && (outcome == Done ==> MayGo(old(world), account, j))
        && (smooth && !old(world).runs[j].cleaned && MayGo(old(world), account, j) ==> outcome == Done)
    {
      hide Legal, OrderlyRun, Run, Safe, Kept, Tidied, AllCleaned, Speaks, MayGo, LatestFamily;
      TidyItself(world, account);
      var latest := LatestFamily(world, account, false);
      forall j: nat ensures latest == Some(j) <==> Speaks(world, account, j) {
        SpeaksExactly(world, account, j);
      }
      if latest.Some? { GoingIsOver(world, account, latest.value); }
      if latest.None? || !Terminal(world.runs[latest.value].phase) { return NotOver; }
      if world.runs[latest.value].cleaned { return SettledBefore; }
      SafeSpeaker(world, account, latest.value);
      var cleaned := CleanUp(account, latest.value);
      return if cleaned.Ok? then Done else Refused;
    }
  }

  lemma SafeSpeaker(w: World, account: nat, j: nat)
    requires Safe(w) && LatestFamily(w, account, false) == Some(j)
    ensures Latest(w, account, j)
  {
    LatestFamilySpeaks(w, account, j);
  }

  /** All runs of the family but the given one are over. */
  predicate OthersAreOver(w: World, account: nat, run: nat) {
    forall k: nat :: k < |w.runs| && InFamily(w, account, k) && k != run ==> Terminal(w.runs[k].phase)
  }

  /** What lets the API clean up: all runs of the family over, and a used account released by its speaker. */
  predicate Releasable(w: World, account: nat, run: nat)
    requires run < |w.runs|
  {
    && Terminal(w.runs[run].phase)
    && OthersAreOver(w, account, run)
    && (AnyUsed(w, account) ==> Released(w.runs[run]))
  }

  /** No account has gone, and no run has been marked as settled. */
  ghost predicate NothingSettled(w: World, u: World) {
    && |w.runs| == |u.runs| && u.accounts == w.accounts
    && forall k: nat :: k < |w.runs| ==> (u.runs[k].cleaned <==> w.runs[k].cleaned)
  }

  ghost predicate AllCleaned(w: World, account: nat) {
    forall k: nat :: InFamily(w, account, k) ==> w.runs[k].cleaned
  }

  predicate SameSpecs(w: World, u: World) {
    |w.runs| == |u.runs| && forall k: nat :: k < |w.runs| ==> u.runs[k].spec == w.runs[k].spec
  }

  /** The check for active Pods never stands in the way of a cleanup that the API has decided on. */
  lemma ClearedHasNoPods(listing: World, w: World, u: World, account: nat, run: nat, k: nat)
    requires Safe(u) && Kept(w, u) && k < |listing.runs| == |w.runs| && listing.runs[k].spec.account == account
    ensures CleansUp(w, account, run) && SameSpecs(listing, w) ==> !u.runs[k].pods
  {
    if CleansUp(w, account, run) && SameSpecs(listing, w) {
      assert RunKept(w.runs[k], u.runs[k]);
      ClearedIsIdle(u, k);
      assert SlotOk(u.runs[k]);
    }
  }

  lemma KeptMeans(w: World, u: World)
    requires Kept(w, u)
    ensures |w.runs| == |u.runs| && u.accounts == w.accounts && u.doing == w.doing && NothingSettled(w, u)
  {
    assert forall k: nat :: k < |w.runs| ==> RunKept(w.runs[k], u.runs[k]);
  }

  /** While a family is being settled, runs stay settled, no others become so, and the accounts stay as they are. */
  ghost predicate Settling(w: World, u: World, account: nat) {
    && |w.runs| == |u.runs| && u.accounts == w.accounts && u.doing == w.doing
    && forall j: nat :: j < |w.runs| ==> RunSettling(w.runs[j], u.runs[j], account)
  }

  predicate RunSettling(s: Slot, t: Slot, account: nat) {
    && t.spec == s.spec && t.consumer == s.consumer
    && (s.cleaned ==> t.cleaned)
    && (s.cleaned || s.spec.account == account || !t.cleaned)
  }

  lemma KeptSettles(w: World, u: World, account: nat)
    requires Kept(w, u)
    ensures Settling(w, u, account)
  {
    forall j: nat | j < |w.runs| ensures RunSettling(w.runs[j], u.runs[j], account) {
      assert RunKept(w.runs[j], u.runs[j]);
    }
  }

  lemma SettlesTwice(w: World, u: World, v: World, account: nat)
    requires Settling(w, u, account) && Settling(u, v, account)
    ensures Settling(w, v, account)
  {
    forall j: nat | j < |w.runs| ensures RunSettling(w.runs[j], v.runs[j], account) {
      assert RunSettling(w.runs[j], u.runs[j], account) && RunSettling(u.runs[j], v.runs[j], account);
    }
  }

  lemma MarkingSettles(w: World, a: Action, account: nat)
    requires a.MarkCleaned? && Enabled(w, a) && w.runs[a.run].spec.account == account
    ensures Settling(w, Apply(w, a), account) && Apply(w, a).runs[a.run].cleaned && Orderly(w, a)
  {
    forall j: nat | j < |w.runs| ensures RunSettling(w.runs[j], Apply(w, a).runs[j], account) {
      StepAt(w, a, j);
    }
  }

  /** What was settled of a family before more of it was settled. */
  lemma StaysCleaned(w: World, u: World, account: nat, rest: set<nat>)
    requires Settling(w, u, account)
    requires forall k: nat :: InFamily(w, account, k) && k !in rest ==> w.runs[k].cleaned
    ensures forall k: nat :: InFamily(u, account, k) && k !in rest ==> u.runs[k].cleaned
    ensures forall k: nat :: InFamily(w, account, k) <==> InFamily(u, account, k)
  {
    forall k: nat | k < |w.runs| ensures InFamily(w, account, k) <==> InFamily(u, account, k) {
      assert RunSettling(w.runs[k], u.runs[k], account);
    }
    forall k: nat | InFamily(u, account, k) && k !in rest ensures u.runs[k].cleaned {
      assert RunSettling(w.runs[k], u.runs[k], account);
      assert InFamily(w, account, k);
    }
  }

  // ---------- whole cleanups ----------

  /** At most this account goes, and at most its family becomes settled. */
  ghost predicate Tidied(w: World, u: World, account: nat) {
    && |w.runs| == |u.runs|
    && (u.accounts == w.accounts || u.accounts == w.accounts - {account})
    && forall j: nat :: j < |w.runs| ==> RunSettling(w.runs[j], u.runs[j], account)
  }

  lemma TidyItself(w: World, account: nat)
    ensures Tidied(w, w, account)
  {
  }

  lemma TidiedTwice(w: World, u: World, v: World, account: nat)
    requires Tidied(w, u, account) && Tidied(u, v, account)
    ensures Tidied(w, v, account)
  {
    forall j: nat | j < |w.runs| ensures RunSettling(w.runs[j], v.runs[j], account) {
      assert RunSettling(w.runs[j], u.runs[j], account) && RunSettling(u.runs[j], v.runs[j], account);
    }
  }

  lemma KeptTidies(w: World, u: World, account: nat)
    requires Kept(w, u)
    ensures Tidied(w, u, account)
  {
    KeptSettles(w, u, account);
  }

  lemma SettlingTidies(w: World, u: World, account: nat)
    requires Settling(w, u, account)
    ensures Tidied(w, u, account)
  {
  }

  lemma WritingTidies(w: World, a: Action, account: nat)
    requires a.Clear? || a.Withhold? || a.Retain? || (a.DeleteAccount? && a.account == account)
    ensures Tidied(w, Apply(w, a), account) && (!a.DeleteAccount? ==> NothingSettled(w, Apply(w, a)))
  {
    forall j: nat | j < |w.runs|
      ensures RunSettling(w.runs[j], Apply(w, a).runs[j], account)
      ensures Apply(w, a).runs[j].cleaned == w.runs[j].cleaned
    {
      StepAt(w, a, j);
    }
  }

  // ---------- whole passes ----------

  /** The accounts of all runs. */
  function Owners(w: World): set<nat> {
    set k: nat | k < |w.runs| :: w.runs[k].spec.account
  }

  predicate SpeakerIsSettled(w: World, account: nat) {
    LatestFamily(w, account, false).Some? && w.runs[LatestFamily(w, account, false).value].cleaned
  }

  /** The run that speaks for the account is not settled, and the account may be cleaned up on its word. */
  predicate ToBeCleaned(w: World, account: nat) {
    var latest := LatestFamily(w, account, false);
    latest.Some? && !w.runs[latest.value].cleaned && Enabled(w, Clear(account, latest.value))
  }

  /** No more runs of the account are settled. */
  ghost predicate NoneSettled(w: World, u: World, account: nat) {
    |w.runs| == |u.runs| && forall k: nat :: InFamily(w, account, k) ==> u.runs[k].cleaned == w.runs[k].cleaned
  }

  /** What a pass has done so far, with the families of `rest` still to be looked at. */
  ghost predicate PassedBy(w: World, u: World, rest: set<nat>, outcomes: map<nat, Outcome>) {
    && |w.runs| == |u.runs| && u.accounts <= w.accounts
    && rest <= Owners(w) && outcomes.Keys == Owners(w) - rest
    && (forall j: nat :: j < |w.runs| ==> RunPassed(w.runs[j], u.runs[j], outcomes))
    && (forall account :: account in outcomes ==> OutcomeOk(w, u, account, outcomes[account]))
  }

  predicate RunPassed(s: Slot, t: Slot, outcomes: map<nat, Outcome>) {
    && t.spec == s.spec && t.consumer == s.consumer
    && (s.cleaned ==> t.cleaned)
    && (t.cleaned == s.cleaned
        || (s.spec.account in outcomes && (outcomes[s.spec.account] == Done || outcomes[s.spec.account] == Refused)))
  }

  ghost predicate OutcomeOk(w: World, u: World, account: nat, outcome: Outcome) {
    && (outcome == Done ==> account !in u.accounts && AllCleaned(u, account))
    && (outcome == SettledBefore ==> SpeakerIsSettled(w, account))
    && (outcome == Done || outcome == Refused ==> !SpeakerIsSettled(w, account))
  }

  lemma PassBegins(w: World, u: World)
    requires Kept(w, u)
    ensures PassedBy(w, u, Owners(u), map[])
  {
    forall j: nat | j < |w.runs| ensures RunPassed(w.runs[j], u.runs[j], map[]) {
      assert RunKept(w.runs[j], u.runs[j]);
    }
    assert Owners(w) == Owners(u) by {
      assert forall j: nat :: j < |w.runs| ==> u.runs[j].spec == w.runs[j].spec;
    }
  }

  lemma PassedMeans(w: World, u: World, rest: set<nat>, outcomes: map<nat, Outcome>)
    requires PassedBy(w, u, rest, outcomes)
    ensures u.accounts <= w.accounts
    ensures rest == {} ==> outcomes.Keys == Owners(w)
    ensures forall account :: account in outcomes ==> OutcomeOk(w, u, account, outcomes[account])
    ensures forall account :: SpeakerIsSettled(w, account) ==> NoneSettled(w, u, account)
  {
    forall account | SpeakerIsSettled(w, account) ensures NoneSettled(w, u, account) {
      forall k: nat | InFamily(w, account, k) ensures u.runs[k].cleaned == w.runs[k].cleaned {
        assert RunPassed(w.runs[k], u.runs[k], outcomes);
        assert account in outcomes ==> OutcomeOk(w, u, account, outcomes[account]);
      }
    }
  }

  lemma {:induction false} YoungestIsSame(w: World, u: World, account: nat, n: nat)
    requires |w.runs| == |u.runs| && n <= |w.runs|
    requires forall j: nat :: j < |w.runs| ==> u.runs[j].spec == w.runs[j].spec
    ensures Youngest(w, account, false, n) == Youngest(u, account, false, n)
  {
    if n > 0 {
      assert Counts(w, account, false, n - 1) == Counts(u, account, false, n - 1);
      YoungestIsSame(w, u, account, n - 1);
    }
  }

  /** Who speaks for a family depends on what is never changed about its runs. */
  lemma SpeakerIsSame(w: World, u: World, account: nat)
    requires |w.runs| == |u.runs|
    requires forall j: nat :: j < |w.runs| ==> u.runs[j].spec == w.runs[j].spec && u.runs[j].consumer == w.runs[j].consumer
    ensures LatestFamily(w, account, false) == LatestFamily(u, account, false)
  {
    YoungestIsSame(w, u, account, |w.runs|);
    assert forall k: nat :: Counts(w, account, false, k) == Counts(u, account, false, k);
  }

  lemma PassGoesOn(w: World, u: World, v: World, rest: set<nat>, outcomes: map<nat, Outcome>)
    requires PassedBy(w, u, rest, outcomes) && Kept(u, v)
    ensures PassedBy(w, v, rest, outcomes)
  {
    hide SpeakerIsSettled;
    forall j: nat | j < |w.runs| ensures RunPassed(w.runs[j], v.runs[j], outcomes) {
      assert RunPassed(w.runs[j], u.runs[j], outcomes) && RunKept(u.runs[j], v.runs[j]);
    }
    forall other | other in outcomes ensures OutcomeOk(w, v, other, outcomes[other]) {
      assert OutcomeOk(w, u, other, outcomes[other]);
      KeptTidies(u, v, other);
      if outcomes[other] == Done { StaysDone(u, v, other, other); }
    }
  }

  /** A family that the pass has not come to is as it was. */
  lemma SpeakerIsUntouched(w: World, u: World, rest: set<nat>, outcomes: map<nat, Outcome>, account: nat)
    requires PassedBy(w, u, rest, outcomes) && account in rest
    ensures SpeakerIsSettled(w, account) <==> SpeakerIsSettled(u, account)
  {
    forall j: nat | j < |w.runs|
      ensures u.runs[j].spec == w.runs[j].spec && u.runs[j].consumer == w.runs[j].consumer
      ensures w.runs[j].spec.account == account ==> u.runs[j].cleaned == w.runs[j].cleaned
    {
      assert RunPassed(w.runs[j], u.runs[j], outcomes);
    }
    SpeakerIsSame(w, u, account);
  }

  lemma FamilyPasses(w: World, u: World, v: World, rest: set<nat>, outcomes: map<nat, Outcome>, account: nat,
                     outcome: Outcome)
    requires PassedBy(w, u, rest, outcomes) && account in rest && Tidied(u, v, account)
    requires OutcomeOk(u, v, account, outcome)
    requires outcome == NotOver || outcome == SettledBefore ==> NothingSettled(u, v)
    ensures PassedBy(w, v, rest - {account}, outcomes[account := outcome])
  {
    hide SpeakerIsSettled;
    var after := outcomes[account := outcome];
    SpeakerIsUntouched(w, u, rest, outcomes, account);
    forall j: nat | j < |w.runs| ensures RunPassed(w.runs[j], v.runs[j], after) {
      assert RunPassed(w.runs[j], u.runs[j], outcomes) && RunSettling(u.runs[j], v.runs[j], account);
    }
    forall other | other in after ensures OutcomeOk(w, v, other, after[other]) {
      if other != account {
        assert OutcomeOk(w, u, other, outcomes[other]);
        if outcomes[other] == Done { StaysDone(u, v, account, other); }
      }
    }
  }

  lemma StaysDone(w: World, u: World, account: nat, other: nat)
    requires Tidied(w, u, account) && other !in w.accounts && AllCleaned(w, other)
    ensures other !in u.accounts && AllCleaned(u, other)
  {
    forall k: nat | InFamily(u, other, k) ensures u.runs[k].cleaned {
      assert RunSettling(w.runs[k], u.runs[k], account);
      assert InFamily(w, other, k);
    }
  }
}
