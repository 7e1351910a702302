/** The operator's side of regression runs: one pass over all runs, in the order of their creation. */
module RegressionRuns {
  import opened Wrappers
  import opened RegressionProtocol
  import opened RegressionSafety

  /** A call raises an error, or the operator stops in the middle of it. */
  datatype ApiError = Broken | Stopped

  /** The Secret with the test account: not the expected owner's, of another mode, or as expected. */
  datatype Secret = ForeignSecret | OtherMode | Usable

  /** What the runner has published about itself, if anything. */
  datatype Progress = Progress(outcome: Option<Phase>, recovery: Option<bool>, cleanup: Option<Cleanup>)

  /** What the operator reads while it looks at a run, besides the run itself. */
  datatype Observed = Observed(
    job: Option<Job>, late: bool, pods: bool, identities: bool, registered: bool, supported: bool,
    secret: Secret, progress: Option<Progress>)

  /** One thing that it has read. */
  datatype Reading =
    | SawJob(run: nat, job: Option<Job>)
    | SawPods(run: nat, pods: bool)
    | SawAge(late: bool)
    | SawIdentities(same: bool)
    | SawLab(registered: bool)
    | SawSupport(supported: bool)
    | SawSecret(secret: Secret)
    | SawProgress(progress: Option<Progress>)

  /** What it then does with the run; `goesOn` says that the run still occupies the lab. */
  datatype Plan =
    | Leave
    | Write(phase: Phase, recovery: Option<bool>, cleanup: Option<Cleanup>, goesOn: bool)
    | Reject
    | Remove
    | Launch

  function CleanupOf(p: Option<Progress>): Cleanup {
    if p.Some? && p.value.cleanup.Some? then p.value.cleanup.value else Unknown
  }

  /** Whether the retained account must still be recovered: what the runner says, or else what was known before. */
  function RecoveryOf(seen: Slot, p: Option<Progress>): bool {
    if p.Some? && p.value.recovery.Some? then p.value.recovery.value
    else if seen.recovery.Some? then seen.recovery.value
    else true
  }

  function OutcomeOf(p: Option<Progress>, failed: bool): Phase {
    if !failed && p.Some? && (p.value.outcome == Some(Passed) || p.value.outcome == Some(Blocked)) then p.value.outcome.value
    else Failed
  }

  function Finished(seen: Slot, failed: bool, p: Option<Progress>): Plan {
    Write(OutcomeOf(p, failed),
          Some(if seen.spec.nonDestructive then false
               else failed || RecoveryOf(seen, p) || CleanupOf(p) != Verified),
          Some(CleanupOf(p)), false)
  }

  function Underway(seen: Slot, p: Option<Progress>): Plan {
    Write(if p.Some? then Running else Starting,
          Some(!seen.spec.nonDestructive && RecoveryOf(seen, p)), Some(CleanupOf(p)), true)
  }

  function Status(phase: Phase, goesOn: bool): Plan {
    Write(phase, None, None, goesOn)
  }

  function CancelPlan(j: nat, seen: Slot, o: Observed): Plan {
    if o.job.None? && !seen.ready then Status(Cancelling, true)
    else if o.job.Some? then Remove
    else EndPlan(j, seen, o)
  }

  function EndPlan(j: nat, seen: Slot, o: Observed): Plan {
    if o.pods then Status(Cancelling, true)
    else Write(Cancelled, Some(!seen.spec.nonDestructive && (seen.spec.account != j || seen.used)), None, false)
  }

  function StartPlan(seen: Slot, o: Observed): Plan {
    if seen.spec.diagnostic && !o.supported then Status(Blocked, false)
    else UsePlan(seen, o)
  }

  function UsePlan(seen: Slot, o: Observed): Plan {
    if seen.used then Write(Failed, Some(!seen.spec.nonDestructive), None, false)
    else if !seen.ready then Status(Preparing, true)
    else if !seen.spec.pinned then Status(Blocked, false)
    else match o.secret
      case ForeignSecret => Status(Failed, false)
      case OtherMode => Write(Failed, Some(!seen.spec.nonDestructive), None, false)
      case Usable => Launch
  }

  function PlanFor(j: nat, seen: Slot, busy: bool, o: Observed): Plan {
    if !seen.spec.valid then Status(Blocked, false)
    else if o.job.Some? && !o.job.value.own then Status(Failed, false)
    else if Terminal(seen.phase) then Leave
    else if o.job.None? && !seen.ready && o.late then
      Write(if seen.cancel then Cancelled else Failed, Some(seen.spec.account != j), None, false)
    else if seen.cancel then CancelPlan(j, seen, o)
    else if busy && o.job.None? then Status(Queued, false)
    else ProceedPlan(seen, o)
  }

  function ProceedPlan(seen: Slot, o: Observed): Plan {
    if !o.identities || !o.registered then Reject
    else if o.job.None? then StartPlan(seen, o)
    else JobPlan(seen, o)
  }

  function JobPlan(seen: Slot, o: Observed): Plan
    requires o.job.Some?
  {
    if o.job.value.finished.Some? then Finished(seen, o.job.value.finished.value, o.progress)
    else Underway(seen, o.progress)
  }

  predicate GoesOn(p: Plan) {
    match p
    case Write(_, _, _, goesOn) => goesOn
    case Leave => false
    case Reject => false
    case Remove => true
    case Launch => true
  }

  // ---------- what the plan means ----------

  /** Once a plan lets the lab go, the run is over or waits for the others. */
  lemma FreesTheLab(j: nat, seen: Slot, busy: bool, o: Observed)
    requires !GoesOn(PlanFor(j, seen, busy, o))
    ensures var p := PlanFor(j, seen, busy, o);
      || (p.Leave? && Terminal(seen.phase))
      || p.Reject?
      || (p.Write? && Terminal(p.phase))
      || (p.Write? && p.phase == Queued && busy && o.job.None?)
  {
  }

  /**
   A Job is requested exactly for a valid run that is ready, unused, not cancelled and not over, while the lab is
   free, with registered identities, a pinned and supported runner and its own account.
   */
  lemma LaunchesExactlyWhen(j: nat, seen: Slot, busy: bool, o: Observed)
    ensures PlanFor(j, seen, busy, o).Launch? <==>
      && seen.spec.valid && seen.ready && !seen.used && !seen.cancel && !Terminal(seen.phase)
      && !busy && o.job.None? && o.identities && o.registered
      && seen.spec.pinned && (seen.spec.diagnostic ==> o.supported) && o.secret == Usable
  {
  }

  /** A finished full-mode run is released only with a verified cleanup, and never after a failed Job. */
  lemma ReleasesOnlyVerified(j: nat, seen: Slot, busy: bool, o: Observed)
    requires var p := PlanFor(j, seen, busy, o);
      p.Write? && p.recovery == Some(false) && o.job.Some? && !seen.spec.nonDestructive && Terminal(p.phase)
    ensures PlanFor(j, seen, busy, o).cleanup == Some(Verified)
    ensures o.job.value.finished == Some(false)
    ensures o.progress.Some? && o.progress.value.cleanup == Some(Verified)
  {
  }

  // ---------- what a run says afterwards ----------

  /** The run is neither cancelled nor in line behind others: its start, or the Job that it has, is the matter. */
  ghost predicate Attended(seen: Slot, busy: bool, o: Observed) {
    !seen.cancel && (o.job.Some? || (!busy && (seen.ready || !o.late)))
  }

  /** It stands at its start, in the lab that it was made for, with a runner that supports it. */
  ghost predicate AtItsStart(seen: Slot, busy: bool, o: Observed) {
    && Attended(seen, busy, o) && o.job.None? && o.identities && o.registered
    && (seen.spec.diagnostic ==> o.supported)
  }

  /** Its own Job has ended, and with this result, if it is still asked for. */
  ghost predicate HasEnded(seen: Slot, o: Observed, failed: bool) {
    && !seen.cancel && o.identities && o.registered
    && o.job.Some? && o.job.value.finished == Some(failed)
  }

  /** Its own Job is under way. */
  ghost predicate IsWatched(seen: Slot, o: Observed) {
    && !seen.cancel && o.identities && o.registered
    && o.job.Some? && o.job.value.finished.None?
  }

  ghost predicate Reports(o: Observed, outcome: Phase) {
    o.progress.Some? && o.progress.value.outcome == Some(outcome)
  }

  /** The account needs no recovery, by the word of the runner or, if that says nothing, of the run before. */
  ghost predicate SaysNoRecovery(seen: Slot, o: Observed) {
    if o.progress.Some? && o.progress.value.recovery.Some? then o.progress.value.recovery == Some(false)
    else seen.recovery == Some(false)
  }

  /**
   Exactly when a valid run that was not over, and whose Job is its own if there is one, is given each phase. It is
   never called new, and as recovering it is reported only when something fails.
   */
  ghost predicate PhaseFits(phase: Phase, seen: Slot, busy: bool, o: Observed) {
    && (phase == Passed <==> HasEnded(seen, o, false) && Reports(o, Passed))
    && (phase == Blocked <==>
          || (HasEnded(seen, o, false) && Reports(o, Blocked))
          || (Attended(seen, busy, o) && !(o.identities && o.registered))
          || (Attended(seen, busy, o) && o.job.None? && seen.spec.diagnostic && !o.supported)
          || (AtItsStart(seen, busy, o) && !seen.used && seen.ready && !seen.spec.pinned))
    && (phase == Failed <==>
          || HasEnded(seen, o, true)
          || (HasEnded(seen, o, false) && !Reports(o, Passed) && !Reports(o, Blocked))
          || (!seen.cancel && o.job.None? && !seen.ready && o.late)
          || (AtItsStart(seen, busy, o) && seen.used)
          || (AtItsStart(seen, busy, o) && seen.ready && seen.spec.pinned && o.secret != Usable))
    && (phase == Cancelled <==> seen.cancel && o.job.None? && if seen.ready then !o.pods else o.late)
    && (phase == Cancelling <==> seen.cancel && (o.job.None? ==> if seen.ready then o.pods else !o.late))
    && (phase == Queued <==> !seen.cancel && busy && o.job.None? && (seen.ready || !o.late))
    && (phase == Preparing <==> AtItsStart(seen, busy, o) && !seen.used && !seen.ready)
    && (phase == Starting <==>
          || Starts(seen, busy, o)
          || (IsWatched(seen, o) && o.progress.None?))
    && (phase == Running <==> IsWatched(seen, o) && o.progress.Some?)
  }

  /** The operator asks for its Job. */
  ghost predicate Starts(seen: Slot, busy: bool, o: Observed) {
    AtItsStart(seen, busy, o) && seen.ready && !seen.used && seen.spec.pinned && o.secret == Usable
  }

  /** What the run says about its account and the cleanup, in the cases in which the operator has a say. */
  ghost predicate AccountFits(t: Slot, j: nat, seen: Slot, busy: bool, o: Observed) {
    && (HasEnded(seen, o, true) ==> t.recovery == Some(!seen.spec.nonDestructive))
    && (HasEnded(seen, o, false) ==>
          t.recovery == Some(!(seen.spec.nonDestructive || (SaysNoRecovery(seen, o) && t.cleanup == Some(Verified)))))
    && (IsWatched(seen, o) ==> t.recovery == Some(!(seen.spec.nonDestructive || SaysNoRecovery(seen, o))))
    && (HasEnded(seen, o, true) || HasEnded(seen, o, false) || IsWatched(seen, o) ==>
          t.cleanup == if o.progress.Some? && o.progress.value.cleanup.Some? then o.progress.value.cleanup else Some(Unknown))
    && (o.job.None? && !seen.ready && o.late ==> t.recovery == Some(seen.spec.account != j))
    && (seen.cancel && o.job.None? && seen.ready && !o.pods ==>
          t.recovery == Some(!seen.spec.nonDestructive && (seen.spec.account != j || seen.used)))
    && (AtItsStart(seen, busy, o) && (seen.used || (seen.ready && seen.spec.pinned && o.secret != ForeignSecret)) ==>
          t.recovery == Some(!seen.spec.nonDestructive))
  }

  /** What a run with a Job says once the runner's report is taken over. */
  ghost predicate FollowSays(w: World, j: nat, o: Observed, goesOn: bool)
    requires o.job.Some?
  {
    && j < |w.runs|
    && var phase := w.runs[j].phase;
       match o.job.value.finished
       case None => goesOn && phase == if o.progress.Some? then Running else Starting
       case Some(failed) =>
         && !goesOn
         && (phase == Passed <==> !failed && Reports(o, Passed))
         && (phase == Blocked <==> !failed && Reports(o, Blocked))
         && (phase == Failed <==> failed || !(Reports(o, Passed) || Reports(o, Blocked)))
  }

  /** What a run says after a reconciliation that succeeds, by what was seen of it. */
  ghost predicate Says(t: Slot, j: nat, seen: Slot, busy: bool, o: Observed, goesOn: bool) {
    if !seen.spec.valid then t.phase == Blocked && !goesOn
    else if o.job.Some? && !o.job.value.own then t.phase == Failed && !goesOn
    else if Terminal(seen.phase) then Terminal(t.phase) && !goesOn
    else
      && PhaseFits(t.phase, seen, busy, o)
      && AccountFits(t, j, seen, busy, o)
      && (goesOn <==> t.phase == Cancelling || t.phase == Preparing || t.phase == Starting || t.phase == Running)
  }

  lemma PhaseIsFit(w: World, j: nat, seen: Slot, busy: bool, o: Observed, goesOn: bool)
    requires Executed(w, j, PlanFor(j, seen, busy, o), goesOn)
    requires seen.spec.valid && (o.job.Some? ==> o.job.value.own) && !Terminal(seen.phase)
    ensures PhaseFits(w.runs[j].phase, seen, busy, o)
    ensures goesOn <==> w.runs[j].phase in {Cancelling, Preparing, Starting, Running}
  {
    if o.job.Some? {
      PhaseFitsWithJob(w, j, seen, busy, o, goesOn);
    } else {
      PhaseFitsWithout(w, j, seen, busy, o, goesOn);
    }
    hide PhaseFits, PlanFor, Executed;
  }

  lemma PhaseFitsWithJob(w: World, j: nat, seen: Slot, busy: bool, o: Observed, goesOn: bool)
    requires Executed(w, j, PlanFor(j, seen, busy, o), goesOn)
    requires seen.spec.valid && o.job.Some? && o.job.value.own && !Terminal(seen.phase)
    ensures PhaseFits(w.runs[j].phase, seen, busy, o)
    ensures goesOn <==> w.runs[j].phase in {Cancelling, Preparing, Starting, Running}
  {
  }

  lemma PhaseFitsWithout(w: World, j: nat, seen: Slot, busy: bool, o: Observed, goesOn: bool)
    requires Executed(w, j, PlanFor(j, seen, busy, o), goesOn)
    requires seen.spec.valid && o.job.None? && !Terminal(seen.phase)
    ensures PhaseFits(w.runs[j].phase, seen, busy, o)
    ensures goesOn <==> w.runs[j].phase in {Cancelling, Preparing, Starting, Running}
  {
  }

  lemma AccountIsFit(w: World, j: nat, seen: Slot, busy: bool, o: Observed, goesOn: bool)
    requires Executed(w, j, PlanFor(j, seen, busy, o), goesOn) && w.runs[j].spec == seen.spec
    requires seen.spec.valid && (o.job.Some? ==> o.job.value.own) && !Terminal(seen.phase)
    ensures AccountFits(w.runs[j], j, seen, busy, o)
  {
  }

  /** A plan that was executed leaves the run saying so. */
  lemma ExecutedSays(w: World, j: nat, seen: Slot, busy: bool, o: Observed, goesOn: bool)
    requires Executed(w, j, PlanFor(j, seen, busy, o), goesOn) && w.runs[j].spec == seen.spec
    ensures Says(w.runs[j], j, seen, busy, o, goesOn)
  {
    if seen.spec.valid && (o.job.Some? ==> o.job.value.own) && !Terminal(seen.phase) {
      PhaseIsFit(w, j, seen, busy, o, goesOn);
      AccountIsFit(w, j, seen, busy, o, goesOn);
      hide PhaseFits, AccountFits, PlanFor, Executed;
    }
  }

  // ---------- what was read for it ----------

  /** The reading is what is said to have been observed. */
  predicate Agrees(r: Reading, j: nat, o: Observed) {
    match r
    case SawJob(run, job) => run == j && job == o.job
    case SawPods(run, pods) => run == j && pods == o.pods
    case SawAge(late) => late == o.late
    case SawIdentities(same) => same == o.identities
    case SawLab(registered) => registered == o.registered
    case SawSupport(supported) => supported == o.supported
    case SawSecret(secret) => secret == o.secret
    case SawProgress(progress) => progress == o.progress
  }

  ghost predicate AllAgree(before: seq<Reading>, after: seq<Reading>, j: nat, o: Observed) {
    before <= after && forall i :: |before| <= i < |after| ==> Agrees(after[i], j, o)
  }

  ghost predicate Took(before: seq<Reading>, after: seq<Reading>, r: Reading) {
    exists i :: |before| <= i < |after| && after[i] == r
  }

  /** Whatever decides how a run without a Job starts has been read. */
  ghost predicate StartWasRead(before: seq<Reading>, after: seq<Reading>, seen: Slot, o: Observed) {
    && (seen.spec.diagnostic ==> Took(before, after, SawSupport(o.supported)))
    && ((seen.spec.diagnostic ==> o.supported) && !seen.used && seen.ready && seen.spec.pinned ==>
          Took(before, after, SawSecret(o.secret)))
  }

  /** So have the identities, and the runner's report on a Job. */
  ghost predicate AttentionWasRead(before: seq<Reading>, after: seq<Reading>, seen: Slot, o: Observed) {
    && Took(before, after, SawIdentities(o.identities))
    && (o.identities ==> Took(before, after, SawLab(o.registered)))
    && (o.identities && o.registered ==>
          if o.job.Some? then Took(before, after, SawProgress(o.progress)) else StartWasRead(before, after, seen, o))
  }

  /** What has been observed of an open run was read meanwhile, and everything that decides was observed. */
  ghost predicate WasRead(before: seq<Reading>, after: seq<Reading>, j: nat, seen: Slot, busy: bool, o: Observed) {
    && AllAgree(before, after, j, o)
    && (seen.spec.valid ==> Took(before, after, SawJob(j, o.job)))
    && (IsOpen(seen, o) ==>
          && (o.job.None? && !seen.ready ==> Took(before, after, SawAge(o.late)))
          && (seen.cancel && o.job.None? && seen.ready ==> Took(before, after, SawPods(j, o.pods)))
          && (Attended(seen, busy, o) ==> AttentionWasRead(before, after, seen, o)))
  }

  lemma ReadNothing(readings: seq<Reading>, j: nat, o: Observed)
    ensures AllAgree(readings, readings, j, o)
  {
  }

  lemma ReadOne(before: seq<Reading>, r: Reading, j: nat, o: Observed)
    requires Agrees(r, j, o)
    ensures AllAgree(before, before + [r], j, o) && Took(before, before + [r], r)
  {
    assert (before + [r])[|before|] == r;
  }

  lemma ReadOn(before: seq<Reading>, middle: seq<Reading>, after: seq<Reading>, j: nat, o: Observed)
    requires AllAgree(before, middle, j, o) && AllAgree(middle, after, j, o)
    ensures AllAgree(before, after, j, o)
    ensures forall r :: Took(before, middle, r) || Took(middle, after, r) ==> Took(before, after, r)
  {
    forall r | Took(before, middle, r) ensures Took(before, after, r) {
      var i :| |before| <= i < |middle| && middle[i] == r;
      assert after[i] == r;
    }
  }

  lemma BothWereRead(before: seq<Reading>, asked: seq<Reading>, after: seq<Reading>, j: nat, o: Observed)
    requires asked == before + [SawIdentities(o.identities)] + if o.identities then [SawLab(o.registered)] else []
    ensures AllAgree(before, asked, j, o) && Took(before, asked, SawIdentities(o.identities))
    ensures o.identities ==> Took(before, asked, SawLab(o.registered))
  {
    assert asked[|before|] == SawIdentities(o.identities);
    if o.identities { assert asked[|before| + 1] == SawLab(o.registered); }
  }

  lemma StartIsRead(before: seq<Reading>, asked: seq<Reading>, after: seq<Reading>, j: nat, seen: Slot, o: Observed)
    requires asked == if seen.spec.diagnostic then before + [SawSupport(o.supported)] else before
    requires after == asked || AllAgree(asked, after, j, o)
    requires (seen.spec.diagnostic ==> o.supported) && !seen.used && seen.ready && seen.spec.pinned ==>
      Took(asked, after, SawSecret(o.secret))
    ensures AllAgree(before, after, j, o) && StartWasRead(before, after, seen, o)
  {
    if seen.spec.diagnostic { ReadOne(before, SawSupport(o.supported), j, o); } else { ReadNothing(before, j, o); }
    if after == asked { ReadNothing(asked, j, o); }
    ReadOn(before, asked, after, j, o);
    hide Took, AllAgree;
  }

  lemma StartStays(before: seq<Reading>, middle: seq<Reading>, after: seq<Reading>, j: nat, seen: Slot, o: Observed)
    requires AllAgree(before, middle, j, o) && AllAgree(middle, after, j, o)
    ensures StartWasRead(middle, after, seen, o) ==> StartWasRead(before, after, seen, o)
  {
    ReadOn(before, middle, after, j, o);
    hide Took, AllAgree;
  }

  /** What decides has been read, also if it was not all that was read. */
  lemma AttentionStays(before: seq<Reading>, middle: seq<Reading>, after: seq<Reading>, j: nat, seen: Slot, o: Observed)
    requires AllAgree(before, middle, j, o) && AllAgree(middle, after, j, o)
    ensures AttentionWasRead(middle, after, seen, o) ==> AttentionWasRead(before, after, seen, o)
  {
    ReadOn(before, middle, after, j, o);
    hide Took, AllAgree;
  }

  // ---------- what the others can do meanwhile ----------

  predicate Operators(a: Action) {
    a.List? || a.Report? || a.Refuse? || a.Recover? || a.MarkUsed? || a.PostJob? || a.DeleteJob? || a.Restart?
  }

  /** The API and the cluster neither start a Job nor take back that a run is over. */
  ghost predicate SlotGrown(s: Slot, t: Slot) {
    && t.spec == s.spec
    && t.used == s.used
    && (s.ready ==> t.ready)
    && (s.cleaned ==> t.cleaned)
    && (Terminal(s.phase) ==> Terminal(t.phase))
    && (Unfinished(t) ==> Unfinished(s))
  }

  ghost predicate Grown(w: World, u: World) {
    && |w.runs| <= |u.runs|
    && u.listed == w.listed
    && u.armed == w.armed
    && (forall j: nat :: j < |w.runs| ==> SlotGrown(w.runs[j], u.runs[j]))
    && (forall j: nat :: j < |w.runs| && Closed(w, j) ==> Closed(u, j))
  }

  /** The operator may report the run as recovering: it is on its list, was used, or can never start. */
  predicate Recoverable(w: World, j: nat) {
    j < |w.runs| && (j in w.listed || w.runs[j].used || Closed(w, j))
  }

  lemma RecoverableReopens(w: World, j: nat)
    requires Safe(w) && Recoverable(w, j)
    ensures Reopens(w, j)
  {
    hide Exclusive, AccountsOk, ClearedOk, FamiliesOk, Lost;
    assert SlotOk(w.runs[j]);
    assert j in w.listed ==> ListedOk(w, j);
    if w.armed == Some(j) { ArmedIsNotQuiet(w, j); }
  }

  lemma TouchGrows(s: Slot, a: Action)
    requires !Operators(a)
    ensures SlotGrown(s, Touch(s, a))
  {
  }

  lemma OtherGrows(w: World, a: Action, j: nat)
    requires Enabled(w, a) && !Operators(a) && j < |w.runs|
    ensures SlotGrown(w.runs[j], Apply(w, a).runs[j])
  {
    hide Enabled, Apply, Touch;
    StepAt(w, a, j);
    TouchGrows(w.runs[j], a);
  }

  lemma OthersGrow(w: World, a: Action)
    requires Enabled(w, a) && !Operators(a)
    ensures Grown(w, Apply(w, a))
  {
    hide Enabled, SlotGrown, Closed;
    forall j: nat | j < |w.runs| ensures SlotGrown(w.runs[j], Apply(w, a).runs[j]) {
      OtherGrows(w, a, j);
    }
    forall j: nat | j < |w.runs| && Closed(w, j) ensures Closed(Apply(w, a), j) {
      ClosedStays(w, a, j);
    }
  }

  lemma GrownTwice(w: World, u: World, v: World)
    requires Grown(w, u) && Grown(u, v)
    ensures Grown(w, v)
  {
    forall j: nat | j < |w.runs| ensures SlotGrown(w.runs[j], v.runs[j]) {
      assert SlotGrown(w.runs[j], u.runs[j]) && SlotGrown(u.runs[j], v.runs[j]);
    }
  }

  /** Jobs belong to valid runs. */
  ghost predicate Sane(w: World) {
    forall j: nat :: j < |w.runs| ==> SaneSlot(w.runs[j])
  }

  predicate SaneSlot(s: Slot) {
    Unfinished(s) ==> s.spec.valid
  }

  lemma StepIsSane(w: World, a: Action)
    requires Sane(w) && Enabled(w, a)
    ensures Sane(Apply(w, a))
  {
    hide Touch, Latest, AnyUsed, Offered, EarlierSettled;
    forall j: nat | j < |Apply(w, a).runs| ensures SaneSlot(Apply(w, a).runs[j]) {
      if j < |w.runs| {
        assert SaneSlot(w.runs[j]);
        StepAt(w, a, j);
        TouchStartsNoJob(w.runs[j], a);
      }
    }
  }

  /** The other runs are as the API and the cluster left them; the operator only dealt with run `j`. */
  ghost predicate OnlyDealtWith(w: World, u: World, j: nat) {
    && |w.runs| <= |u.runs|
    && (j < |w.runs| ==> u.runs[j].spec == w.runs[j].spec && (w.runs[j].cleaned ==> u.runs[j].cleaned))
    && (forall k: nat :: k < |w.runs| && k != j ==> SlotGrown(w.runs[k], u.runs[k]))
    && (forall k: nat :: k != j ==> (k in w.listed <==> k in u.listed))
  }

  lemma DealtThenActs(w: World, u: World, a: Action, j: nat)
    requires OnlyDealtWith(w, u, j) && Target(a) == Some(j) && Operators(a)
    ensures OnlyDealtWith(w, Apply(u, a), j)
  {
    if j < |u.runs| { StepAt(u, a, j); }
    forall k: nat | k < |w.runs| && k != j ensures SlotGrown(w.runs[k], Apply(u, a).runs[k]) {
      StepAt(u, a, k);
    }
  }

  lemma StaysSettled(w: World, u: World, j: nat)
    requires OnlyDealtWith(w, u, j) && j <= |w.runs| && EarlierSettled(w, j)
    ensures EarlierSettled(u, j)
  {
    forall i | 0 <= i < j ensures Terminal(u.runs[i].phase) || u.runs[i].cleaned {
      assert SlotGrown(w.runs[i], u.runs[i]);
    }
  }

  /** Between two points in time, the operator has carried out exactly these calls, status reports aside. */
  ghost predicate Carried(before: seq<Action>, after: seq<Action>, calls: multiset<Action>) {
    forall a :: Operators(a) && !a.Report? ==> Count(after, a) == Count(before, a) + calls[a]
  }

  /** The calls that a plan consists of. */
  ghost function Calls(plan: Plan, j: nat): multiset<Action> {
    match plan
    case Launch => multiset{MarkUsed(j), PostJob(j)}
    case Remove => multiset{DeleteJob(j)}
    case Reject => multiset{Refuse(j)}
    case _ => multiset{}
  }

  /** What one more action adds to the record of the operator's calls. */
  ghost function Once(a: Action): multiset<Action> {
    if Operators(a) && !a.Report? then multiset{a} else multiset{}
  }

  lemma OneMore(trace: seq<Action>, last: Action)
    ensures Carried(trace, trace + [last], Once(last))
  {
    forall a | Operators(a) && !a.Report?
      ensures Count(trace + [last], a) == Count(trace, a) + (if last == a then 1 else 0)
    {
      CountExtends(trace, last, a);
    }
  }

  lemma CarriedTwice(before: seq<Action>, middle: seq<Action>, after: seq<Action>,
                     first: multiset<Action>, second: multiset<Action>)
    requires Carried(before, middle, first) && Carried(middle, after, second)
    ensures Carried(before, after, first + second)
  {
    forall a | Operators(a) && !a.Report? ensures Count(after, a) == Count(before, a) + (first + second)[a] {
      assert Count(middle, a) == Count(before, a) + first[a];
    }
  }

  /** The run is valid and not over, and its Job is its own if there is one. */
  predicate IsOpen(seen: Slot, o: Observed) {
    seen.spec.valid && !Terminal(seen.phase) && (o.job.Some? ==> o.job.value.own)
  }

  /**
   What the operator has asked of the cluster meanwhile: one Job, after a record of its use, for a run that starts, one
   deletion for a cancelled run with a Job, and nothing else.
   */
  ghost predicate CallsFit(before: seq<Action>, after: seq<Action>, j: nat, seen: Slot, busy: bool, o: Observed) {
    forall a: Action :: a.PostJob? || a.MarkUsed? || a.DeleteJob? ==>
      Count(after, a) == Count(before, a)
        + if a.run == j && IsOpen(seen, o) && (if a.DeleteJob? then seen.cancel && o.job.Some? else Starts(seen, busy, o))
          then 1 else 0
  }

  lemma CarriedFits(before: seq<Action>, after: seq<Action>, j: nat, seen: Slot, busy: bool, o: Observed)
    requires Carried(before, after, Calls(PlanFor(j, seen, busy, o), j))
    ensures CallsFit(before, after, j, seen, busy, o)
  {
    var plan := PlanFor(j, seen, busy, o);
    assert plan.Launch? <==> IsOpen(seen, o) && Starts(seen, busy, o);
    assert plan.Remove? <==> IsOpen(seen, o) && seen.cancel && o.job.Some?;
    hide PlanFor, Starts, IsOpen;
  }

  class RegressionRuns {
    /**
     Whether the surroundings are calm: calls about a run that is over, was never used and could still start raise no
     errors (the operator may still stop); the registered identities do not change under a running Job; and the API and
     the cluster are orderly.
     */
    const calm: bool
    /** Whether all calls succeed and the operator does not stop. */
    const smooth: bool
    var world: World
    ghost var trace: seq<Action>
    ghost var readings: seq<Reading>

    ghost predicate Valid()
      reads `world, `trace
    {
      && Legal(START, trace) && Run(START, trace) == world && Sane(world)
      && (calm ==> OrderlyRun(trace))
    }

    constructor (calm: bool, smooth: bool)
      ensures Valid() && world == START && this.calm == calm && this.smooth == smooth
    {
      this.calm, this.smooth := calm, smooth;
      world := START;
      trace, readings := [], [];
    }

    /** In calm surroundings everything that is proved of orderly runs holds at every moment. */
    lemma CalmIsSafe()
      requires Valid() && calm
      ensures Safe(world)
    {
      RunIsSafe(trace);
    }

    lemma MayRecover(j: nat)
      requires Valid() && calm && Recoverable(world, j)
      ensures Orderly(world, Recover(j))
    {
      CalmIsSafe();
      RecoverableReopens(world, j);
    }

    lemma CalmIsPromised()
      requires Valid() && calm
      ensures Promised(world)
    {
      CalmIsSafe();
      SafeIsPromised(world);
    }

    // ---------- calls ----------

    method Perform(a: Action)
      requires Valid() && Enabled(world, a) && (calm ==> Orderly(world, a))
      modifies `world, `trace
      ensures Valid() && world == Apply(old(world), a) && trace == old(trace) + [a]
    {
      LegalExtends(trace, a);
      assert (trace + [a])[..|trace|] == trace;
      StepIsSane(world, a);
      trace := trace + [a];
      world := Apply(world, a);
    }

    /** Anything the API and the cluster may do, in any number, can happen before a call. */
    method Others()
      requires Valid()
      modifies `world, `trace
      ensures Valid() && Grown(old(world), world) && Carried(old(trace), trace, multiset{})
    {
      var steps: nat := *;
      while steps > 0
        invariant Valid() && Grown(old(world), world) && Carried(old(trace), trace, multiset{})
      {
        var a: Action := *;
        if !Operators(a) && Enabled(world, a) && (!calm || Orderly(world, a)) {
          OthersGrow(world, a);
          GrownTwice(old(world), world, Apply(world, a));
          OneMore(trace, a);
          Perform(a);
        }
        steps := steps - 1;
      }
    }

    /** A write about run `j` that may fail, with or without having been carried out. */
    method Call(a: Action, j: nat) returns (r: Result<(), ApiError>)
      requires Valid() && Enabled(world, a) && (calm ==> Orderly(world, a))
      modifies `world, `trace
      ensures Valid()
      ensures (world == old(world) && trace == old(trace) && r.Err?)
              || (world == Apply(old(world), a) && trace == old(trace) + [a])
      ensures calm && r == Err(Broken) ==> Recoverable(world, j)
      ensures smooth ==> r.Ok?
    {
      var arrives: bool, answers: bool, stops: bool := *, *, *;
      if arrives || smooth {
        Perform(a);
        if answers || smooth { return Ok(()); }
      }
      if stops { return Err(Stopped); }
      if !calm || Recoverable(world, j) { return Err(Broken); }
      if !arrives { Perform(a); }
      return Ok(());
    }

    /** A read that may fail. */
    method GetJob(j: nat) returns (r: Result<Option<Job>, ApiError>)
      requires j < |world.runs|
      modifies `readings
      ensures r.Ok? ==> r.value == world.runs[j].job
      ensures readings == old(readings) + if r.Ok? then [SawJob(j, r.value)] else []
      ensures calm && r == Err(Broken) ==> Recoverable(world, j)
      ensures smooth ==> r.Ok?
    {
      var answers: bool, stops: bool := *, *;
      if stops && !smooth { return Err(Stopped); }
      if !answers && !smooth && (!calm || Recoverable(world, j)) { return Err(Broken); }
      readings := readings + [SawJob(j, world.runs[j].job)];
      return Ok(world.runs[j].job);
    }

    method HasPods(j: nat) returns (r: Result<bool, ApiError>)
      requires j < |world.runs|
      modifies `readings
      ensures readings == old(readings) + if r.Ok? then [SawPods(j, r.value)] else []
      ensures r.Ok? ==> r.value == world.runs[j].pods
      ensures smooth ==> r.Ok?
    {
      var answers: bool := *;
      if !answers && !smooth { return Err(Broken); }
      readings := readings + [SawPods(j, world.runs[j].pods)];
      return Ok(world.runs[j].pods);
    }

    /** Whether the run has waited for its account for more than ten minutes; a time that makes no sense is no age. */
    method AskAge() returns (late: bool)
      modifies `readings
      ensures readings == old(readings) + [SawAge(late)]
    {
      late := *;
      readings := readings + [SawAge(late)];
    }

    /** Reads of things that are not part of the runs: they say anything, or fail. Does the runner support the selection? */
    method AskSupport() returns (r: Result<bool, ApiError>)
      modifies `readings
      ensures readings == old(readings) + if r.Ok? then [SawSupport(r.value)] else []
      ensures smooth ==> r.Ok?
    {
      var answers: bool, answer: bool := *, *;
      if !answers && !smooth { return Err(Broken); }
      readings := readings + [SawSupport(answer)];
      return Ok(answer);
    }

    /** Whether the Appliance and its Nodes are those that the run was made for. */
    method AskIdentities(j: nat) returns (r: Result<bool, ApiError>)
      requires j < |world.runs|
      modifies `readings
      ensures readings == old(readings) + if r.Ok? then [SawIdentities(r.value)] else []
      ensures calm && Unfinished(world.runs[j]) ==> r != Ok(false)
      ensures r.Err? ==> r.error == Broken && !smooth
    {
      var answers: bool, answer: bool := *, *;
      if !answers && !smooth { return Err(Broken); }
      answer := answer || (calm && Unfinished(world.runs[j]));
      readings := readings + [SawIdentities(answer)];
      return Ok(answer);
    }

    /** Whether the marker of the lab is that of these. */
    method AskLab(j: nat) returns (r: Result<bool, ApiError>)
      requires j < |world.runs|
      modifies `readings
      ensures readings == old(readings) + if r.Ok? then [SawLab(r.value)] else []
      ensures calm && Unfinished(world.runs[j]) ==> r != Ok(false)
      ensures r.Err? ==> r.error == Broken && !smooth
    {
      var answers: bool, answer: bool := *, *;
      if !answers && !smooth { return Err(Broken); }
      answer := answer || (calm && Unfinished(world.runs[j]));
      readings := readings + [SawLab(answer)];
      return Ok(answer);
    }

    method GetSecret() returns (r: Result<Secret, ApiError>)
      modifies `readings
      ensures readings == old(readings) + if r.Ok? then [SawSecret(r.value)] else []
      ensures smooth ==> r.Ok?
    {
      var answers: bool, secret: Secret := *, *;
      if !answers && !smooth { return Err(Broken); }
      readings := readings + [SawSecret(secret)];
      return Ok(secret);
    }

    /** The runner's report; that of another run or mode is an error, an unavailable one is none. */
    method GetProgress() returns (r: Result<Option<Progress>, ApiError>)
      modifies `readings
      ensures readings == old(readings) + if r.Ok? then [SawProgress(r.value)] else []
      ensures smooth ==> r.Ok?
    {
      var answers: bool, progress: Option<Progress> := *, *;
      if !answers && !smooth { return Err(Broken); }
      readings := readings + [SawProgress(progress)];
      return Ok(progress);
    }

    // ---------- writes ----------

    /** A call of the operator about one run, as far as the others and the record of its calls go. */
    method About(a: Action, j: nat) returns (r: Result<(), ApiError>)
      requires Valid() && j < |world.runs| && Target(a) == Some(j) && Operators(a)
      requires a.DeleteJob? || a.Refuse? || a.Recover? || a.Report?
      requires a.Report? && Terminal(a.phase) ==> !Unfinished(world.runs[j])
      requires a.Report? && !(Terminal(a.phase) && a.recovery.None? && a.cleanup.None?) ==> j in world.listed
      requires calm && a.Refuse? ==> !Unfinished(world.runs[j])
      requires calm && a.Recover? ==> Recoverable(world, j)
      modifies `world, `trace
      ensures Valid() && OnlyDealtWith(old(world), world, j)
      ensures calm && r == Err(Broken) ==> Recoverable(world, j)
      ensures a.DeleteJob? ==> (j in world.listed <==> j in old(world).listed)
      ensures r.Ok? ==> Carried(old(trace), trace, Once(a))
      ensures r.Ok? && a.Report? ==> Written(world, j, a.phase, a.recovery, a.cleanup)
      ensures r.Ok? && a.Refuse? ==> Written(world, j, Blocked, None, None)
      ensures r.Ok? && a.Recover? ==> Written(world, j, Recovering, None, None)
      ensures r.Ok? && a.DeleteJob? ==> world.armed == old(world).armed
      ensures smooth ==> r.Ok?
    {
      hide Legal, Run, OrderlyRun, Safe, Sane, Carried, Closed;
      Others();
      assert SlotGrown(old(world).runs[j], world.runs[j]);
      if calm && a.Recover? { MayRecover(j); }
      ghost var middle := trace;
      DealtThenActs(old(world), world, a, j);
      OneMore(trace, a);
      r := Call(a, j);
      if r.Ok? {
        NothingThenCarried(old(trace), middle, trace, Once(a));
      }
    }

    /** A status report, after which the run goes on to occupy the lab or not. */
    method Status(j: nat, phase: Phase, recovery: Option<bool>, cleanup: Option<Cleanup>, goesOn: bool)
      returns (r: Result<bool, ApiError>)
      requires Valid() && j < |world.runs| && (Terminal(phase) ==> !Unfinished(world.runs[j]))
      requires j in world.listed || (Terminal(phase) && recovery.None? && cleanup.None?)
      modifies `world, `trace
      ensures Valid() && Dealt(calm, old(world), world, old(trace), trace, j, Write(phase, recovery, cleanup, goesOn), r)
      ensures smooth ==> r.Ok?
    {
      var done :- About(Report(j, phase, recovery, cleanup), j);
      return Ok(goesOn);
    }

    method RecordUse(j: nat) returns (r: Result<(), ApiError>)
      requires Valid() && j < |world.runs| && j in world.listed && world.runs[j].ready && !world.runs[j].used
      requires world.runs[j].spec.valid && EarlierSettled(world, j)
      modifies `world, `trace
      ensures Valid() && OnlyDealtWith(old(world), world, j) && j in world.listed
      ensures j < |world.runs| && world.runs[j].spec == old(world.runs[j].spec)
      ensures r.Ok? ==> world.armed == Some(j) && Carried(old(trace), trace, multiset{MarkUsed(j)})
      ensures smooth ==> r.Ok?
    {
      Others();
      assert SlotGrown(old(world).runs[j], world.runs[j]);
      StaysSettled(old(world), world, j);
      ghost var middle := trace;
      DealtThenActs(old(world), world, MarkUsed(j), j);
      OneMore(trace, MarkUsed(j));
      r := Call(MarkUsed(j), j);
      if r.Ok? {
        NothingThenCarried(old(trace), middle, trace, multiset{MarkUsed(j)});
      }
    }

    method RequestJob(j: nat) returns (r: Result<(), ApiError>)
      requires Valid() && j < |world.runs| && world.runs[j].spec.valid
      requires world.armed == Some(j) && j in world.listed && EarlierSettled(world, j)
      modifies `world, `trace
      ensures Valid() && OnlyDealtWith(old(world), world, j) && j < |world.runs| && j in world.listed
      ensures r.Ok? ==> Carried(old(trace), trace, multiset{PostJob(j)})
      ensures smooth ==> r.Ok?
    {
      Others();
      assert SlotGrown(old(world).runs[j], world.runs[j]);
      StaysSettled(old(world), world, j);
      ghost var middle := trace;
      DealtThenActs(old(world), world, PostJob(j), j);
      OneMore(trace, PostJob(j));
      r := Call(PostJob(j), j);
      if r.Ok? {
        NothingThenCarried(old(trace), middle, trace, multiset{PostJob(j)});
      }
    }

    /** Use of the account goes on record before the Job is requested, so a crash in between loses no account. */
    method UseAndRequest(j: nat, seen: Slot) returns (r: Result<(), ApiError>)
      requires Valid() && j < |world.runs| && SlotGrown(seen, world.runs[j])
      requires seen.spec.valid && seen.ready && !seen.used && j in world.listed && EarlierSettled(world, j)
      modifies `world, `trace
      ensures Valid() && OnlyDealtWith(old(world), world, j) && j < |world.runs| && j in world.listed
      ensures r.Ok? ==> Carried(old(trace), trace, Calls(Launch, j))
      ensures smooth ==> r.Ok?
    {
      r := RecordUse(j);
      if r.Err? { return; }
      ghost var w1, t1 := world, trace;
      StaysSettled(old(world), world, j);
      r := RequestJob(j);
      DealtTwice(old(world), w1, world, j);
      if r.Ok? {
        CarriedTwice(old(trace), t1, trace, multiset{MarkUsed(j)}, multiset{PostJob(j)});
        LaunchIsTwoCalls(j);
      }
    }

    method Start(j: nat, seen: Slot) returns (r: Result<bool, ApiError>)
      requires Valid() && j < |world.runs| && SlotGrown(seen, world.runs[j])
      requires seen.spec.valid && seen.ready && !seen.used && j in world.listed && EarlierSettled(world, j)
      modifies `world, `trace
      ensures Valid() && Dealt(calm, old(world), world, old(trace), trace, j, Launch, r)
      ensures smooth ==> r.Ok?
    {
      hide Carried, Legal, Run, OrderlyRun;
      var requested := UseAndRequest(j, seen);
      if requested.Err? { return Err(requested.error); }
      ghost var w1, t1 := world, trace;
      var report :- About(Report(j, Starting, Some(!seen.spec.nonDestructive), None), j);
      DealtTwice(old(world), w1, world, j);
      CarriedThenNothing(old(trace), t1, trace, Calls(Launch, j));
      return Ok(true);
    }

    // ---------- reads ----------

    method ReadJob(j: nat) returns (r: Result<Option<Job>, ApiError>)
      requires Valid() && j < |world.runs|
      modifies `world, `trace, `readings
      ensures Valid() && Grown(old(world), world) && Carried(old(trace), trace, multiset{})
      ensures r.Ok? ==> r.value == world.runs[j].job
      ensures calm && r == Err(Broken) ==> Recoverable(world, j)
      ensures smooth ==> r.Ok?
      ensures readings == old(readings) + if r.Ok? then [SawJob(j, r.value)] else []
    {
      Others();
      r := GetJob(j);
    }

    method ReadPods(j: nat) returns (r: Result<bool, ApiError>)
      requires Valid() && j < |world.runs|
      modifies `world, `trace, `readings
      ensures Valid() && Grown(old(world), world) && Carried(old(trace), trace, multiset{})
      ensures r.Ok? ==> r.value == world.runs[j].pods
      ensures smooth ==> r.Ok?
      ensures readings == old(readings) + if r.Ok? then [SawPods(j, r.value)] else []
    {
      Others();
      r := HasPods(j);
    }

    // ---------- one run ----------

    /** Cancelled without a Job: the run is over once no Pods are left. */
    method End(j: nat, seen: Slot, known: Observed) returns (r: Result<bool, ApiError>, o: Observed)
      requires Valid() && j < |world.runs| && !Unfinished(world.runs[j]) && j in world.listed
      modifies `world, `trace, `readings
      ensures Valid() && Dealt(calm, old(world), world, old(trace), trace, j, EndPlan(j, seen, o), r)
      ensures o == known.(pods := o.pods)
      ensures smooth ==> r.Ok?
      ensures r.Ok? ==> AllAgree(old(readings), readings, j, o)
      ensures r.Ok? ==> Took(old(readings), readings, SawPods(j, o.pods))
    {
      hide Dealt, Carried, Legal, Run, OrderlyRun, Sane, EndPlan, Took, AllAgree;
      ReadNothing(readings, j, known);
      o := known;
      var pods := ReadPods(j);
      ghost var w1, t1 := world, trace;
      assert SlotGrown(old(world).runs[j], w1.runs[j]);
      if pods.Err? {
        r := Err(pods.error);
        NothingDone(calm, world, trace, j, EndPlan(j, seen, o), pods.error);
      } else {
        o := o.(pods := pods.value);
        ReadOne(old(readings), SawPods(j, o.pods), j, o);
        r := EndUnless(j, seen, o);
      }
      ReadsThenDealt(calm, old(world), w1, world, old(trace), t1, trace, j, EndPlan(j, seen, o), r);
    }

    method EndUnless(j: nat, seen: Slot, o: Observed) returns (r: Result<bool, ApiError>)
      requires Valid() && j < |world.runs| && !Unfinished(world.runs[j]) && j in world.listed
      modifies `world, `trace
      ensures Valid() && Dealt(calm, old(world), world, old(trace), trace, j, EndPlan(j, seen, o), r)
      ensures smooth ==> r.Ok?
    {
      hide Dealt, Carried, Legal, Run, OrderlyRun, Sane;
      if o.pods {
        r := Status(j, Cancelling, None, None, true);
      } else {
        var recovery := !seen.spec.nonDestructive && (seen.spec.account != j || seen.used);
        r := Status(j, Phase.Cancelled, Some(recovery), None, false);
      }
    }

    /** The removal of the Job of a cancelled run. */
    method RemoveJob(j: nat) returns (r: Result<bool, ApiError>)
      requires Valid() && j < |world.runs| && j in world.listed
      modifies `world, `trace
      ensures Valid() && Dealt(calm, old(world), world, old(trace), trace, j, Remove, r)
      ensures smooth ==> r.Ok?
    {
      hide Legal, Run, OrderlyRun, Sane, Carried, SlotGrown;
      var deleted :- About(DeleteJob(j), j);
      ghost var w1, t1 := world, trace;
      var report := About(Report(j, Cancelling, None, None), j);
      DealtTwice(old(world), w1, world, j);
      if report.Err? { return Err(report.error); }
      CarriedThenNothing(old(trace), t1, trace, multiset{DeleteJob(j)});
      return Ok(true);
    }

    method Withdraw(j: nat, seen: Slot, known: Observed) returns (r: Result<bool, ApiError>, o: Observed)
      requires Valid() && j < |world.runs| && j in world.listed
      requires known.job.None? ==> !Unfinished(world.runs[j])
      modifies `world, `trace, `readings
      ensures Valid() && Dealt(calm, old(world), world, old(trace), trace, j, CancelPlan(j, seen, o), r)
      ensures o == known.(pods := o.pods)
      ensures smooth ==> r.Ok?
      ensures r.Ok? ==> AllAgree(old(readings), readings, j, o)
      ensures r.Ok? && known.job.None? && seen.ready ==> Took(old(readings), readings, SawPods(j, o.pods))
    {
      hide Dealt, Carried, Took, AllAgree;
      o := known;
      ReadNothing(readings, j, known);
      if known.job.None? && !seen.ready {
        r := Status(j, Cancelling, None, None, true);
      } else if known.job.Some? {
        r := RemoveJob(j);
      } else {
        r, o := End(j, seen, known);
      }
    }

    /** A run without a Job starts if its account is ready and unused and everything else is in place. */
    method UseOrWait(j: nat, seen: Slot, known: Observed) returns (r: Result<bool, ApiError>, o: Observed)
      requires Valid() && j < |world.runs| && SlotGrown(seen, world.runs[j]) && !Unfinished(world.runs[j])
      requires seen.spec.valid && EarlierSettled(world, j) && j in world.listed
      modifies `world, `trace, `readings
      ensures Valid() && Dealt(calm, old(world), world, old(trace), trace, j, UsePlan(seen, o), r)
      ensures o == known.(secret := o.secret)
      ensures smooth ==> r.Ok?
      ensures r.Ok? ==> AllAgree(old(readings), readings, j, o)
      ensures r.Ok? && !seen.used && seen.ready && seen.spec.pinned ==> Took(old(readings), readings, SawSecret(o.secret))
    {
      hide Dealt, Carried, Took, AllAgree, Legal, Run, OrderlyRun, Sane;
      o := known;
      ReadNothing(readings, j, known);
      if seen.used {
        r := Status(j, Failed, Some(!seen.spec.nonDestructive), None, false);
        return;
      }
      if !seen.ready {
        r := Status(j, Preparing, None, None, true);
        return;
      }
      if !seen.spec.pinned {
        r := Status(j, Blocked, None, None, false);
        return;
      }
      var secret := GetSecret();
      if secret.Err? {
        NothingDone(calm, world, trace, j, UsePlan(seen, o), Broken);
        return Err(Broken), o;
      }
      o := o.(secret := secret.value);
      ReadOne(old(readings), SawSecret(o.secret), j, o);
      match secret.value
      case ForeignSecret => r := Status(j, Failed, None, None, false);
      case OtherMode => r := Status(j, Failed, Some(!seen.spec.nonDestructive), None, false);
      case Usable => r := Start(j, seen);
    }

    /** The runner must support a diagnostic selection. */
    method Prepare(j: nat, seen: Slot, known: Observed) returns (r: Result<bool, ApiError>, o: Observed)
      requires Valid() && j < |world.runs| && SlotGrown(seen, world.runs[j]) && !Unfinished(world.runs[j])
      requires seen.spec.valid && EarlierSettled(world, j) && j in world.listed
      modifies `world, `trace, `readings
      ensures Valid() && Dealt(calm, old(world), world, old(trace), trace, j, StartPlan(seen, o), r)
      ensures o == known.(supported := o.supported, secret := o.secret)
      ensures smooth ==> r.Ok?
      ensures r.Ok? ==> AllAgree(old(readings), readings, j, o)
      ensures r.Ok? ==> StartWasRead(old(readings), readings, seen, o)
    {
      hide Dealt, Legal, Run, OrderlyRun, Sane, EarlierSettled, SlotGrown, Closed, Carried, OnlyDealtWith;
      hide UsePlan, Took, AllAgree, StartWasRead;
      o := known;
      ghost var start := readings;
      var supported := CheckSupport(seen, known);
      if supported.Err? {
        r := Err(Broken);
        NothingDone(calm, world, trace, j, StartPlan(seen, o), Broken);
        return;
      }
      o := o.(supported := supported.value);
      ghost var asked := readings;
      r, o := StartOrRefuse(j, seen, o);
      if r.Ok? { StartIsRead(start, asked, readings, j, seen, o); }
    }

    method StartOrRefuse(j: nat, seen: Slot, known: Observed) returns (r: Result<bool, ApiError>, o: Observed)
      requires Valid() && j < |world.runs| && SlotGrown(seen, world.runs[j]) && !Unfinished(world.runs[j])
      requires seen.spec.valid && EarlierSettled(world, j) && j in world.listed
      modifies `world, `trace, `readings
      ensures Valid() && Dealt(calm, old(world), world, old(trace), trace, j, StartPlan(seen, o), r)
      ensures o == known.(secret := o.secret)
      ensures smooth ==> r.Ok?
      ensures r.Ok? ==> AllAgree(old(readings), readings, j, o)
      ensures r.Ok? && (seen.spec.diagnostic ==> o.supported) && !seen.used && seen.ready && seen.spec.pinned ==>
        Took(old(readings), readings, SawSecret(o.secret))
    {
      hide Dealt, Carried, Took, AllAgree, Legal, Run, OrderlyRun, Sane, EarlierSettled, SlotGrown, UsePlan;
      o := known;
      ReadNothing(readings, j, known);
      if seen.spec.diagnostic && !known.supported {
        r := Status(j, Blocked, None, None, false);
      } else {
        r, o := UseOrWait(j, seen, known);
      }
    }

    method CheckSupport(seen: Slot, known: Observed) returns (r: Result<bool, ApiError>)
      modifies `readings
      ensures r.Ok? ==> readings == if seen.spec.diagnostic then old(readings) + [SawSupport(r.value)] else old(readings)
      ensures r.Ok? && !seen.spec.diagnostic ==> r.value == known.supported
      ensures smooth ==> r.Ok?
    {
      if !seen.spec.diagnostic { return Ok(known.supported); }
      r := AskSupport();
    }

    /** A run with a Job of its own: the runner's report is read, and an error of that is one. */
    method Follow(j: nat, seen: Slot, known: Observed) returns (r: Result<bool, ApiError>, o: Observed)
      requires Valid() && j < |world.runs| && known.job.Some? && j in world.listed
      requires known.job.value.finished.Some? ==> !Unfinished(world.runs[j])
      modifies `world, `trace, `readings
      ensures o == known.(progress := o.progress)
      ensures Valid() && Dealt(calm, old(world), world, old(trace), trace, j, JobPlan(seen, o), r)
      ensures r.Ok? ==> FollowSays(world, j, o, r.value)
      ensures smooth ==> r.Ok?
      ensures r.Ok? ==> AllAgree(old(readings), readings, j, o)
      ensures r.Ok? ==> Took(old(readings), readings, SawProgress(o.progress))
    {
      hide Took, AllAgree, JobPlan, Dealt, FollowSays, Carried;
      o := known;
      var progress := GetProgress();
      if progress.Err? {
        NothingDone(calm, world, trace, j, JobPlan(seen, o), Broken);
        return Err(Broken), o;
      }
      o := o.(progress := progress.value);
      ReadOne(old(readings), SawProgress(o.progress), j, o);
      ghost var w1, t1 := world, trace;
      r := TakeOver(j, seen, o);
      DealtFollows(calm, w1, world, t1, trace, j, seen, o, r);
    }

    /** The run's progress is taken over, and its outcome once the Job has finished. */
    method TakeOver(j: nat, seen: Slot, o: Observed) returns (r: Result<bool, ApiError>)
      requires Valid() && j < |world.runs| && o.job.Some? && j in world.listed
      requires o.job.value.finished.Some? ==> !Unfinished(world.runs[j])
      modifies `world, `trace
      ensures Valid() && Dealt(calm, old(world), world, old(trace), trace, j, JobPlan(seen, o), r)
      ensures smooth ==> r.Ok?
    {
      hide Carried, Legal, Run, OrderlyRun, Sane, Calls, Dealt;
      var cleanup, recovery := CleanupOf(o.progress), RecoveryOf(seen, o.progress);
      if o.job.value.finished.Some? {
        var failed := o.job.value.finished.value;
        var outcome := Failed;
        if !failed && o.progress.Some?
           && (o.progress.value.outcome == Some(Passed) || o.progress.value.outcome == Some(Blocked)) {
          outcome := o.progress.value.outcome.value;
        }
        var pending := !seen.spec.nonDestructive && (failed || recovery || cleanup != Verified);
        r := Status(j, outcome, Some(pending), Some(cleanup), false);
      } else {
        r := Status(j, if o.progress.Some? then Running else Starting,
                    Some(!seen.spec.nonDestructive && recovery), Some(cleanup), true);
      }
    }

    /** A run that is not over: late, cancelled, queued, to be prepared or under way. */
    method Advance(j: nat, seen: Slot, busy: bool, known: Observed) returns (r: Result<bool, ApiError>, o: Observed)
      requires Valid() && j < |world.runs| && SlotGrown(seen, world.runs[j])
      requires seen.spec.valid && !Terminal(seen.phase) && j in world.listed
      requires known.job.Some? ==> known.job.value.own
      requires known.job.None? || known.job.value.finished.Some? ==> !Unfinished(world.runs[j])
      requires !busy ==> EarlierSettled(world, j)
      requires known.registered
      modifies `world, `trace, `readings
      ensures o.job == known.job
      ensures Valid() && Dealt(calm, old(world), world, old(trace), trace, j, PlanFor(j, seen, busy, o), r)
      ensures smooth ==> r.Ok?
      ensures r.Ok? ==> AllAgree(old(readings), readings, j, o)
      ensures r.Ok? ==>
        && (o.job.None? && !seen.ready ==> Took(old(readings), readings, SawAge(o.late)))
        && (seen.cancel && o.job.None? && seen.ready ==> Took(old(readings), readings, SawPods(j, o.pods)))
        && (Attended(seen, busy, o) ==> AttentionWasRead(old(readings), readings, seen, o))
    {
      hide Dealt, Legal, Run, OrderlyRun, Sane, EarlierSettled, SlotGrown, Closed, CancelPlan, StartPlan, JobPlan;
      hide Took, AllAgree, AttentionWasRead;
      o := known;
      ReadNothing(readings, j, known);
      ghost var asked := readings;
      if o.job.None? && !seen.ready {
        var late := AskAge();
        o := o.(late := late);
        asked := readings;
        ReadOne(old(readings), SawAge(late), j, o);
        if late {
          r := Status(j, if seen.cancel then Phase.Cancelled else Failed, Some(seen.spec.account != j), None, false);
          return;
        }
      }
      if seen.cancel {
        r, o := Withdraw(j, seen, o);
      } else if busy && o.job.None? {
        r := Status(j, Queued, None, None, false);
      } else {
        r, o := Proceed(j, seen, busy, o);
      }
      if r.Ok? {
        if o.job.None? && !seen.ready { ReadOne(old(readings), SawAge(o.late), j, o); } else { ReadNothing(asked, j, o); }
        if asked == readings { ReadNothing(asked, j, o); }
        ReadOn(old(readings), asked, readings, j, o);
        AttentionStays(old(readings), asked, readings, j, seen, o);
      }
    }

    /** The Appliance and its Nodes are checked first, then the marker of the lab. */
    method Identify(j: nat, known: Observed) returns (r: Result<Observed, ApiError>)
      requires j < |world.runs| && known.registered
      modifies `readings
      ensures r.Ok? ==> r.value == known.(identities := r.value.identities, registered := r.value.registered)
      ensures r.Ok? && calm && Unfinished(world.runs[j]) ==> r.value.identities && r.value.registered
      ensures r.Err? ==> r.error == Broken
      ensures smooth ==> r.Ok?
      ensures r.Ok? ==> readings == old(readings) + [SawIdentities(r.value.identities)]
                                    + if r.value.identities then [SawLab(r.value.registered)] else []
    {
      var identities :- AskIdentities(j);
      if !identities { return Ok(known.(identities := false)); }
      var registered :- AskLab(j);
      return Ok(known.(identities := true, registered := registered));
    }

    /** The registered identities and the marker of the lab must be as recorded. */
    method Proceed(j: nat, seen: Slot, busy: bool, known: Observed) returns (r: Result<bool, ApiError>, o: Observed)
      requires Valid() && j < |world.runs| && SlotGrown(seen, world.runs[j])
      requires seen.spec.valid && j in world.listed
      requires known.job.None? || known.job.value.finished.Some? ==> !Unfinished(world.runs[j])
      requires known.job.None? ==> EarlierSettled(world, j)
      modifies `world, `trace, `readings
      requires known.registered
      ensures o.job == known.job && o.late == known.late
      ensures Valid() && Dealt(calm, old(world), world, old(trace), trace, j, ProceedPlan(seen, o), r)
      ensures smooth ==> r.Ok?
      ensures r.Ok? ==> AllAgree(old(readings), readings, j, o)
      ensures r.Ok? ==> AttentionWasRead(old(readings), readings, seen, o)
    {
      hide Dealt, Legal, Run, OrderlyRun, Sane, EarlierSettled, SlotGrown, Closed, StartPlan, JobPlan;
      hide Took, AllAgree, StartWasRead;
      o := known;
      var identified := Identify(j, known);
      if identified.Err? {
        r := Err(Broken);
        NothingDone(calm, world, trace, j, ProceedPlan(seen, o), Broken);
        return;
      }
      o := identified.value;
      ghost var asked := readings;
      if !o.identities || !o.registered {
        r := Block(j);
      } else if o.job.None? {
        r, o := Prepare(j, seen, o);
      } else {
        r, o := Follow(j, seen, o);
      }
      if r.Ok? {
        BothWereRead(old(readings), asked, readings, j, o);
        if readings == asked { ReadNothing(asked, j, o); }
        ReadOn(old(readings), asked, readings, j, o);
        if o.identities && o.registered && o.job.None? { StartStays(old(readings), asked, readings, j, seen, o); }
      }
    }

    method Block(j: nat) returns (r: Result<bool, ApiError>)
      requires Valid() && j < |world.runs| && j in world.listed && (calm ==> !Unfinished(world.runs[j]))
      modifies `world, `trace
      ensures Valid() && Dealt(calm, old(world), world, old(trace), trace, j, Reject, r)
      ensures smooth ==> r.Ok?
    {
      var refused :- About(Refuse(j), j);
      return Ok(false);
    }

    /**
     Looks at a run as it was listed and executes the plan that what it reads calls for. If something fails, part
     of the plan may have been carried out, but no other run has been touched.
     */
    method Reconcile(j: nat, seen: Slot, busy: bool) returns (r: Result<bool, ApiError>, o: Observed)
      requires Valid() && j < |world.runs| && SlotGrown(seen, world.runs[j])
      requires !Terminal(seen.phase) ==> j in world.listed
      requires !busy ==> EarlierSettled(world, j)
      modifies `world, `trace, `readings
      ensures Valid() && Dealt(calm, old(world), world, old(trace), trace, j, PlanFor(j, seen, busy, o), r)
      ensures r.Ok? ==> j < |world.runs| && Says(world.runs[j], j, seen, busy, o, r.value)
      ensures r.Ok? ==> CallsFit(old(trace), trace, j, seen, busy, o)
      ensures smooth ==> r.Ok?
      ensures r.Ok? ==> WasRead(old(readings), readings, j, seen, busy, o)
    {
      r, o := Treat(j, seen, busy);
      DealtIsSeen(calm, old(world), world, old(trace), trace, j, seen, busy, o, r);
    }

    method Treat(j: nat, seen: Slot, busy: bool) returns (r: Result<bool, ApiError>, o: Observed)
      requires Valid() && j < |world.runs| && SlotGrown(seen, world.runs[j])
      requires !Terminal(seen.phase) ==> j in world.listed
      requires !busy ==> EarlierSettled(world, j)
      modifies `world, `trace, `readings
      ensures Valid() && Dealt(calm, old(world), world, old(trace), trace, j, PlanFor(j, seen, busy, o), r)
      ensures smooth ==> r.Ok?
      ensures r.Ok? ==> WasRead(old(readings), readings, j, seen, busy, o)
    {
      hide Legal, Run, OrderlyRun, Took, AllAgree, AttentionWasRead, Dealt, PlanFor;
      ReadNothing(readings, j, Observed(None, false, false, true, true, true, Usable, None));
      o := Observed(None, false, false, true, true, true, Usable, None);
      if !seen.spec.valid {
        r := Status(j, Blocked, None, None, false);
        InvalidIsBlocked(j, seen, busy, o);
        return;
      }
      var job := ReadJob(j);
      ghost var w1, t1, asked := world, trace, readings;
      GrownIsHarmless(old(world), world, seen, j);
      if job.Err? {
        NothingDone(calm, world, trace, j, PlanFor(j, seen, busy, o), job.error);
        r := Err(job.error);
      } else {
        o := o.(job := job.value);
        r, o := Judge(j, seen, busy, o);
      }
      if r.Ok? {
        ReadOne(old(readings), SawJob(j, o.job), j, o);
        ReadOn(old(readings), asked, readings, j, o);
        AttentionStays(old(readings), asked, readings, j, seen, o);
      }
      ReadsThenDealt(calm, old(world), w1, world, old(trace), t1, trace, j, PlanFor(j, seen, busy, o), r);
    }

    /** A foreign Job is not adopted, and a run that is over stays as it is. */
    method Judge(j: nat, seen: Slot, busy: bool, known: Observed) returns (r: Result<bool, ApiError>, o: Observed)
      requires Valid() && j < |world.runs| && SlotGrown(seen, world.runs[j])
      requires seen.spec.valid && (!Terminal(seen.phase) ==> j in world.listed) && known.registered
      requires known.job == world.runs[j].job
      requires !busy ==> EarlierSettled(world, j)
      modifies `world, `trace, `readings
      ensures Valid() && Dealt(calm, old(world), world, old(trace), trace, j, PlanFor(j, seen, busy, o), r)
      ensures smooth ==> r.Ok?
      ensures r.Ok? ==> AllAgree(old(readings), readings, j, o)
      ensures r.Ok? && IsOpen(seen, o) ==>
        && (o.job.None? && !seen.ready ==> Took(old(readings), readings, SawAge(o.late)))
        && (seen.cancel && o.job.None? && seen.ready ==> Took(old(readings), readings, SawPods(j, o.pods)))
        && (Attended(seen, busy, o) ==> AttentionWasRead(old(readings), readings, seen, o))
      ensures o.job == known.job
    {
      hide Legal, Run, OrderlyRun, Sane, EarlierSettled, ProceedPlan, CancelPlan;
      o := known;
      if o.job.Some? && !o.job.value.own {
        r := Status(j, Failed, None, None, false);
        return;
      }
      if Terminal(seen.phase) {
        NothingWritten(calm, world, trace, j);
        r := Ok(false);
        return;
      }
      r, o := Advance(j, seen, busy, o);
    }

    // ---------- all runs ----------

    /** The list of the runs, in the order of their creation. */
    method ListRuns() returns (r: Result<seq<Slot>, ApiError>)
      requires Valid()
      modifies `world, `trace
      ensures Valid()
      ensures |old(world).runs| <= |world.runs|
      ensures r.Ok? ==> r.value == world.runs && FreshList(world, r.value)
      ensures smooth ==> r.Ok?
    {
      Others();
      var answers: bool := *;
      if !answers && !smooth { return Err(Broken); }
      Perform(List);
      return Ok(world.runs);
    }

    /**
     One pass: every run is dealt with in the order of creation. A run may start only if everything before it is
     over or settled, however many accounts are in play and whatever fails. `plans` are the plans that were executed,
     with none for a run that something failed for.
     */
    method ReconcileAll() returns (r: Result<(), ApiError>, plans: seq<Option<Plan>>)
      requires Valid()
      modifies `world, `trace, `readings
      ensures Valid()
      ensures LaunchesAlone(plans)
      ensures calm ==> Promised(world)
      ensures r.Ok? ==> |old(world).runs| <= |plans| <= |world.runs|
      ensures smooth ==> r.Ok? && forall k :: 0 <= k < |plans| ==> plans[k].Some?
    {
      r, plans := Pass();
      if calm { CalmIsPromised(); }
    }

    method Pass() returns (r: Result<(), ApiError>, plans: seq<Option<Plan>>)
      requires Valid()
      modifies `world, `trace, `readings
      ensures Valid()
      ensures LaunchesAlone(plans)
      ensures r.Ok? ==> |old(world).runs| <= |plans| <= |world.runs|
      ensures smooth ==> r.Ok? && forall k :: 0 <= k < |plans| ==> plans[k].Some?
    {
      hide Legal, Run, OrderlyRun, Sane, Dealt, PlanFor, SlotGrown, WasRead, Says, CallsFit, LaunchesAlone, AllFree;
      plans := [];
      NoPlans();
      var listing := ListRuns();
      if listing.Err? { return Err(listing.error), plans; }
      var runs := listing.value;
      var busy, unsettled: set<nat> := false, {};
      var i := 0;
      while i < |runs|
        invariant Valid() && 0 <= i <= |runs| <= |world.runs|
        invariant Ahead(world, runs, i)
        invariant Behind(world, runs, i, busy, unsettled)
        invariant LaunchesAlone(plans) && (busy || AllFree(plans))
        invariant |plans| == i && |old(world).runs| <= |runs|
        invariant smooth ==> forall k :: 0 <= k < |plans| ==> plans[k].Some?
      {
        var owner := runs[i].spec.account;
        var otherAccount := unsettled - {owner} != {};
        ghost var w0, t0 := world, trace;
        FreeMeansSettled(world, runs, i, busy, unsettled);
        HeadIsAhead(world, runs, i);
        var result, o := Reconcile(i, runs[i], busy || otherAccount);
        PassesOn(calm, w0, world, t0, trace, runs, i, busy, unsettled, o, result);
        if result.Ok? {
          var plan := PlanFor(i, runs[i], busy || otherAccount, o);
          LaunchesExactlyWhen(i, runs[i], busy || otherAccount, o);
          WasPlanned(calm, w0, world, t0, trace, i, plan, result);
          OneMorePlan(plans, Some(plan));
          plans := plans + [Some(plan)];
          busy := result.value || busy;
          if !runs[i].cleaned { unsettled := unsettled + {owner}; }
        } else {
          ghost var w1 := world;
          OneMorePlan(plans, None);
          plans := plans + [None];
          busy := true;
          if result.error == Stopped { return Err(Stopped), plans; }
          var reported := About(Recover(i), i);
          if reported.Err? { return Err(reported.error), plans; }
          StaysAhead(w1, world, runs, i);
        }
        i := i + 1;
      }
      return Ok(()), plans;
    }
  }

  /** The plans were executed and left the lab free. */
  predicate AllFree(plans: seq<Option<Plan>>) {
    forall k :: 0 <= k < |plans| ==> plans[k].Some? && !GoesOn(plans[k].value)
  }

  /** A Job is requested only if all plans before it left the lab free; so there is at most one in a pass. */
  predicate LaunchesAlone(plans: seq<Option<Plan>>) {
    forall k :: 0 <= k < |plans| && plans[k] == Some(Launch) ==> AllFree(plans[..k])
  }

  lemma OneMorePlan(plans: seq<Option<Plan>>, p: Option<Plan>)
    requires LaunchesAlone(plans) && (p == Some(Launch) ==> AllFree(plans))
    ensures LaunchesAlone(plans + [p])
    ensures AllFree(plans) && p.Some? && !GoesOn(p.value) ==> AllFree(plans + [p])
  {
    assert (plans + [p])[..|plans|] == plans;
    forall k | 0 <= k < |plans| && plans[k] == Some(Launch) ensures AllFree((plans + [p])[..k]) {
      assert (plans + [p])[..k] == plans[..k];
    }
  }

  lemma NoPlans()
    ensures LaunchesAlone([]) && AllFree([])
  {
  }

  lemma WasPlanned(calm: bool, w: World, u: World, before: seq<Action>, after: seq<Action>, j: nat, plan: Plan,
                   r: Result<bool, ApiError>)
    requires Dealt(calm, w, u, before, after, j, plan, r) && r.Ok?
    ensures r.value == GoesOn(plan)
  {
  }

  // ---------- what a pass knows ----------

  /** A run that was listed as ready and not over is on the operator's list. */
  ghost predicate FreshList(w: World, runs: seq<Slot>)
    requires |runs| <= |w.runs|
  {
    Ahead(w, runs, 0)
  }

  /** The runs that the pass has not come to yet are as listed, but for what the API and the cluster have done. */
  ghost predicate Ahead(w: World, runs: seq<Slot>, i: nat) {
    |runs| <= |w.runs| && forall k: nat :: i <= k < |runs| ==> AheadAt(w, runs[k], k)
  }

  ghost predicate AheadAt(w: World, seen: Slot, k: nat)
    requires k < |w.runs|
  {
    SlotGrown(seen, w.runs[k]) && (!Terminal(seen.phase) ==> k in w.listed)
  }

  /**
   The runs that the pass has dealt with keep the lab busy, or are over or settled, or are still open, in which
   case accounts of two owners are unsettled, so that no later run gets past both.
   */
  ghost predicate Behind(w: World, runs: seq<Slot>, i: nat, busy: bool, unsettled: set<nat>)
    requires i <= |runs| <= |w.runs|
  {
    busy || forall k: nat :: k < i ==> BehindAt(w, runs[k], k, unsettled)
  }

  ghost predicate BehindAt(w: World, seen: Slot, k: nat, unsettled: set<nat>)
    requires k < |w.runs|
  {
    || Terminal(w.runs[k].phase) || w.runs[k].cleaned
    || (seen.spec.account in unsettled && exists other :: other in unsettled && other != seen.spec.account)
  }

  lemma FreeMeansSettled(w: World, runs: seq<Slot>, i: nat, busy: bool, unsettled: set<nat>)
    requires i < |runs| <= |w.runs| && Behind(w, runs, i, busy, unsettled)
    ensures !busy && unsettled - {runs[i].spec.account} == {} ==> EarlierSettled(w, i)
  {
    if !busy && unsettled - {runs[i].spec.account} == {} {
      forall k: nat | k < i ensures Terminal(w.runs[k].phase) || w.runs[k].cleaned {
        assert BehindAt(w, runs[k], k, unsettled);
        forall x | x in unsettled ensures x == runs[i].spec.account {
          assert x !in unsettled - {runs[i].spec.account};
        }
      }
    }
  }

  lemma HeadIsAhead(w: World, runs: seq<Slot>, i: nat)
    requires i < |runs| && Ahead(w, runs, i)
    ensures SlotGrown(runs[i], w.runs[i]) && (!Terminal(runs[i].phase) ==> i in w.listed)
  {
    assert AheadAt(w, runs[i], i);
  }

  lemma StaysAhead(w: World, u: World, runs: seq<Slot>, i: nat)
    requires i < |runs| && Ahead(w, runs, i + 1) && OnlyDealtWith(w, u, i)
    ensures Ahead(u, runs, i + 1)
  {
    forall k: nat | i + 1 <= k < |runs| ensures AheadAt(u, runs[k], k) {
      assert AheadAt(w, runs[k], k);
      assert SlotGrown(w.runs[k], u.runs[k]);
    }
  }

  lemma StaysBehind(w: World, u: World, runs: seq<Slot>, i: nat, busy: bool, unsettled: set<nat>, more: set<nat>)
    requires i < |runs| <= |w.runs| && Behind(w, runs, i, busy, unsettled) && OnlyDealtWith(w, u, i)
    ensures Behind(u, runs, i, busy, unsettled + more)
  {
    if !busy {
      forall k: nat | k < i ensures BehindAt(u, runs[k], k, unsettled + more) {
        assert BehindAt(w, runs[k], k, unsettled);
        assert SlotGrown(w.runs[k], u.runs[k]);
        if other :| other in unsettled && other != runs[k].spec.account {
          assert other in unsettled + more;
        }
      }
    }
  }

  /** What is known about the runs once one more of them has been dealt with. */
  lemma PassesOn(calm: bool, w: World, u: World, before: seq<Action>, after: seq<Action>, runs: seq<Slot>, i: nat, busy: bool,
                 unsettled: set<nat>, o: Observed, r: Result<bool, ApiError>)
    requires i < |runs| && Ahead(w, runs, i) && Behind(w, runs, i, busy, unsettled)
    requires var owner := runs[i].spec.account;
      Dealt(calm, w, u, before, after, i, PlanFor(i, runs[i], busy || unsettled - {owner} != {}, o), r)
    ensures Ahead(u, runs, i + 1) && (calm && r == Err(Broken) ==> Recoverable(u, i))
    ensures r.Ok? ==>
      Behind(u, runs, i + 1, busy || r.value, unsettled + if runs[i].cleaned then {} else {runs[i].spec.account})
  {
    assert Ahead(w, runs, i + 1);
    StaysAhead(w, u, runs, i);
    if r.Ok? && !busy && !r.value {
      var owner := runs[i].spec.account;
      var more := if runs[i].cleaned then {} else {owner};
      StaysBehind(w, u, runs, i, busy, unsettled, more);
      FreesTheLab(i, runs[i], unsettled - {owner} != {}, o);
      assert AheadAt(w, runs[i], i);
      assert BehindAt(u, runs[i], i, unsettled + more) by {
        if !Terminal(u.runs[i].phase) && !runs[i].cleaned {
          var other :| other in unsettled - {owner};
          assert other in unsettled + more && other != owner;
        }
      }
    }
  }

  /** What the run says when a plan has been executed. */
  ghost predicate Executed(w: World, j: nat, plan: Plan, goesOn: bool) {
    && goesOn == GoesOn(plan)
    && j < |w.runs|
    && match plan
       case Leave => Terminal(w.runs[j].phase)
       case Write(phase, recovery, cleanup, _) => Written(w, j, phase, recovery, cleanup)
       case Reject => Written(w, j, Blocked, None, None)
       case Remove => Written(w, j, Cancelling, None, None)
       case Launch => Written(w, j, Starting, Some(!w.runs[j].spec.nonDestructive), None)
  }

  /** The operator has dealt with run `j` by executing a plan, unless something failed on the way. */
  ghost predicate Dealt(calm: bool, w: World, u: World, before: seq<Action>, after: seq<Action>, j: nat, plan: Plan,
                        r: Result<bool, ApiError>) {
    && OnlyDealtWith(w, u, j)
    && (r.Ok? ==> Executed(u, j, plan, r.value) && Carried(before, after, Calls(plan, j)))
    && (calm && r == Err(Broken) ==> Recoverable(u, j))
  }

  lemma DealtIsSeen(calm: bool, w: World, u: World, before: seq<Action>, after: seq<Action>, j: nat, seen: Slot, busy: bool,
                    o: Observed, r: Result<bool, ApiError>)
    requires j < |w.runs| && SlotGrown(seen, w.runs[j])
    requires Dealt(calm, w, u, before, after, j, PlanFor(j, seen, busy, o), r)
    ensures r.Ok? ==>
      j < |u.runs| && Says(u.runs[j], j, seen, busy, o, r.value) && CallsFit(before, after, j, seen, busy, o)
  {
    hide PlanFor, Carried, CallsFit, Says;
    if r.Ok? {
      ExecutedSays(u, j, seen, busy, o, r.value);
      CarriedFits(before, after, j, seen, busy, o);
    }
  }

  lemma InvalidIsBlocked(j: nat, seen: Slot, busy: bool, o: Observed)
    requires !seen.spec.valid
    ensures PlanFor(j, seen, busy, o) == Write(Blocked, None, None, false)
  {
  }

  lemma DealtFollows(calm: bool, w: World, u: World, before: seq<Action>, after: seq<Action>, j: nat, seen: Slot,
                     o: Observed, r: Result<bool, ApiError>)
    requires o.job.Some? && Dealt(calm, w, u, before, after, j, JobPlan(seen, o), r)
    ensures r.Ok? ==> FollowSays(u, j, o, r.value)
  {
    hide Carried, OnlyDealtWith;
  }

  /** Giving up before any call keeps every promise. */
  lemma NothingDone(calm: bool, w: World, trace: seq<Action>, j: nat, plan: Plan, error: ApiError)
    requires calm && error == Broken ==> Recoverable(w, j)
    ensures Dealt(calm, w, w, trace, trace, j, plan, Err(error))
  {
  }

  lemma NothingWritten(calm: bool, w: World, trace: seq<Action>, j: nat)
    requires j < |w.runs| && Terminal(w.runs[j].phase)
    ensures Dealt(calm, w, w, trace, trace, j, Leave, Ok(false))
  {
  }

  /** What has happened before a read takes nothing away from what was known about a run. */
  lemma GrownIsHarmless(w: World, u: World, seen: Slot, j: nat)
    requires Grown(w, u) && j < |w.runs| && SlotGrown(seen, w.runs[j])
    ensures SlotGrown(seen, u.runs[j]) && (EarlierSettled(w, j) ==> EarlierSettled(u, j))
  {
    assert SlotGrown(w.runs[j], u.runs[j]);
    if EarlierSettled(w, j) {
      forall i | 0 <= i < j ensures Terminal(u.runs[i].phase) || u.runs[i].cleaned {
        assert SlotGrown(w.runs[i], u.runs[i]);
      }
    }
  }

  lemma ReadsThenDealt(calm: bool, w: World, u: World, v: World, t0: seq<Action>, t1: seq<Action>, t2: seq<Action>,
                       j: nat, plan: Plan, r: Result<bool, ApiError>)
    requires Grown(w, u) && Carried(t0, t1, multiset{}) && Dealt(calm, u, v, t1, t2, j, plan, r)
    ensures Dealt(calm, w, v, t0, t2, j, plan, r)
  {
    assert j < |w.runs| ==> SlotGrown(w.runs[j], u.runs[j]);
    DealtTwice(w, u, v, j);
    if r.Ok? {
      NothingThenCarried(t0, t1, t2, Calls(plan, j));
    }
  }

  lemma LaunchIsTwoCalls(j: nat)
    ensures multiset{MarkUsed(j)} + multiset{PostJob(j)} == Calls(Launch, j)
  {
  }

  lemma NothingThenCarried(before: seq<Action>, middle: seq<Action>, after: seq<Action>, calls: multiset<Action>)
    requires Carried(before, middle, multiset{}) && Carried(middle, after, calls)
    ensures Carried(before, after, calls)
  {
    CarriedTwice(before, middle, after, multiset{}, calls);
    assert multiset{} + calls == calls;
  }

  lemma CarriedThenNothing(before: seq<Action>, middle: seq<Action>, after: seq<Action>, calls: multiset<Action>)
    requires Carried(before, middle, calls) && Carried(middle, after, multiset{})
    ensures Carried(before, after, calls)
  {
    CarriedTwice(before, middle, after, calls, multiset{});
    assert calls + multiset{} == calls;
  }

  lemma DealtTwice(w: World, u: World, v: World, j: nat)
    requires OnlyDealtWith(w, u, j) && OnlyDealtWith(u, v, j)
    ensures OnlyDealtWith(w, v, j)
  {
    forall k: nat | k < |w.runs| && k != j ensures SlotGrown(w.runs[k], v.runs[k]) {
      assert SlotGrown(w.runs[k], u.runs[k]) && SlotGrown(u.runs[k], v.runs[k]);
    }
  }

  ghost predicate Written(w: World, j: nat, phase: Phase, recovery: Option<bool>, cleanup: Option<Cleanup>) {
    && j < |w.runs|
    && w.armed == None
    && w.runs[j].phase == phase
    && (recovery.Some? ==> w.runs[j].recovery == recovery)
    && (cleanup.Some? ==> w.runs[j].cleanup == cleanup)
  }
}
