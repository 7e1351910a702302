/**
 Regression runs as a state machine. The operator, the dashboard API and the cluster act on the same run objects,
 Jobs and test accounts, one API call at a time; the operator may stop between any two of its calls. Runs are
 numbered in the order of their creation.
 */
module RegressionProtocol {
  import opened Wrappers

  datatype Phase =
    | New | Preparing | Queued | Starting | Running | Cancelling | Recovering
    | Passed | Failed | Blocked | Cancelled

  datatype Cleanup = Unknown | Required | InProgress | Verified | Stuck

  /** A Job with the name of a run; it is the run's own if it carries its label. */
  datatype Job = Job(own: bool, finished: Option<bool>)

  /** What the author of a run asked for; it never changes. `account` is the run whose test account it uses. */
  datatype Spec = Spec(valid: bool, nonDestructive: bool, diagnostic: bool, pinned: bool, account: nat)

  /**
   A run object, together with the Job of its name and whether Pods of the run are active. `abandoned` says that the
   API has failed to set the run up, or turned it down, and has reported it as failed.
   */
  datatype Slot = Slot(
    spec: Spec,
    cancel: bool,
    ready: bool,
    used: bool,
    abandoned: bool,
    consumer: Option<nat>,
    phase: Phase,
    recovery: Option<bool>,
    cleanup: Option<Cleanup>,
    cleaned: bool,
    job: Option<Job>,
    pods: bool)

  /**
   `accounts` are the test accounts that exist. `listed` are the runs that the operator has on the list of its pass
   as not over and has not reported as over since, and `armed` is the run for which it has just recorded the use of
   the account. `doing` is what the API is in the middle of: it does one thing at a time.
   */
  datatype World = World(
    runs: seq<Slot>, accounts: set<nat>, listed: set<nat>, armed: Option<nat>, doing: Option<Business>)

  /**
   The API cleans up an account, on the word of the run that speaks for it, and `released` says whether that run
   released it; or it is concerned with a run that it has created or has found to need recovery.
   */
  datatype Business = Clearing(account: nat, latest: nat, released: bool) | Tending(run: nat)

  datatype Action =
    // the operator
    | List
    | Report(run: nat, phase: Phase, recovery: Option<bool>, cleanup: Option<Cleanup>)
    | Refuse(run: nat)
    | Recover(run: nat)
    | MarkUsed(run: nat)
    | PostJob(run: nat)
    | DeleteJob(run: nat)
    | Restart
    // the dashboard API
    | Submit(spec: Spec)
    | CreateAccount(run: nat)
    | MarkReady(run: nat)
    | Consume(run: nat)
    | Abandon(run: nat)
    | TurnDown(run: nat)
    | Cancel(run: nat)
    | Withhold(run: nat)
    | Retain(run: nat)
    | Clear(account: nat, latest: nat)
    | DeleteAccount(account: nat, latest: nat)
    | MarkCleaned(run: nat, recovery: Option<bool>, cleanup: Option<Cleanup>)
    // the cluster
    | PodStarts(run: nat)
    | PodEnds(run: nat)
    | JobFinishes(run: nat, failed: bool)
    | JobVanishes(run: nat)
    | ForeignJob(run: nat)

  predicate Terminal(p: Phase) {
    p == Passed || p == Failed || p == Blocked || p == Cancelled
  }

  /** The run's own Job exists and has not finished. */
  predicate Unfinished(s: Slot) {
    s.job.Some? && s.job.value.own && s.job.value.finished.None?
  }

  /** The run occupies the lab. */
  predicate Live(s: Slot) {
    Unfinished(s) || s.pods
  }

  /** The account is gone, or was never made, and will never be made again. */
  predicate Lost(w: World, account: nat) {
    && account !in w.accounts
    && account < |w.runs|
    && (w.runs[account].ready || w.runs[account].used || w.runs[account].abandoned || AnyCleaned(w, account))
  }

  predicate AnyCleaned(w: World, account: nat) {
    exists k: nat :: k < |w.runs| && InFamily(w, account, k) && w.runs[k].cleaned
  }

  /** The run has had the one Job that it can have, or the request for it was given up. */
  predicate Spent(w: World, j: nat)
    requires j < |w.runs|
  {
    w.runs[j].used && !Unfinished(w.runs[j]) && w.armed != Some(j)
  }

  /** The run will never have a Job again, whatever its status says. */
  predicate Closed(w: World, j: nat)
    requires j < |w.runs|
  {
    var s := w.runs[j];
    !s.spec.valid || Spent(w, j) || (!s.ready && (s.abandoned || Lost(w, s.spec.account)))
  }

  /** The run is over, or will never have a Job again. */
  predicate Quiet(w: World, j: nat)
    requires j < |w.runs|
  {
    Terminal(w.runs[j].phase) || Closed(w, j)
  }

  predicate IsClearing(w: World, account: nat) {
    w.doing.Some? && w.doing.value.Clearing? && w.doing.value.account == account
  }

  predicate Borrows(w: World, j: nat)
    requires j < |w.runs|
  {
    w.runs[j].spec.account != j
  }

  predicate InFamily(w: World, account: nat, j: nat) {
    j < |w.runs| && w.runs[j].spec.account == account
  }

  /** The run that speaks for all runs of an account: its recorded consumer, or else the youngest. */
  predicate Latest(w: World, account: nat, j: nat) {
    && InFamily(w, account, j)
    && account < |w.runs|
    && var c := w.runs[account].consumer;
      if c.Some? && InFamily(w, account, c.value) then j == c.value
      else forall k: nat :: k < |w.runs| && InFamily(w, account, k) ==> k <= j
  }

  predicate AnyUsed(w: World, account: nat) {
    exists k: nat :: k < |w.runs| && InFamily(w, account, k) && w.runs[k].used
  }

  /** What the run that speaks for a used account must say before the account may go. */
  predicate Released(s: Slot) {
    s.recovery == Some(false) && (s.spec.nonDestructive || s.cleanup == Some(Verified))
  }

  /** Everything before a run is over, or settled by the API. */
  predicate EarlierSettled(w: World, j: nat)
    requires j <= |w.runs|
  {
    forall i :: 0 <= i < j ==> Terminal(w.runs[i].phase) || w.runs[i].cleaned
  }

  // ---------- the API's selections ----------

  /** The runs that share an account, or only those of them that are not settled yet. */
  predicate Counts(w: World, account: nat, pendingOnly: bool, k: nat) {
    InFamily(w, account, k) && (pendingOnly ==> !w.runs[k].cleaned)
  }

  /** The youngest of the first `n` runs that count. */
  function Youngest(w: World, account: nat, pendingOnly: bool, n: nat): (r: Option<nat>)
    requires n <= |w.runs|
    ensures r.Some? ==> r.value < n && Counts(w, account, pendingOnly, r.value)
    ensures forall k: nat :: k < n && Counts(w, account, pendingOnly, k) ==> r.Some? && k <= r.value
  {
    if n == 0 then None
    else if Counts(w, account, pendingOnly, n - 1) then Some(n - 1)
    else Youngest(w, account, pendingOnly, n - 1)
  }

  /** The run that speaks for an account: the recorded consumer if both count, or else the youngest that does. */
  function LatestFamily(w: World, account: nat, pendingOnly: bool): (r: Option<nat>)
    ensures r.Some? ==> Counts(w, account, pendingOnly, r.value)
    ensures r.None? ==> forall k: nat :: k < |w.runs| ==> !Counts(w, account, pendingOnly, k)
  {
    if Counts(w, account, pendingOnly, account) && w.runs[account].consumer.Some?
       && Counts(w, account, pendingOnly, w.runs[account].consumer.value)
    then w.runs[account].consumer
    else Youngest(w, account, pendingOnly, |w.runs|)
  }

  function FirstPending(w: World, n: nat): (r: Option<nat>)
    requires n <= |w.runs|
    ensures r.Some? ==> r.value < n && !w.runs[r.value].cleaned
    ensures forall k: nat :: k < n && !w.runs[k].cleaned ==> r.Some? && r.value <= k
  {
    if n == 0 then None
    else
      var front := FirstPending(w, n - 1);
      if front.Some? then front else if !w.runs[n - 1].cleaned then Some(n - 1) else None
  }

  /** All runs that are not settled are over and use this account. */
  predicate OnlyPendingAccount(w: World, account: nat) {
    forall k: nat :: k < |w.runs| && !w.runs[k].cleaned ==>
      Terminal(w.runs[k].phase) && w.runs[k].spec.account == account
  }

  /** The run whose retained account the next run takes over, if there is exactly one such account. */
  function RecoveryCandidate(w: World): Option<nat> {
    var first := FirstPending(w, |w.runs|);
    if first.None? || !OnlyPendingAccount(w, w.runs[first.value].spec.account) then None
    else
      var latest := LatestFamily(w, w.runs[first.value].spec.account, true);
      if latest.Some? && w.runs[latest.value].recovery == Some(true) then latest else None
  }

  /** The API offers to recover this account. */
  predicate Offered(w: World, account: nat) {
    RecoveryCandidate(w).Some? && w.runs[RecoveryCandidate(w).value].spec.account == account
  }

  // ---------- what each party may do ----------

  predicate Enabled(w: World, a: Action) {
    match a
    case List => true
    case Restart => true
    case Submit(spec) =>
      && (spec.account == |w.runs|
          || (spec.account < |w.runs| && w.runs[spec.account].spec.account == spec.account && !spec.nonDestructive
              && Offered(w, spec.account)))
    case Report(j, phase, recovery, cleanup) =>
      && j < |w.runs| && (Terminal(phase) ==> !Unfinished(w.runs[j]))
      && (j in w.listed || (Terminal(phase) && recovery.None? && cleanup.None?))
    case Refuse(j) => j < |w.runs|
    case Recover(j) => j < |w.runs|
    case MarkUsed(j) =>
      && j < |w.runs| && j in w.listed && w.runs[j].ready && !w.runs[j].used
      && w.runs[j].spec.valid && EarlierSettled(w, j)
    case PostJob(j) => j < |w.runs| && w.armed == Some(j) && w.runs[j].spec.valid && EarlierSettled(w, j)
    case DeleteJob(j) => j < |w.runs|
    case CreateAccount(j) =>
      && j < |w.runs| && !Borrows(w, j) && !w.runs[j].ready && !w.runs[j].used && !w.runs[j].abandoned
      && !AnyCleaned(w, j)
    case MarkReady(j) => j < |w.runs| && w.runs[j].spec.account in w.accounts && !w.runs[j].abandoned
    case Consume(j) => j < |w.runs| && Borrows(w, j) && w.runs[j].spec.account < j && w.doing == Some(Tending(j))
    case Abandon(j) => j < |w.runs|
    case TurnDown(j) => j < |w.runs| && !w.runs[j].ready
    case Cancel(j) => j < |w.runs|
    case Withhold(j) =>
      && j < |w.runs| && Latest(w, w.runs[j].spec.account, j) && AnyUsed(w, w.runs[j].spec.account)
      && !Released(w.runs[j])
    case Retain(j) => j < |w.runs| && w.doing == Some(Tending(j))
    case Clear(account, latest) =>
      && Latest(w, account, latest)
      && (forall k: nat :: k < |w.runs| && InFamily(w, account, k) ==> Terminal(w.runs[k].phase))
      && (AnyUsed(w, account) ==> Released(w.runs[latest]))
    case DeleteAccount(account, latest) =>
      IsClearing(w, account) && w.doing.value.latest == latest
    case MarkCleaned(j, _, _) =>
      j < |w.runs| && IsClearing(w, w.runs[j].spec.account) && w.runs[j].spec.account !in w.accounts
    case PodStarts(j) => j < |w.runs| && Unfinished(w.runs[j])
    case PodEnds(j) => j < |w.runs|
    case JobFinishes(j, _) => j < |w.runs| && Unfinished(w.runs[j])
    case JobVanishes(j) => j < |w.runs|
    case ForeignJob(j) => j < |w.runs| && w.runs[j].job.None?
  }

  function Or<T>(x: Option<T>, y: Option<T>): Option<T> {
    if x.Some? then x else y
  }

  /** What an action of the operator or the API does to the run it concerns, or of the cluster to its Job. */
  function Touch(s: Slot, a: Action): (r: Slot)
    ensures r.spec == s.spec && r.consumer == s.consumer
  {
    match a
    case Report(_, phase, recovery, cleanup) =>
      s.(phase := phase, recovery := Or(recovery, s.recovery), cleanup := Or(cleanup, s.cleanup))
    case Refuse(_) => s.(phase := Blocked)
    case Recover(_) => s.(phase := Recovering)
    case MarkUsed(_) => s.(used := true)
    case PostJob(_) => if s.job.None? then s.(job := Some(Job(true, None))) else s
    case MarkReady(_) => s.(ready := true)
    case Abandon(_) => s.(phase := Failed, abandoned := true)
    case TurnDown(_) => s.(phase := Failed, abandoned := true, recovery := Some(false), cleanup := Some(Verified))
    case Cancel(_) => s.(cancel := true)
    case Retain(_) => s.(recovery := Some(true))
    case MarkCleaned(_, recovery, cleanup) =>
      s.(cleaned := true, recovery := Or(recovery, s.recovery), cleanup := Or(cleanup, s.cleanup))
    case PodStarts(_) => s.(pods := true)
    case PodEnds(_) => s.(pods := false)
    case JobFinishes(_, failed) => if s.job.Some? then s.(job := Some(s.job.value.(finished := Some(failed)))) else s
    case JobVanishes(_) => s.(job := None)
    case ForeignJob(_) => if s.job.None? then s.(job := Some(Job(false, None))) else s
    case _ => s
  }

  /** The run that an action changes, unless it is the one that a new consumer borrows from. */
  function Target(a: Action): Option<nat> {
    match a
    case List => None
    case Restart => None
    case Submit(_) => None
    case Withhold(_) => None
    case Clear(_, _) => None
    case DeleteAccount(_, _) => None
    case Consume(_) => None
    case _ => Some(a.run)
  }

  predicate Concerns(a: Action, j: nat) {
    Target(a) == Some(j)
  }

  function Fresh(spec: Spec): Slot {
    Slot(spec, false, false, false, false, None, New, None, Some(if spec.nonDestructive then Verified else Unknown),
         false, None, false)
  }

  function Runs(w: World, a: Action): seq<Slot> {
    if a.Submit? then w.runs + [Fresh(a.spec)]
    else if a.Consume? && a.run < |w.runs| && w.runs[a.run].spec.account < |w.runs| then
      var original := w.runs[a.run].spec.account;
      w.runs[original := w.runs[original].(consumer := Some(a.run))]
    else if Target(a).Some? && Target(a).value < |w.runs| then
      w.runs[Target(a).value := Touch(w.runs[Target(a).value], a)]
    else w.runs
  }

  function Accounts(w: World, a: Action): set<nat> {
    match a
    case CreateAccount(j) => w.accounts + {j}
    case DeleteAccount(account, _) => w.accounts - {account}
    case _ => w.accounts
  }

  function Listed(w: World, a: Action): set<nat> {
    match a
    case List => set j: nat | j < |w.runs| && !Terminal(w.runs[j].phase) :: j
    case Restart => {}
    case Report(j, phase, _, _) => if Terminal(phase) then w.listed - {j} else w.listed
    case Refuse(j) => w.listed - {j}
    case _ => w.listed
  }

  function Armed(w: World, a: Action): Option<nat> {
    match a
    case MarkUsed(j) => Some(j)
    case PostJob(_) => None
    case List => None
    case Restart => None
    case Report(_, _, _, _) => None
    case Refuse(_) => None
    case Recover(_) => None
    case _ => w.armed
  }

  /** Whatever else the API does, a cleanup has ended. */
  function Doing(w: World, a: Action): Option<Business> {
    match a
    case Clear(account, latest) =>
      Some(Clearing(account, latest, latest < |w.runs| && Released(w.runs[latest])))
    case Submit(_) => Some(Tending(|w.runs|))
    case Withhold(j) => Some(Tending(j))
    case CreateAccount(_) => Uncleared(w.doing)
    case MarkReady(_) => Uncleared(w.doing)
    case Consume(_) => Uncleared(w.doing)
    case Abandon(_) => Uncleared(w.doing)
    case TurnDown(_) => Uncleared(w.doing)
    case Retain(_) => Uncleared(w.doing)
    case _ => w.doing
  }

  function Uncleared(doing: Option<Business>): Option<Business> {
    if doing.Some? && doing.value.Clearing? then None else doing
  }

  function Apply(w: World, a: Action): World {
    World(Runs(w, a), Accounts(w, a), Listed(w, a), Armed(w, a), Doing(w, a))
  }

  const START := World([], {}, {}, None, None)

  function Run(w: World, trace: seq<Action>): World {
    if trace == [] then w else Apply(Run(w, trace[..|trace| - 1]), trace[|trace| - 1])
  }

  ghost predicate Legal(w: World, trace: seq<Action>) {
    trace != [] ==>
      && Legal(w, trace[..|trace| - 1])
      && Enabled(Run(w, trace[..|trace| - 1]), trace[|trace| - 1])
  }

  lemma LegalExtends(trace: seq<Action>, a: Action)
    requires Legal(START, trace) && Enabled(Run(START, trace), a)
    ensures Legal(START, trace + [a]) && Run(START, trace + [a]) == Apply(Run(START, trace), a)
  {
    assert (trace + [a])[..|trace|] == trace;
  }

  // ---------- what a step does to one run ----------

  /** A run stays where it is, and only what concerns it changes it; its consumer aside. */
  lemma StepAt(w: World, a: Action, j: nat)
    requires j < |w.runs|
    ensures j < |Apply(w, a).runs|
    ensures !a.Consume? ==> Apply(w, a).runs[j] == if Concerns(a, j) then Touch(w.runs[j], a) else w.runs[j]
    ensures a.Consume? ==> Apply(w, a).runs[j] == w.runs[j].(consumer := Apply(w, a).runs[j].consumer)
    ensures Apply(w, a).runs[j].spec == w.runs[j].spec
  {
  }

  /** Only a new borrower of its account becomes the consumer of a run. */
  lemma ConsumerAt(w: World, a: Action, j: nat)
    requires j < |w.runs| && Enabled(w, a)
    ensures Apply(w, a).runs[j].consumer == w.runs[j].consumer
            || (a.Consume? && w.runs[a.run].spec.account == j && j < a.run < |w.runs|
                && Apply(w, a).runs[j].consumer == Some(a.run))
  {
    StepAt(w, a, j);
  }

  // ---------- at most one Job per run ----------

  /** How often an action was carried out. */
  function Count(trace: seq<Action>, a: Action): nat {
    if trace == [] then 0 else Count(trace[..|trace| - 1], a) + if trace[|trace| - 1] == a then 1 else 0
  }

  lemma CountExtends(trace: seq<Action>, last: Action, a: Action)
    ensures Count(trace + [last], a) == Count(trace, a) + if last == a then 1 else 0
  {
    assert (trace + [last])[..|trace|] == trace;
  }

  /** How often a Job for the run was requested. */
  function Posts(trace: seq<Action>, j: nat): nat {
    Count(trace, PostJob(j))
  }

  /** With `n` requests made so far: none before the use of the account is on record, and no second one. */
  predicate Booked(w: World, j: nat, n: nat) {
    && (n > 0 || w.armed == Some(j) ==> j < |w.runs| && w.runs[j].used)
    && n + (if w.armed == Some(j) then 1 else 0) <= 1
  }

  lemma StepBooks(w: World, a: Action, j: nat, n: nat)
    requires Booked(w, j, n) && Enabled(w, a)
    ensures Booked(Apply(w, a), j, if a == PostJob(j) then n + 1 else n)
  {
    if j < |w.runs| {
      StepAt(w, a, j);
    }
  }

  lemma {:induction false} RunBooks(trace: seq<Action>, j: nat)
    requires Legal(START, trace)
    ensures Booked(Run(START, trace), j, Posts(trace, j))
  {
    if trace != [] {
      RunBooks(trace[..|trace| - 1], j);
      StepBooks(Run(START, trace[..|trace| - 1]), trace[|trace| - 1], j, Posts(trace[..|trace| - 1], j));
    }
  }

  /**
   Whatever fails and whenever the operator stops: at most one request for a Job is made for a run in its whole
   life, even if the Job disappears and the status of the run is overwritten.
   */
  lemma AtMostOneJob(trace: seq<Action>, j: nat)
    requires Legal(START, trace)
    ensures Posts(trace, j) <= 1
    ensures Posts(trace, j) == 1 ==> j < |Run(START, trace).runs| && Run(START, trace).runs[j].used
  {
    RunBooks(trace, j);
  }
}
