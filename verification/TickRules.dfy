/**
  What decides a tick: the answers its environment may give, the order in which they
  are checked, and what a finished tick implies.

  Every call out of the process (git, the model, the quality gates, GitHub, the disk)
  is an answer that may be any value or any exception.
 */
module TickRules {
  import opened Prelude
  import Backoff
  import DiffScanner
  import Failures
  import Leases
  import Runs

  type TickId = Leases.Owner
  type RunId = Runs.RunId
  type Text = nat

  // ---------- exceptions ----------

  /** The classes the handlers tell apart; all but `Unlisted` are caught by some ladder. */
  datatype Class =
    | SafetyPause | BudgetExceeded | QwenUnavailable | PolicyViolation | RuntimeError
    | ValueError | OSError | SubprocessError | Unlisted

  datatype Site =
    | RootMissing | DirtyStart | DirtyEnd | UndeclaredMutation | SecretsFound | ReviewOptOut | ReviewFailed
    | NoReviewerSession | ReusedSession | FindingsNotIterable

  datatype Message = Given(text: Text) | Fixed(site: Site)
  datatype Exc = Exc(kind: Class, message: Message)

  datatype Attempt<+T> = Ok(value: T) | Raise(exc: Exc) {
    predicate IsFailure() { Raise? }
    function PropagateFailure<U>(): Attempt<U>
      requires Raise?
    {
      Raise(exc)
    }
    function Extract(): T
      requires Ok?
    {
      value
    }
  }

  predicate IsPause(x: Exc) { x.kind.SafetyPause? || x.kind.BudgetExceeded? }

  predicate IsHandled(x: Exc) { !x.kind.Unlisted? }

  /** RuntimeError and its subclasses, or OSError: what `_review` catches around the launch. */
  predicate IsCaughtInReview(x: Exc) { x.kind !in {ValueError, SubprocessError, Unlisted} }

  predicate IsHostFailure(x: Exc) { x.kind in {QwenUnavailable, OSError, SubprocessError} }

  // ---------- the environment of one tick ----------

  datatype Worktree = Clean | Dirty(status: nat, digest: nat)
  datatype Checkpoint = Checkpoint(head: nat, status: nat, digest: nat)

  datatype Result = Result(exitCode: int, errorText: Text, apiError: Option<Text>, session: Option<string>)
  datatype Structured = Structured(state: nat, mutation: bool, requiresReview: bool)
  datatype GateResult = Passed | NotPassed(text: Text)
  datatype Severity = Critical | Milder | NotAnObject
  /** `findings` is None when the value cannot be iterated over. */
  datatype Review = Review(verdictIsPass: bool, findings: Option<seq<Severity>>)

  /** What happens to the run row and the leases while a model runs: the launcher reports
      the process, heartbeats renew row and lease, a recovery abandons the run or reaps
      expired leases, other owners acquire and release. */
  datatype Interference =
    | Launched(pid: Runs.Pid, at: int)
    | Heartbeat(at: int, stamp: real)
    | Abandon(at: int)
    | Reap(stamp: real)
    | Acquire(owner: TickId, stamp: real)
    | Release(owner: TickId)

  type Meanwhile = seq<Interference>

  datatype RecoveryAnswer = Saw(head: nat, tree: Worktree) | Swallowed | Escapes(exc: Exc)

  datatype Env = Env(
    stamp: real,
    maintenance: Attempt<()>, rootExists: bool, head: Attempt<nat>, branch: Attempt<Option<int>>,
    budget: Attempt<()>, before: Attempt<Worktree>, protectedBefore: Attempt<Option<Text>>, github: Attempt<nat>,
    coordinator: Attempt<Result>, during: Meanwhile, charge: Attempt<()>, output: Attempt<Structured>,
    statusAfter: Attempt<bool>, protectedAfter: Attempt<Option<Text>>, githubAfter: Attempt<nat>, headAfter: Attempt<nat>,
    diff: Attempt<string>, gate: nat -> Attempt<GateResult>,
    reviewer: Attempt<Result>, duringReview: Meanwhile, reviewCharge: Attempt<()>, review: Attempt<Review>,
    worktree: RecoveryAnswer, now: int, countedAt: real, closedAt: real)

  datatype Config = Config(
    leaseSeconds: real, retryBase: int, retryMaximum: int, loopSeconds: int, threshold: int,
    gates: seq<nat>, reviewEnabled: bool, maximumCritical: int, matcher: DiffScanner.Matcher,
    isTransient: Message -> bool, fingerprint: Message -> Failures.Fingerprint)

  function BackoffOf(c: Config): Backoff.Config {
    Backoff.Config(c.retryBase, c.retryMaximum, Max(c.retryBase, c.loopSeconds), c.threshold)
  }

  // ---------- the checks, in the order of the code ----------

  function Then(first: Option<Exc>, second: Option<Exc>): Option<Exc> { if first.Some? then first else second }

  function RaisedBy<T>(a: Attempt<T>): Option<Exc> { if a.Raise? then Some(a.exc) else None }

  function If(broken: bool, kind: Class, message: Message): Option<Exc> {
    if broken then Some(Exc(kind, message)) else None
  }

  function Governance(a: Attempt<Option<Text>>): Option<Exc> {
    if a.Ok? && a.value.Some? then Some(Exc(PolicyViolation, Given(a.value.value))) else RaisedBy(a)
  }

  predicate Resumable(env: Env, recovery: Option<Checkpoint>) {
    env.before.Ok? && env.head.Ok? &&
    (env.before.value.Dirty? ==> recovery == Some(Checkpoint(env.head.value, env.before.value.status, env.before.value.digest)))
  }

  function PrepareFault(env: Env, recovery: Option<Checkpoint>): Option<Exc> {
    Then(RaisedBy(env.maintenance),
    Then(If(!env.rootExists, PolicyViolation, Fixed(RootMissing)),
    Then(RaisedBy(env.head),
    Then(RaisedBy(env.branch),
    Then(RaisedBy(env.budget),
    Then(RaisedBy(env.before),
    Then(If(!Resumable(env, recovery), PolicyViolation, Fixed(DirtyStart)),
    Then(Governance(env.protectedBefore),
         RaisedBy(env.github)))))))))
  }

  /** A non-zero exit code, or an API error reported in the output. */
  function ResultFault(a: Attempt<Result>): Option<Exc> {
    if a.Raise? then None
    else if a.value.exitCode != 0 then Some(Exc(RuntimeError, Given(a.value.errorText)))
    else if a.value.apiError.Some? then Some(Exc(RuntimeError, Given(a.value.apiError.value)))
    else None
  }

  predicate Observed(env: Env) { env.headAfter != env.head || env.githubAfter != env.github }

  predicate Mutation(env: Env) { env.output.Ok? && env.output.value.mutation }

  function CoordinateFault(env: Env): Option<Exc> {
    Then(RaisedBy(env.coordinator),
    Then(RaisedBy(env.charge),
    Then(ResultFault(env.coordinator),
    Then(RaisedBy(env.output),
    Then(RaisedBy(env.statusAfter),
    Then(If(env.statusAfter.Ok? && env.statusAfter.value, PolicyViolation, Fixed(DirtyEnd)),
    Then(Governance(env.protectedAfter),
    Then(RaisedBy(env.githubAfter),
    Then(RaisedBy(env.headAfter),
         If(Observed(env) && !Mutation(env), PolicyViolation, Fixed(UndeclaredMutation)))))))))))
  }

  function Findings(c: Config, env: Env): seq<DiffScanner.Finding> {
    if env.diff.Ok? then DiffScanner.ScanText(c.matcher, env.diff.value) else []
  }

  function GateFault(a: Attempt<GateResult>): Option<Exc> {
    match a
    case Ok(Passed) => None
    case Ok(NotPassed(text)) => Some(Exc(RuntimeError, Given(text)))
    case Raise(exc) => Some(exc)
  }

  /** The first fault among the first `n` gates. */
  function GatesFault(env: Env, n: nat): Option<Exc> {
    if n == 0 then None else Then(GatesFault(env, n - 1), GateFault(env.gate(n - 1)))
  }

  function VerifyFault(c: Config, env: Env): Option<Exc> {
    if !Mutation(env) then None
    else Then(RaisedBy(env.diff),
         Then(If(Findings(c, env) != [], PolicyViolation, Fixed(SecretsFound)),
              GatesFault(env, |c.gates|)))
  }

  predicate IsEmpty(session: Option<string>) { session.None? || session.value == "" }

  function SessionOf(a: Attempt<Result>): Option<string> { if a.Ok? then a.value.session else None }

  function CriticalCount(findings: seq<Severity>): nat {
    if findings == [] then 0
    else CriticalCount(findings[..|findings| - 1]) + if findings[|findings| - 1].Critical? then 1 else 0
  }

  /** It is the number of critical findings in the list. */
  lemma {:induction false} CriticalCountIsMultiplicity(findings: seq<Severity>)
    ensures CriticalCount(findings) == multiset(findings)[Critical]
  {
    if findings != [] {
      CriticalCountIsMultiplicity(findings[..|findings| - 1]);
      assert findings == findings[..|findings| - 1] + [findings[|findings| - 1]];
    }
  }

  predicate Favourable(c: Config, env: Env) {
    && env.review.Ok? && env.review.value.verdictIsPass && env.review.value.findings.Some?
    && CriticalCount(env.review.value.findings.value) <= c.maximumCritical
  }

  predicate ReviewDue(c: Config, env: Env) { Mutation(env) && c.reviewEnabled }

  /** What `_review` itself raises. */
  function InReviewFault(env: Env): Option<Exc> {
    Then(RaisedBy(env.reviewer),
    Then(RaisedBy(env.reviewCharge),
    Then(ResultFault(env.reviewer),
    Then(If(IsEmpty(SessionOf(env.reviewer)), PolicyViolation, Fixed(NoReviewerSession)),
    Then(If(!IsEmpty(SessionOf(env.coordinator)) && SessionOf(env.reviewer) == SessionOf(env.coordinator), PolicyViolation, Fixed(ReusedSession)),
    Then(RaisedBy(env.review),
         If(env.review.Ok? && env.review.value.findings.None?, Unlisted, Fixed(FindingsNotIterable))))))))
  }

  function ReviewFault(c: Config, env: Env): Option<Exc> {
    if !ReviewDue(c, env) then None
    else Then(If(!(env.output.Ok? && env.output.value.requiresReview), PolicyViolation, Fixed(ReviewOptOut)),
         Then(InReviewFault(env),
              If(!Favourable(c, env), PolicyViolation, Fixed(ReviewFailed))))
  }

  /** The exception that ends the tick, if any. */
  function Fault(c: Config, env: Env, recovery: Option<Checkpoint>): Option<Exc> {
    Then(PrepareFault(env, recovery), Then(CoordinateFault(env), Then(VerifyFault(c, env), ReviewFault(c, env))))
  }

  // ---------- what a finished tick implies ----------

  predicate Launchable(env: Env, recovery: Option<Checkpoint>) {
    && env.maintenance.Ok? && env.rootExists && env.head.Ok? && env.branch.Ok? && env.budget.Ok?
    && Resumable(env, recovery) && env.protectedBefore == Ok(None) && env.github.Ok?
  }

  predicate Succeeded(a: Attempt<Result>) { a.Ok? && a.value.exitCode == 0 && a.value.apiError.None? }

  predicate Delivered(env: Env) { Succeeded(env.coordinator) && env.charge.Ok? && env.output.Ok? }

  /** The repository is left clean, with no protected path changed since the baseline. */
  predicate LeftInOrder(env: Env) {
    env.statusAfter.Ok? && !env.statusAfter.value && env.protectedAfter == Ok(None) && env.githubAfter.Ok? && env.headAfter.Ok?
  }

  /** HEAD and the GitHub snapshot are what they were. */
  predicate Unchanged(env: Env) { env.headAfter == env.head && env.githubAfter == env.github }

  predicate GatesPassed(c: Config, env: Env) { forall i :: 0 <= i < |c.gates| ==> env.gate(i) == Ok(Passed) }

  predicate Scanned(c: Config, env: Env) { env.diff.Ok? && Findings(c, env) == [] }

  /** A pass verdict within the critical limit, from a session of its own. */
  predicate IndependentlyReviewed(c: Config, env: Env) {
    && Delivered(env) && env.output.value.requiresReview
    && Succeeded(env.reviewer) && env.reviewCharge.Ok?
    && !IsEmpty(env.reviewer.value.session) && env.reviewer.value.session != env.coordinator.value.session
    && Favourable(c, env)
  }

  predicate FullyGated(c: Config, env: Env) {
    && LeftInOrder(env)
    && if Mutation(env) then Scanned(c, env) && GatesPassed(c, env) && (c.reviewEnabled ==> IndependentlyReviewed(c, env))
       else Unchanged(env)
  }

  lemma {:induction false} GatesFaultIff(c: Config, env: Env, n: nat)
    ensures GatesFault(env, n).None? <==> forall i :: 0 <= i < n ==> env.gate(i) == Ok(Passed)
  {
    if n > 0 {
      GatesFaultIff(c, env, n - 1);
    }
  }

  lemma PreparedIff(env: Env, recovery: Option<Checkpoint>)
    ensures PrepareFault(env, recovery).None? <==> Launchable(env, recovery)
  {
  }

  lemma CoordinatedIff(env: Env)
    requires env.head.Ok? && env.github.Ok?
    ensures CoordinateFault(env).None? <==> Delivered(env) && LeftInOrder(env) && (Unchanged(env) || Mutation(env))
  {
  }

  lemma VerifiedIff(c: Config, env: Env)
    ensures VerifyFault(c, env).None? <==> (Mutation(env) ==> Scanned(c, env) && GatesPassed(c, env))
  {
    GatesFaultIff(c, env, |c.gates|);
  }

  lemma ReviewedIff(c: Config, env: Env)
    requires Delivered(env)
    ensures ReviewFault(c, env).None? <==> (ReviewDue(c, env) ==> IndependentlyReviewed(c, env))
  {
  }

  /** A tick runs to its end exactly when it could be launched, the coordinator
      delivered, and the whole result passed every gate. */
  lemma FinishedIffFullyGated(c: Config, env: Env, recovery: Option<Checkpoint>)
    ensures Fault(c, env, recovery).None? <==> Launchable(env, recovery) && Delivered(env) && FullyGated(c, env)
  {
    PreparedIff(env, recovery);
    if PrepareFault(env, recovery).None? {
      CoordinatedIff(env);
      VerifiedIff(c, env);
      if Delivered(env) {
        ReviewedIff(c, env);
      }
    }
  }

  /** The same spelled out: what a finished tick met, answer by answer. */
  lemma FinishedInFull(c: Config, env: Env, recovery: Option<Checkpoint>)
    ensures Fault(c, env, recovery).None? <==>
              && env.maintenance.Ok? && env.rootExists && env.head.Ok? && env.branch.Ok? && env.budget.Ok? && env.before.Ok?
              && (env.before.value == Clean
                  || recovery == Some(Checkpoint(env.head.value, env.before.value.status, env.before.value.digest)))
              && env.protectedBefore == Ok(None) && env.github.Ok?
              && env.coordinator.Ok? && env.coordinator.value.exitCode == 0 && env.coordinator.value.apiError == None
              && env.charge.Ok? && env.output.Ok?
              && env.statusAfter == Ok(false) && env.protectedAfter == Ok(None) && env.githubAfter.Ok? && env.headAfter.Ok?
              && if !env.output.value.mutation then env.headAfter == env.head && env.githubAfter == env.github
                 else
                   && env.diff.Ok? && DiffScanner.ScanText(c.matcher, env.diff.value) == []
                   && (forall i :: 0 <= i < |c.gates| ==> env.gate(i) == Ok(Passed))
                   && (c.reviewEnabled ==>
                         && env.output.value.requiresReview
                         && env.reviewer.Ok? && env.reviewer.value.exitCode == 0 && env.reviewer.value.apiError == None
                         && env.reviewCharge.Ok?
                         && env.reviewer.value.session.Some? && |env.reviewer.value.session.value| > 0
                         && env.reviewer.value.session != env.coordinator.value.session
                         && env.review.Ok? && env.review.value.verdictIsPass && env.review.value.findings.Some?
                         && multiset(env.review.value.findings.value)[Critical] <= c.maximumCritical)
  {
    FinishedIffFullyGated(c, env, recovery);
    if env.review.Ok? && env.review.value.findings.Some? {
      CriticalCountIsMultiplicity(env.review.value.findings.value);
    }
  }
}
