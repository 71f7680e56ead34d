/**
  `Supervisor.tick` and `_review`: the steps, the two exception ladders and the final
  release of the lease.
 */
module Supervisors {
  import opened Prelude
  import opened TickRules
  import opened TickLog
  import Backoff
  import DiffScanner
  import Failures
  import Leases
  import Runs

  const COORDINATOR: Leases.Resource := "coordinator"

  /** Every lease belongs to another owner or is the coordinator lease of this tick. */
  ghost predicate Owners(rows: Leases.Table, tick: TickId, others: iset<TickId>) {
    forall r :: r in rows ==> rows[r].owner in others || (rows[r].owner == tick && r == COORDINATOR)
  }

  /** Only other owners take or release leases while the model runs. */
  ghost predicate Foreign(m: Meanwhile, others: iset<TickId>) {
    forall i :: i in m ==> (i.Acquire? || i.Release? ==> i.owner in others)
  }

  predicate HasStatus(rows: Runs.Table, id: RunId, s: Runs.Status) { id in rows && rows[id].status == s }

  /** All rows but those of these runs are what they were. */
  ghost predicate SameBut(now: Runs.Table, before: Runs.Table, ids: set<RunId>) {
    forall id :: id !in ids ==> (id in now <==> id in before) && (id in now ==> now[id] == before[id])
  }

  predicate ReviewerIs(c: Config, rows: Runs.Table, env: Env, ids: Ids, recovery: Option<Checkpoint>) {
    if ReviewerRuns(c, env, recovery) then HasStatus(rows, ids.review, ReviewerStatus(env)) else ids.review !in rows
  }

  /** The runs as the try block leaves them. */
  predicate Charged(c: Config, rows: Runs.Table, env: Env, ids: Ids, recovery: Option<Checkpoint>) {
    && (if PrepareFault(env, recovery).None? then HasStatus(rows, ids.run, ChargedStatus(env.coordinator, env.charge, env.during))
        else ids.run !in rows)
    && ReviewerIs(c, rows, env, ids, recovery)
  }

  /** The runs of the tick have the statuses its faults explain. */
  predicate Settled(c: Config, rows: Runs.Table, env: Env, ids: Ids, recovery: Option<Checkpoint>) {
    && (if PrepareFault(env, recovery).None? then HasStatus(rows, ids.run, CoordinatorStatus(c, env, recovery))
        else ids.run !in rows)
    && ReviewerIs(c, rows, env, ids, recovery)
  }

  lemma HandlingSettles(c: Config, rows: Runs.Table, env: Env, ids: Ids, recovery: Option<Checkpoint>, now: int)
    requires Charged(c, rows, env, ids, recovery) && ids.run != ids.review
    ensures var fault := Fault(c, env, recovery);
            Settled(c, if fault.Some? && IsHandled(fault.value) then Runs.FailedActive(rows, ids.run, now) else rows, env, ids, recovery)
  {
  }

  datatype Outcome = Busy | Ended(ending: Ending)

  /** `_checkpoint_recovery_worktree`: a clean tree clears the checkpoint. */
  function Saved(a: RecoveryAnswer, recovery: Option<Checkpoint>): Option<Checkpoint> {
    match a
    case Saw(head, Dirty(status, digest)) => Some(Checkpoint(head, status, digest))
    case Saw(_, Clean) => None
    case _ => recovery
  }

  /** The checkpoint after recovery: saved anew if it abandoned a run. */
  function Found(rows: Runs.Table, timeout: int, judgedAt: RunId -> int, a: RecoveryAnswer, recovery: Option<Checkpoint>): Option<Checkpoint> {
    if Runs.StaleRuns(rows, timeout, judgedAt) != {} then Saved(a, recovery) else recovery
  }

  /** A dirty tree is resumed if and only if it is, at the same head, the one that was saved. */
  lemma SavedTreeIsResumedIff(env: Env, a: RecoveryAnswer, recovery: Option<Checkpoint>)
    requires a.Saw? && env.head.Ok? && env.before.Ok? && env.before.value.Dirty?
    ensures Resumable(env, Saved(a, recovery)) <==> a.head == env.head.value && a.tree == env.before.value
  {
    match a.tree
    case Clean =>
    case Dirty(status, digest) => assert env.before.value == Dirty(env.before.value.status, env.before.value.digest);
  }

  /** What the checkpoint is for: a tick that finds the tree as it was saved, after a crash
      or a failed tick, is prepared as if the tree were clean. */
  lemma InterruptedWorkIsResumed(env: Env, a: RecoveryAnswer, recovery: Option<Checkpoint>)
    requires a.Saw? && env.head == Ok(a.head) && env.before == Ok(a.tree)
    ensures PrepareFault(env, Saved(a, recovery)) == PrepareFault(env.(before := Ok(Clean)), recovery)
  {
  }

  function ScopeOf(x: Exc): Failures.Scope { if IsHostFailure(x) then Failures.Host else Failures.Work }

  /** Seconds after its end during which a tick keeps the loop waiting, if it does. */
  function Penalty(c: Config, ending: Ending, x: Exc, failures: Failures.Table): Option<int> {
    match ending
    case Paused => Some(Max(c.retryBase, c.loopSeconds))
    case OutOfBudget => Some(Max(c.retryBase, c.loopSeconds))
    case Waiting => Some(c.retryBase)
    case Failed => Some(Backoff.Delay(BackoffOf(c), Failures.CountOf(failures, c.fingerprint(x.message))))
    case _ => None
  }

  /** The checkpoints and failure counts a tick starts from. */
  datatype Memory = Memory(recovery: Option<Checkpoint>, nextAllowed: Option<real>, failures: Failures.Table)

  function Postponed(before: Option<real>, at: real, penalty: Option<int>): Option<real> {
    if penalty.Some? then Some(at + penalty.value as real) else before
  }

  class Supervisor {
    const c: Config
    const leases: Leases.LeaseTable
    const failures: Failures.FailureTable
    const runs: Runs.RunTable
    /** The lease owners that are not ticks of this supervisor. */
    ghost const others: iset<TickId>
    var events: Log
    var recovery: Option<Checkpoint>
    var nextAllowed: Option<real>
    var lastSuccess: Option<real>

    constructor (c: Config, ghost others: iset<TickId>)
      ensures this.c == c && this.others == others && events == [] && recovery.None? && nextAllowed.None?
      ensures fresh(leases) && fresh(failures) && fresh(runs)
      ensures leases.rows == map[] && failures.rows == map[] && runs.rows == map[]
    {
      this.c, this.others := c, others;
      leases := new Leases.LeaseTable();
      failures := new Failures.FailureTable();
      runs := new Runs.RunTable();
      events, recovery, nextAllowed, lastSuccess := [], None, None, None;
    }

    method Append(kind: Kind, tick: TickId, run: RunId, passed: bool)
      modifies this`events
      ensures events == AppendOnce(old(events), Event(kind, tick, run, passed))
      ensures events == if exists e :: e in old(events) && e.kind == kind && (if kind == ModelUsage then e.run == run else e.tick == tick)
                        then old(events) else old(events) + [Event(kind, tick, run, passed)]
    {
      var e := Event(kind, tick, run, passed);
      if !HasKey(events, KeyOf(e)) {
        events := events + [e];
      }
    }

    // ---------- the try block ----------

    method Prepare(env: Env) returns (r: Attempt<()>)
      ensures RaisedBy(r) == PrepareFault(env, recovery)
      ensures env.maintenance.Ok? && !env.rootExists ==> r == Raise(Exc(PolicyViolation, Fixed(RootMissing)))
      ensures env.maintenance.Ok? && env.rootExists && env.head.Ok? && env.branch.Ok? && env.budget.Raise? ==> r == Raise(env.budget.exc)
      ensures env.maintenance.Ok? && env.rootExists && env.head.Ok? && env.branch.Ok? && env.budget.Ok? && env.before.Ok? ==>
                if env.before.value.Dirty? && recovery != Some(Checkpoint(env.head.value, env.before.value.status, env.before.value.digest))
                then r == Raise(Exc(PolicyViolation, Fixed(DirtyStart)))
                else if env.protectedBefore.Ok? && env.protectedBefore.value.Some?
                then r == Raise(Exc(PolicyViolation, Given(env.protectedBefore.value.value)))
                else r.Ok? <==> env.protectedBefore.Ok? && env.github.Ok?
    {
      var _ :- env.maintenance;
      if !env.rootExists {
        return Raise(Exc(PolicyViolation, Fixed(RootMissing)));
      }
      var baseline :- env.head;
      var _ :- env.branch;
      var _ :- env.budget;
      var initial :- env.before;
      if initial.Dirty? && recovery != Some(Checkpoint(baseline, initial.status, initial.digest)) {
        return Raise(Exc(PolicyViolation, Fixed(DirtyStart)));
      }
      var violations :- env.protectedBefore;
      if violations.Some? {
        return Raise(Exc(PolicyViolation, Given(violations.value)));
      }
      var _ :- env.github;
      return Ok(());
    }

    /** The model process runs: its own steps on the ledger, and those of others. */
    method RunModel(run: RunId, tick: TickId, m: Meanwhile)
      requires HasStatus(runs.rows, run, Runs.Starting)
      requires tick !in others && Foreign(m, others) && Owners(leases.rows, tick, others)
      modifies runs, leases
      ensures HasStatus(runs.rows, run, ActiveStatus(m)) && SameBut(runs.rows, old(runs.rows), {run})
      ensures Owners(leases.rows, tick, others)
    {
      for i := 0 to |m|
        invariant HasStatus(runs.rows, run, ActiveStatus(m[..i])) && SameBut(runs.rows, old(runs.rows), {run})
        invariant Owners(leases.rows, tick, others)
      {
        assert m[..i + 1][..i] == m[..i] && m[i] in m;
        Happen(run, tick, m[i]);
      }
      assert m[..|m|] == m;
    }

    method Happen(run: RunId, tick: TickId, e: Interference)
      requires run in runs.rows && tick !in others && Owners(leases.rows, tick, others)
      requires e.Acquire? || e.Release? ==> e.owner in others
      modifies runs, leases
      ensures HasStatus(runs.rows, run, StatusAfter(old(runs.rows)[run].status, e)) && SameBut(runs.rows, old(runs.rows), {run})
      ensures Owners(leases.rows, tick, others)
      ensures e.Heartbeat? ==>
                leases.rows == if COORDINATOR in old(leases.rows) && old(leases.rows)[COORDINATOR].owner == tick
                                  && e.stamp < old(leases.rows)[COORDINATOR].expires
                               then old(leases.rows)[COORDINATOR := Leases.Row(tick, e.stamp + c.leaseSeconds)]
                               else old(leases.rows)
      ensures e.Heartbeat? && old(runs.rows)[run].status in {Runs.Starting, Runs.Running} ==> runs.rows[run].heartbeat == e.at
    {
      match e
      case Launched(pid, at) => runs.SetRunRunning(run, pid, at);
      case Heartbeat(at, stamp) =>
        runs.HeartbeatRun(run, at);
        var renewed := leases.RenewLease(COORDINATOR, tick, stamp, c.leaseSeconds);
      case Abandon(at) => runs.FinishRun(run, Runs.Abandoned, -1, at);
      case Reap(stamp) => var reaped := leases.ReapExpiredLeases(stamp);
      case Acquire(owner, stamp) => var taken := leases.AcquireLease(COORDINATOR, owner, stamp, c.leaseSeconds);
      case Release(owner) => var released := leases.ReleaseLease(COORDINATOR, owner);
    }

    method Coordinate(env: Env, ids: Ids) returns (r: Attempt<()>)
      requires HasStatus(runs.rows, ids.run, Runs.Starting) && Foreign(env.during, others) && ids.tick !in others
      requires Owners(leases.rows, ids.tick, others) && env.head.Ok? && env.github.Ok?
      modifies this`events, runs, leases
      ensures RaisedBy(r) == CoordinateFault(env)
      ensures events == AppendAll(old(events), CoordinateTrace(env, ids))
      ensures HasStatus(runs.rows, ids.run, ChargedStatus(env.coordinator, env.charge, env.during))
      ensures env.coordinator.Ok? && env.charge.Ok? ==>
                HasStatus(runs.rows, ids.run, if env.coordinator.value.exitCode == 0 then Runs.Succeeded else Runs.Failed)
      ensures SameBut(runs.rows, old(runs.rows), {ids.run}) && Owners(leases.rows, ids.tick, others)
    {
      RunModel(ids.run, ids.tick, env.during);
      var result :- env.coordinator;
      Append(ModelUsage, ids.tick, ids.run, true);
      AppendAllSingle(old(events), Event(ModelUsage, ids.tick, ids.run, true));
      var _ :- env.charge;
      runs.FinishRun(ids.run, if result.exitCode == 0 then Runs.Succeeded else Runs.Failed, result.exitCode, env.now);
      r := CheckResult(env, result);
      if r.Ok? {
        AppendAllOne(old(events), [Event(ModelUsage, ids.tick, ids.run, true)], Event(CoordinatorCompleted, ids.tick, ids.run, true));
        Append(CoordinatorCompleted, ids.tick, ids.run, true);
      }
    }

    /** The checks between the finished run and the `coordinator_completed` event. */
    method CheckResult(env: Env, result: Result) returns (r: Attempt<()>)
      requires env.coordinator == Ok(result) && env.charge.Ok? && env.head.Ok? && env.github.Ok?
      ensures RaisedBy(r) == CoordinateFault(env)
      ensures result.exitCode != 0 ==> r == Raise(Exc(RuntimeError, Given(result.errorText)))
      ensures result.exitCode == 0 && result.apiError.Some? ==> r == Raise(Exc(RuntimeError, Given(result.apiError.value)))
      ensures result.exitCode == 0 && result.apiError.None? && env.output.Ok? && env.statusAfter.Ok? ==>
                if env.statusAfter.value then r == Raise(Exc(PolicyViolation, Fixed(DirtyEnd)))
                else if env.protectedAfter.Ok? && env.protectedAfter.value.Some?
                then r == Raise(Exc(PolicyViolation, Given(env.protectedAfter.value.value)))
                else if env.protectedAfter.Ok? && env.githubAfter.Ok? && env.headAfter.Ok?
                then r == if (env.headAfter.value != env.head.value || env.githubAfter.value != env.github.value) && !env.output.value.mutation
                          then Raise(Exc(PolicyViolation, Fixed(UndeclaredMutation))) else Ok(())
                else r.Raise?
    {
      if result.exitCode != 0 {
        return Raise(Exc(RuntimeError, Given(result.errorText)));
      }
      if result.apiError.Some? {
        return Raise(Exc(RuntimeError, Given(result.apiError.value)));
      }
      var structured :- env.output;
      var dirty :- env.statusAfter;
      if dirty {
        return Raise(Exc(PolicyViolation, Fixed(DirtyEnd)));
      }
      var violations :- env.protectedAfter;
      if violations.Some? {
        return Raise(Exc(PolicyViolation, Given(violations.value)));
      }
      var snapshot :- env.githubAfter;
      var head :- env.headAfter;
      var observed := head != env.head.value || snapshot != env.github.value;
      if observed && !structured.mutation {
        return Raise(Exc(PolicyViolation, Fixed(UndeclaredMutation)));
      }
      return Ok(());
    }

    /** The secret scan of the diff against the baseline, then the quality gates. */
    method Verify(env: Env, ids: Ids) returns (r: Attempt<()>)
      requires Mutation(env)
      modifies this`events
      ensures RaisedBy(r) == VerifyFault(c, env)
      ensures env.diff.Ok? && DiffScanner.ScanText(c.matcher, env.diff.value) != [] ==>
                r == Raise(Exc(PolicyViolation, Fixed(SecretsFound)))
      ensures events == AppendAll(old(events), VerifyTrace(c, env, ids))
    {
      var diff :- env.diff;
      var findings := DiffScanner.ScanAddedSecrets(c.matcher, diff);
      Append(SecretScan, ids.tick, ids.run, findings == []);
      ghost var scanned := [Event(SecretScan, ids.tick, ids.run, findings == [])];
      AppendAllSingle(old(events), scanned[0]);
      if findings != [] {
        return Raise(Exc(PolicyViolation, Fixed(SecretsFound)));
      }
      AppendAllPlus(old(events), scanned, GatesTrace(c, env, ids, |c.gates|));
      r := RunGates(env, ids);
    }

    method RunGates(env: Env, ids: Ids) returns (r: Attempt<()>)
      modifies this`events
      ensures RaisedBy(r) == GatesFault(env, |c.gates|)
      ensures events == AppendAll(old(events), GatesTrace(c, env, ids, |c.gates|))
    {
      ghost var before := events;
      for i := 0 to |c.gates|
        invariant GatesFault(env, i).None?
        invariant events == AppendAll(before, GatesTrace(c, env, ids, i))
      {
        r := NextGate(env, ids, i, before);
        if r.Raise? {
          return;
        }
      }
      return Ok(());
    }

    /** Gate `i`, when it is reached, extends the trace by its own event; a gate at fault
        is the last one. */
    method NextGate(env: Env, ids: Ids, i: nat, ghost before: Log) returns (r: Attempt<()>)
      requires i < |c.gates| && GatesFault(env, i).None? && events == AppendAll(before, GatesTrace(c, env, ids, i))
      modifies this`events
      ensures r.Ok? ==> GatesFault(env, i + 1).None? && events == AppendAll(before, GatesTrace(c, env, ids, i + 1))
      ensures r.Raise? ==> GatesFault(env, |c.gates|) == Some(r.exc) && events == AppendAll(before, GatesTrace(c, env, ids, |c.gates|))
    {
      GateRound(c, env, ids, i, before);
      r := RunGate(env, ids, i);
    }

    method RunGate(env: Env, ids: Ids, i: nat) returns (r: Attempt<()>)
      requires i < |c.gates|
      modifies this`events
      ensures RaisedBy(r) == GateFault(env.gate(i))
      ensures r.Ok? <==> env.gate(i) == Ok(Passed)
      ensures env.gate(i).Ok? && env.gate(i).value.NotPassed? ==> r == Raise(Exc(RuntimeError, Given(env.gate(i).value.text)))
      ensures events == AppendAll(old(events), GateTrace(c, env, ids, i))
    {
      var answer :- env.gate(i);
      Append(QualityGate(c.gates[i]), ids.tick, ids.run, answer.Passed?);
      AppendAllSingle(old(events), Event(QualityGate(c.gates[i]), ids.tick, ids.run, answer.Passed?));
      if answer.NotPassed? {
        return Raise(Exc(RuntimeError, Given(answer.text)));
      }
      return Ok(());
    }

    /** `_review`: whether the review is favourable, unless it raises. */
    method ReviewResult(env: Env, ids: Ids) returns (r: Attempt<bool>)
      requires ReviewStarts(c, env) && env.coordinator.Ok? && Foreign(env.duringReview, others) && ids.tick !in others
      requires ids.review !in runs.rows && Owners(leases.rows, ids.tick, others)
      modifies this`events, runs, leases
      ensures RaisedBy(r) == InReviewFault(env) && (r.Ok? ==> r.value == Favourable(c, env))
      ensures events == AppendAll(old(events), InReviewTrace(c, env, ids))
      ensures HasStatus(runs.rows, ids.review, ReviewerStatus(env))
      ensures env.reviewer.Ok? && env.reviewCharge.Ok? ==>
                HasStatus(runs.rows, ids.review, if env.reviewer.value.exitCode == 0 then Runs.Succeeded else Runs.Failed)
      ensures SameBut(runs.rows, old(runs.rows), {ids.review}) && Owners(leases.rows, ids.tick, others)
    {
      var ok := runs.StartRun(ids.review, env.now);
      RunModel(ids.review, ids.tick, env.duringReview);
      if env.reviewer.Raise? {
        if IsCaughtInReview(env.reviewer.exc) {
          runs.FailActiveRun(ids.review, env.now);
        }
        return Raise(env.reviewer.exc);
      }
      var result := env.reviewer.value;
      Append(ModelUsage, ids.tick, ids.review, true);
      AppendAllSingle(old(events), Event(ModelUsage, ids.tick, ids.review, true));
      if env.reviewCharge.Raise? {
        if IsPause(env.reviewCharge.exc) {
          runs.FailActiveRun(ids.review, env.now);
        }
        return Raise(env.reviewCharge.exc);
      }
      runs.FinishRun(ids.review, if result.exitCode == 0 then Runs.Succeeded else Runs.Failed, result.exitCode, env.now);
      r := JudgeReview(env, result);
      if r.Ok? {
        AppendAllOne(old(events), [Event(ModelUsage, ids.tick, ids.review, true)], Event(IndependentReview, ids.tick, ids.review, r.value));
        Append(IndependentReview, ids.tick, ids.review, r.value);
      }
    }

    method JudgeReview(env: Env, result: Result) returns (r: Attempt<bool>)
      requires env.reviewer == Ok(result) && env.reviewCharge.Ok? && env.coordinator.Ok?
      ensures RaisedBy(r) == InReviewFault(env) && (r.Ok? ==> r.value == Favourable(c, env))
      ensures r.Ok? <==>
                && result.exitCode == 0 && result.apiError == None
                && result.session.Some? && |result.session.value| > 0 && result.session != env.coordinator.value.session
                && env.review.Ok? && env.review.value.findings.Some?
      ensures r.Ok? ==>
                (r.value <==> env.review.value.verdictIsPass
                              && multiset(env.review.value.findings.value)[Critical] <= c.maximumCritical)
      ensures r == Ok(true) && c.maximumCritical == 0 ==> Critical !in env.review.value.findings.value
      ensures result.exitCode == 0 && result.apiError == None ==>
                if result.session == None || result.session == Some("")
                then r == Raise(Exc(PolicyViolation, Fixed(NoReviewerSession)))
                else result.session == env.coordinator.value.session ==> r == Raise(Exc(PolicyViolation, Fixed(ReusedSession)))
    {
      if result.exitCode != 0 {
        return Raise(Exc(RuntimeError, Given(result.errorText)));
      }
      if result.apiError.Some? {
        return Raise(Exc(RuntimeError, Given(result.apiError.value)));
      }
      var own := env.coordinator.value.session;
      if IsEmpty(result.session) {
        return Raise(Exc(PolicyViolation, Fixed(NoReviewerSession)));
      }
      if !IsEmpty(own) && result.session == own {
        return Raise(Exc(PolicyViolation, Fixed(ReusedSession)));
      }
      var review :- env.review;
      if review.findings.None? {
        return Raise(Exc(Unlisted, Fixed(FindingsNotIterable)));
      }
      var critical := CriticalCount(review.findings.value);
      CriticalCountIsMultiplicity(review.findings.value);
      return Ok(review.verdictIsPass && critical <= c.maximumCritical);
    }

    /** The review obligations of a mutation. */
    method RequireReview(env: Env, ids: Ids) returns (r: Attempt<()>)
      requires ReviewDue(c, env) && env.coordinator.Ok? && Foreign(env.duringReview, others) && ids.tick !in others
      requires ids.review !in runs.rows && Owners(leases.rows, ids.tick, others)
      modifies this`events, runs, leases
      ensures RaisedBy(r) == ReviewFault(c, env)
      ensures !env.output.value.requiresReview ==> r == Raise(Exc(PolicyViolation, Fixed(ReviewOptOut)))
      ensures r.Ok? ==> env.review.Ok? && env.review.value.verdictIsPass
      ensures events == AppendAll(old(events), ReviewTrace(c, env, ids))
      ensures if ReviewStarts(c, env) then HasStatus(runs.rows, ids.review, ReviewerStatus(env)) else ids.review !in runs.rows
      ensures SameBut(runs.rows, old(runs.rows), {ids.review}) && Owners(leases.rows, ids.tick, others)
    {
      if !env.output.value.requiresReview {
        return Raise(Exc(PolicyViolation, Fixed(ReviewOptOut)));
      }
      var passed :- ReviewResult(env, ids);
      if !passed {
        return Raise(Exc(PolicyViolation, Fixed(ReviewFailed)));
      }
      return Ok(());
    }

    method VerifyAndReview(env: Env, ids: Ids) returns (r: Attempt<()>)
      requires env.output.Ok? && env.coordinator.Ok? && Foreign(env.duringReview, others) && ids.tick !in others
      requires ids.review !in runs.rows && Owners(leases.rows, ids.tick, others)
      modifies this`events, runs, leases
      ensures RaisedBy(r) == Then(VerifyFault(c, env), ReviewFault(c, env))
      ensures events == AppendAll(old(events), VerifyReviewTrace(c, env, ids))
      ensures if VerifyFault(c, env).None? && ReviewStarts(c, env) then HasStatus(runs.rows, ids.review, ReviewerStatus(env))
              else ids.review !in runs.rows
      ensures SameBut(runs.rows, old(runs.rows), {ids.review}) && Owners(leases.rows, ids.tick, others)
    {
      if env.output.value.mutation {
        r := Verify(env, ids);
        if r.Raise? { return; }
        AppendAllPlus(old(events), VerifyTrace(c, env, ids), ReviewTrace(c, env, ids));
        if c.reviewEnabled {
          r := RequireReview(env, ids);
        }
      } else {
        r := Ok(());
      }
    }

    ghost predicate Fresh(env: Env, ids: Ids)
      reads leases, runs
    {
      && ids.run != ids.review && ids.run !in runs.rows && ids.review !in runs.rows
      && ids.tick !in others && (forall r :: r in leases.rows ==> leases.rows[r].owner in others)
      && Foreign(env.during, others) && Foreign(env.duringReview, others)
    }

    /** The try block from the start of the coordinator run on. */
    method Launch(env: Env, ids: Ids) returns (r: Attempt<()>)
      requires PrepareFault(env, recovery).None?
      requires ids.run != ids.review && ids.run !in runs.rows && ids.review !in runs.rows
      requires Foreign(env.during, others) && Foreign(env.duringReview, others) && ids.tick !in others
      requires Owners(leases.rows, ids.tick, others)
      modifies this`events, runs, leases
      ensures RaisedBy(r) == Fault(c, env, recovery)
      ensures events == AppendAll(old(events), BodyTrace(c, env, recovery, ids))
      ensures Charged(c, runs.rows, env, ids, recovery)
      ensures SameBut(runs.rows, old(runs.rows), {ids.run, ids.review}) && Owners(leases.rows, ids.tick, others)
    {
      PreparedIff(env, recovery);
      var ok := runs.StartRun(ids.run, env.now);
      r := Coordinate(env, ids);
      if r.Ok? {
        AppendAllPlus(old(events), CoordinateTrace(env, ids), VerifyReviewTrace(c, env, ids));
        CoordinatedIff(env);
        r := VerifyAndReview(env, ids);
      }
    }

    /** The try block; `started` tells the handlers whether the run was. */
    method Work(env: Env, ids: Ids) returns (r: Attempt<()>, started: bool)
      requires ids.run != ids.review && ids.run !in runs.rows && ids.review !in runs.rows
      requires Foreign(env.during, others) && Foreign(env.duringReview, others) && ids.tick !in others
      requires Owners(leases.rows, ids.tick, others)
      modifies this`events, this`recovery, this`lastSuccess, runs, leases
      ensures RaisedBy(r) == Fault(c, env, old(recovery)) && started == PrepareFault(env, old(recovery)).None?
      ensures events == AppendAll(old(events), if r.Ok? then BodyTrace(c, env, old(recovery), ids) + ClosingTrace(Finished, ids)
                                               else BodyTrace(c, env, old(recovery), ids))
      ensures if r.Ok? then recovery.None? && lastSuccess == Some(env.closedAt)
              else recovery == old(recovery) && lastSuccess == old(lastSuccess)
      ensures Charged(c, runs.rows, env, ids, old(recovery))
      ensures SameBut(runs.rows, old(runs.rows), {ids.run, ids.review}) && Owners(leases.rows, ids.tick, others)
    {
      started := false;
      r := Prepare(env);
      if r.Raise? { return; }
      started := true;
      r := Launch(env, ids);
      if r.Raise? { return; }
      AppendAllOne(old(events), BodyTrace(c, env, old(recovery), ids), Event(TickFinished, ids.tick, ids.run, true));
      Append(TickFinished, ids.tick, ids.run, true);
      lastSuccess := Some(env.closedAt);
      recovery := None;
    }

    // ---------- the handlers ----------

    /** `_checkpoint_recovery_worktree`; false if an exception of another class escapes it. */
    method SaveWorktree(a: RecoveryAnswer) returns (ok: bool)
      modifies this`recovery
      ensures ok == !a.Escapes? && recovery == Saved(a, old(recovery))
      ensures a.Saw? && a.tree.Dirty? ==> recovery == Some(Checkpoint(a.head, a.tree.status, a.tree.digest))
      ensures a.Saw? && a.tree.Clean? ==> recovery == None
      ensures !a.Saw? ==> recovery == old(recovery)
    {
      ok := !a.Escapes?;
      if a.Saw? {
        recovery := if a.tree.Dirty? then Some(Checkpoint(a.head, a.tree.status, a.tree.digest)) else None;
      }
    }

    /** `recover`: reap the expired leases, abandon the stale runs, and, if there were any,
        save the evidence of the worktree they left; false if that raises. */
    method Recover(reapAt: real, timeout: int, judgedAt: RunId -> int, alive: set<Runs.Pid>, a: RecoveryAnswer)
      returns (recovered: seq<RunId>, hung: seq<RunId>, ok: bool)
      modifies this`recovery, leases, runs
      ensures leases.rows == old(leases.rows) - Leases.Expired(old(leases.rows), reapAt).Keys
      ensures runs.rows == Runs.Recovered(old(runs.rows), timeout, judgedAt)
      ensures Runs.Lists(recovered, Runs.StaleRuns(old(runs.rows), timeout, judgedAt))
      ensures Runs.Lists(hung, Runs.HungRuns(old(runs.rows), timeout, judgedAt, alive))
      ensures recovery == Found(old(runs.rows), timeout, judgedAt, a, old(recovery))
      ensures ok <==> Runs.StaleRuns(old(runs.rows), timeout, judgedAt) == {} || !a.Escapes?
      ensures forall r :: r in leases.rows <==> r in old(leases.rows) && reapAt < old(leases.rows)[r].expires
      ensures forall id :: id in recovered <==> id in old(runs.rows) && old(runs.rows)[id].status in {Runs.Starting, Runs.Running}
                                                && judgedAt(id) - old(runs.rows)[id].heartbeat > timeout
      ensures forall id :: id in hung <==> id in recovered && old(runs.rows)[id].pid.Some? && old(runs.rows)[id].pid.value in alive
      ensures recovery == if recovered == [] || !a.Saw? then old(recovery)
                          else if a.tree.Dirty? then Some(Checkpoint(a.head, a.tree.status, a.tree.digest)) else None
    {
      var reaped := leases.ReapExpiredLeases(reapAt);
      ghost var stale := Runs.StaleRuns(runs.rows, timeout, judgedAt);
      recovered, hung := runs.Recover(timeout, judgedAt, alive);
      ok := true;
      if recovered != [] {
        assert recovered[0] in stale;
        ok := SaveWorktree(a);
      } else {
        assert stale == {};
      }
    }

    method HandlePause(env: Env, ids: Ids, x: Exc, started: bool) returns (ending: Ending)
      requires IsPause(x)
      modifies this`events, this`recovery, this`nextAllowed, runs
      ensures ending == Handling(c, env, x, started)
      ensures events == AppendAll(old(events), ClosingTrace(ending, ids))
      ensures recovery == if started then Saved(env.worktree, old(recovery)) else old(recovery)
      ensures nextAllowed == Postponed(old(nextAllowed), env.closedAt, Penalty(c, ending, x, failures.rows))
      ensures runs.rows == Runs.FailedActive(old(runs.rows), ids.run, env.now)
      ensures if started && env.worktree.Escapes? then ending == Escaped && nextAllowed == old(nextAllowed)
              else
                && ending == (if x.kind == BudgetExceeded then OutOfBudget else Paused)
                && nextAllowed == Some(env.closedAt + (if c.retryBase < c.loopSeconds then c.loopSeconds else c.retryBase) as real)
    {
      runs.FailActiveRun(ids.run, env.now);
      if started {
        var ok := SaveWorktree(env.worktree);
        if !ok { return Escaped; }
      }
      var delay := Max(c.retryBase, c.loopSeconds);
      nextAllowed := Some(env.closedAt + delay as real);
      ending := if x.kind.BudgetExceeded? then OutOfBudget else Paused;
      var kind := if x.kind.BudgetExceeded? then BudgetExhausted else SafetyPaused;
      AppendAllSingle(old(events), Event(kind, ids.tick, ids.run, false));
      Append(kind, ids.tick, ids.run, false);
    }

    method HandleTransient(env: Env, ids: Ids, x: Exc, started: bool) returns (ending: Ending)
      requires IsHandled(x) && !IsPause(x) && IsTransient(c, x)
      modifies this`events, this`recovery, this`nextAllowed
      ensures ending == Handling(c, env, x, started)
      ensures events == AppendAll(old(events), ClosingTrace(ending, ids))
      ensures recovery == if started then Saved(env.worktree, old(recovery)) else old(recovery)
      ensures nextAllowed == Postponed(old(nextAllowed), env.closedAt, Penalty(c, ending, x, failures.rows))
      ensures if started && env.worktree.Escapes? then ending == Escaped && nextAllowed == old(nextAllowed)
              else ending == Waiting && nextAllowed == Some(env.closedAt + c.retryBase as real)
    {
      if started {
        var ok := SaveWorktree(env.worktree);
        if !ok { return Escaped; }
      }
      nextAllowed := Some(env.closedAt + c.retryBase as real);
      AppendAllSingle(old(events), Event(DependencyWait, ids.tick, ids.run, false));
      Append(DependencyWait, ids.tick, ids.run, false);
      return Waiting;
    }

    method HandlePermanent(env: Env, ids: Ids, x: Exc, started: bool) returns (ending: Ending)
      requires IsHandled(x) && !IsPause(x) && !IsTransient(c, x)
      modifies this`events, this`recovery, this`nextAllowed, failures
      ensures ending == Handling(c, env, x, started)
      ensures events == AppendAll(old(events), ViolationTrace(c, x, ids) + ClosingTrace(ending, ids))
      ensures recovery == if started then Saved(env.worktree, old(recovery)) else old(recovery)
      ensures failures.rows == if ending.Failed? then Failures.Recorded(old(failures.rows), c.fingerprint(x.message), ScopeOf(x), c.threshold)
                               else old(failures.rows)
      ensures nextAllowed == Postponed(old(nextAllowed), env.closedAt, Penalty(c, ending, x, failures.rows))
    {
      AppendAllPlus(old(events), ViolationTrace(c, x, ids), ClosingTrace(Handling(c, env, x, started), ids));
      if x.kind.PolicyViolation? {
        AppendAllSingle(events, Event(PolicyViolated, ids.tick, ids.run, false));
        Append(PolicyViolated, ids.tick, ids.run, false);
      }
      assert events == AppendAll(old(events), ViolationTrace(c, x, ids));
      if started {
        var ok := SaveWorktree(env.worktree);
        if !ok { return Escaped; }
      }
      CountFailure(env, ids, x);
      return Failed;
    }

    method CountFailure(env: Env, ids: Ids, x: Exc)
      modifies this`events, this`nextAllowed, failures
      ensures events == AppendAll(old(events), ClosingTrace(Failed, ids))
      ensures failures.rows == Failures.Recorded(old(failures.rows), c.fingerprint(x.message), ScopeOf(x), c.threshold)
      ensures nextAllowed == Postponed(old(nextAllowed), env.closedAt, Penalty(c, Failed, x, failures.rows))
      ensures var fp := c.fingerprint(x.message);
              var count := 1 + if fp in old(failures.rows) then old(failures.rows)[fp].count else 0;
              var host := x.kind == QwenUnavailable || x.kind == OSError || x.kind == SubprocessError;
              && failures.rows == old(failures.rows)[fp := Failures.Row(count, count >= c.threshold, if host then Failures.Host else Failures.Work)]
              && nextAllowed == Some(env.closedAt + Backoff.Delay(BackoffOf(c), count) as real)
    {
      var scope := if x.kind in {QwenUnavailable, OSError, SubprocessError} then Failures.Host else Failures.Work;
      var count, quarantined := failures.RecordFailure(c.fingerprint(x.message), c.threshold, scope);
      AppendAllSingle(events, Event(TickFailed, ids.tick, ids.run, false));
      Append(TickFailed, ids.tick, ids.run, false);
      var delay := Backoff.Delay(BackoffOf(c), count);
      nextAllowed := Some(env.closedAt + delay as real);
    }

    /** The second ladder. */
    method HandleFailure(env: Env, ids: Ids, x: Exc, started: bool) returns (ending: Ending)
      requires IsHandled(x) && !IsPause(x)
      modifies this`events, this`recovery, this`nextAllowed, runs, failures
      ensures ending == Handling(c, env, x, started)
      ensures events == AppendAll(old(events), ViolationTrace(c, x, ids) + ClosingTrace(ending, ids))
      ensures recovery == if started then Saved(env.worktree, old(recovery)) else old(recovery)
      ensures failures.rows == if ending.Failed? then Failures.Recorded(old(failures.rows), c.fingerprint(x.message), ScopeOf(x), c.threshold)
                               else old(failures.rows)
      ensures nextAllowed == Postponed(old(nextAllowed), env.closedAt, Penalty(c, ending, x, failures.rows))
      ensures runs.rows == Runs.FailedActive(old(runs.rows), ids.run, env.now)
    {
      runs.FailActiveRun(ids.run, env.now);
      if !x.kind.QwenUnavailable? && c.isTransient(x.message) {
        ending := HandleTransient(env, ids, x, started);
        NoViolation(c, x, ids, ending, old(events));
      } else {
        ending := HandlePermanent(env, ids, x, started);
      }
    }

    /** The two ladders: the safety pause first, then everything else that is listed. */
    method Handle(env: Env, ids: Ids, x: Exc, started: bool) returns (ending: Ending)
      requires IsHandled(x)
      modifies this`events, this`recovery, this`nextAllowed, runs, failures
      ensures ending == Handling(c, env, x, started)
      ensures events == AppendAll(old(events), ViolationTrace(c, x, ids) + ClosingTrace(ending, ids))
      ensures recovery == if started then Saved(env.worktree, old(recovery)) else old(recovery)
      ensures failures.rows == if ending.Failed? then Failures.Recorded(old(failures.rows), c.fingerprint(x.message), ScopeOf(x), c.threshold)
                               else old(failures.rows)
      ensures nextAllowed == Postponed(old(nextAllowed), env.closedAt, Penalty(c, ending, x, failures.rows))
      ensures runs.rows == Runs.FailedActive(old(runs.rows), ids.run, env.now)
    {
      if IsPause(x) {
        ending := HandlePause(env, ids, x, started);
        NoViolation(c, x, ids, ending, old(events));
      } else {
        ending := HandleFailure(env, ids, x, started);
      }
    }

    /** An exception no handler is listed for passes through. */
    method Catch(env: Env, ids: Ids, x: Exc, started: bool) returns (ending: Ending)
      modifies this`events, this`recovery, this`nextAllowed, runs, failures
      ensures ending == Handling(c, env, x, started)
      ensures events == AppendAll(old(events), ViolationTrace(c, x, ids) + ClosingTrace(ending, ids))
      ensures recovery == if IsHandled(x) && started then Saved(env.worktree, old(recovery)) else old(recovery)
      ensures failures.rows == if ending.Failed? then Failures.Recorded(old(failures.rows), c.fingerprint(x.message), ScopeOf(x), c.threshold)
                               else old(failures.rows)
      ensures nextAllowed == Postponed(old(nextAllowed), env.closedAt, Penalty(c, ending, x, failures.rows))
      ensures runs.rows == if IsHandled(x) then Runs.FailedActive(old(runs.rows), ids.run, env.now) else old(runs.rows)
    {
      if IsHandled(x) {
        ending := Handle(env, ids, x, started);
      } else {
        NoViolation(c, x, ids, Escaped, events);
        ending := Escaped;
      }
    }

    // ---------- the tick ----------

    /** What the tick leaves for later ones: a success clears the recovery checkpoint; a
        failure saves the worktree if a run was started, is counted if it ended the tick
        as failed, and postpones the next tick. */
    predicate Remembered(env: Env, ending: Ending, before: Memory)
      reads this, failures
    {
      var fault := Fault(c, env, before.recovery);
      if fault.None? then Memory(recovery, nextAllowed, failures.rows) == before.(recovery := None)
      else
        var x := fault.value;
        && failures.rows == (if ending.Failed? then Failures.Recorded(before.failures, c.fingerprint(x.message), ScopeOf(x), c.threshold)
                             else before.failures)
        && nextAllowed == Postponed(before.nextAllowed, env.closedAt, Penalty(c, ending, x, failures.rows))
        && recovery == (if IsHandled(x) && PrepareFault(env, before.recovery).None? then Saved(env.worktree, before.recovery)
                        else before.recovery)
    }

    /** The try block under its two ladders of handlers. */
    method Contain(env: Env, ids: Ids) returns (ending: Ending)
      requires ids.run != ids.review && ids.run !in runs.rows && ids.review !in runs.rows
      requires Foreign(env.during, others) && Foreign(env.duringReview, others) && ids.tick !in others
      requires Owners(leases.rows, ids.tick, others)
      modifies this, leases, failures, runs
      ensures ending == EndingOf(c, env, old(recovery))
      ensures events == AppendAll(old(events), BodyTrace(c, env, old(recovery), ids) + EndTrace(c, env, old(recovery), ids))
      ensures Settled(c, runs.rows, env, ids, old(recovery))
      ensures Remembered(env, ending, Memory(old(recovery), old(nextAllowed), old(failures.rows)))
      ensures SameBut(runs.rows, old(runs.rows), {ids.run, ids.review}) && Owners(leases.rows, ids.tick, others)
    {
      ghost var body := BodyTrace(c, env, recovery, ids);
      var r, started := Work(env, ids);
      HandlingSettles(c, runs.rows, env, ids, old(recovery), env.now);
      if r.Ok? {
        return Finished;
      }
      AppendAllPlus(old(events), body, EndTrace(c, env, old(recovery), ids));
      FailActiveTouchesOne(runs.rows, ids.run, env.now);
      ending := Catch(env, ids, r.exc, started);
    }

    /** The tick once it holds the lease, up to its release. */
    method HoldLease(env: Env, ids: Ids) returns (ending: Ending, released: bool)
      requires ids.run != ids.review && ids.run !in runs.rows && ids.review !in runs.rows
      requires Foreign(env.during, others) && Foreign(env.duringReview, others) && ids.tick !in others
      requires Owners(leases.rows, ids.tick, others)
      modifies this, leases, failures, runs
      ensures ending == EndingOf(c, env, old(recovery))
      ensures events == AppendAll(old(events), TickTrace(c, env, old(recovery), ids, released))
      ensures Settled(c, runs.rows, env, ids, old(recovery))
      ensures Remembered(env, ending, Memory(old(recovery), old(nextAllowed), old(failures.rows)))
      ensures forall r :: r in leases.rows ==> leases.rows[r].owner in others
      ensures SameBut(runs.rows, old(runs.rows), {ids.run, ids.review})
    {
      Append(TickStarted, ids.tick, ids.run, true);
      ending := Contain(env, ids);
      released := leases.ReleaseLease(COORDINATOR, ids.tick);
      Append(LeaseReleased, ids.tick, ids.run, released);
      WholeTrace(c, env, old(recovery), ids, released, old(events));
    }

    /** One tick.  If the lease is busy nothing happens.  Otherwise, whatever the
        environment answers: the events are exactly the tick's trace, the runs it started
        have the statuses its faults explain, the retry time and the failure count follow
        from its ending, and no lease of the tick remains. */
    method Tick(env: Env, ids: Ids) returns (outcome: Outcome, released: bool)
      requires Fresh(env, ids)
      modifies this, leases, failures, runs
      ensures outcome.Busy? <==> !Leases.Free(old(leases.rows), COORDINATOR, env.stamp)
      ensures outcome.Busy? <==> COORDINATOR in old(leases.rows) && env.stamp < old(leases.rows)[COORDINATOR].expires
      ensures outcome.Busy? ==>
                && leases.rows == old(leases.rows) && runs.rows == old(runs.rows) && failures.rows == old(failures.rows)
                && events == old(events) && recovery == old(recovery) && nextAllowed == old(nextAllowed)
      ensures !outcome.Busy? ==>
                && outcome == Ended(EndingOf(c, env, old(recovery)))
                && events == AppendAll(old(events), TickTrace(c, env, old(recovery), ids, released))
                && Settled(c, runs.rows, env, ids, old(recovery))
                && Remembered(env, outcome.ending, Memory(old(recovery), old(nextAllowed), old(failures.rows)))
      ensures outcome == Ended(Finished) && env.output.Ok? && env.output.value.mutation && c.reviewEnabled ==>
                && env.review.Ok? && env.review.value.verdictIsPass && env.review.value.findings.Some?
                && multiset(env.review.value.findings.value)[Critical] <= c.maximumCritical
      ensures !outcome.Busy? && Closings(old(events), ids.tick) == 0 ==>
                Closings(events, ids.tick) == if outcome.ending.Escaped? then 0 else 1
      ensures !outcome.Busy? && !HasKey(old(events), TickKey(PolicyViolated, ids.tick)) ==>
                (HasKey(events, TickKey(PolicyViolated, ids.tick)) <==> RecordsViolation(c, Fault(c, env, old(recovery))))
      ensures !outcome.Busy? && PrepareFault(env, old(recovery)).None? ==>
                (Runs.Active(runs.rows, ids.run) <==> !WasAbandoned(env.during) && RaisesUnhandled(env.coordinator, env.charge))
      ensures !outcome.Busy? && ReviewerRuns(c, env, old(recovery)) ==>
                (Runs.Active(runs.rows, ids.review) <==> !WasAbandoned(env.duringReview) && RaisesUncaught(env))
      ensures forall r :: r in leases.rows ==> leases.rows[r].owner in others
      ensures SameBut(runs.rows, old(runs.rows), {ids.run, ids.review})
    {
      released := false;
      var ok := leases.AcquireLease(COORDINATOR, ids.tick, env.stamp, c.leaseSeconds);
      if !ok { return Busy, false; }
      var ending;
      ending, released := HoldLease(env, ids);
      TraceConsequences(c, env, old(recovery), ids, released, old(events));
      LeftActive(c, runs.rows, env, ids, old(recovery));
      FinishedWasReviewed(c, env, old(recovery));
      return Ended(ending), released;
    }

    /** One round of `loop`: a tick only when no host failure is quarantined and the
        retry time has come. */
    method LoopOnce(now: real, env: Env, ids: Ids) returns (outcome: Option<Outcome>)
      requires Fresh(env, ids)
      modifies this, leases, failures, runs
      ensures outcome.Some? <==> !Failures.HostQuarantined(old(failures.rows)) && (old(nextAllowed).None? || old(nextAllowed).value <= now)
      ensures outcome.Some? <==>
                && (forall fp :: fp in old(failures.rows) && old(failures.rows)[fp].quarantined ==> old(failures.rows)[fp].scope == Failures.Work)
                && (old(nextAllowed).None? || old(nextAllowed).value <= now)
      ensures outcome.None? || outcome == Some(Busy) ==>
                && events == old(events) && recovery == old(recovery) && nextAllowed == old(nextAllowed)
                && leases.rows == old(leases.rows) && runs.rows == old(runs.rows) && failures.rows == old(failures.rows)
      ensures outcome.Some? && outcome.value.Ended? ==>
                && outcome.value.ending == EndingOf(c, env, old(recovery))
                && Remembered(env, outcome.value.ending, Memory(old(recovery), old(nextAllowed), old(failures.rows)))
                && Settled(c, runs.rows, env, ids, old(recovery))
      ensures forall r :: r in leases.rows ==> leases.rows[r].owner in others
      ensures SameBut(runs.rows, old(runs.rows), {ids.run, ids.review})
    {
      if !Failures.HostQuarantined(failures.rows) {
        if nextAllowed.None? || now >= nextAllowed.value {
          var ended, released := Tick(env, ids);
          return Some(ended);
        }
      }
      return None;
    }
  }

  lemma FinishedWasReviewed(c: Config, env: Env, recovery: Option<Checkpoint>)
    ensures EndingOf(c, env, recovery).Finished? && env.output.Ok? && env.output.value.mutation && c.reviewEnabled ==>
              && env.review.Ok? && env.review.value.verdictIsPass && env.review.value.findings.Some?
              && multiset(env.review.value.findings.value)[Critical] <= c.maximumCritical
  {
    FinishedInFull(c, env, recovery);
  }

  /** Which runs a settled tick leaves active. */
  lemma LeftActive(c: Config, rows: Runs.Table, env: Env, ids: Ids, recovery: Option<Checkpoint>)
    requires Settled(c, rows, env, ids, recovery)
    ensures PrepareFault(env, recovery).None? ==>
              (Runs.Active(rows, ids.run) <==> !WasAbandoned(env.during) && RaisesUnhandled(env.coordinator, env.charge))
    ensures ReviewerRuns(c, env, recovery) ==>
              (Runs.Active(rows, ids.review) <==> !WasAbandoned(env.duringReview) && RaisesUncaught(env))
  {
    if PrepareFault(env, recovery).None? {
      CoordinatorLeftActiveIff(c, env, recovery);
    }
    ReviewerLeftActiveIff(env);
  }

  lemma NoViolation(c: Config, x: Exc, ids: Ids, ending: Ending, log: Log)
    requires !x.kind.PolicyViolation? || IsTransient(c, x)
    ensures AppendAll(log, ViolationTrace(c, x, ids) + ClosingTrace(ending, ids)) == AppendAll(log, ClosingTrace(ending, ids))
    ensures ending.Escaped? ==> AppendAll(log, ClosingTrace(ending, ids)) == log
  {
    AppendAllNothing(log, ViolationTrace(c, x, ids), ClosingTrace(ending, ids));
  }

  lemma AppendAllNothing(log: Log, nothing: seq<Event>, trace: seq<Event>)
    requires nothing == []
    ensures AppendAll(log, nothing + trace) == AppendAll(log, trace)
    ensures trace == [] ==> AppendAll(log, trace) == log
  {
    assert nothing + trace == trace;
  }

  lemma FailActiveTouchesOne(t: Runs.Table, id: RunId, now: int)
    ensures SameBut(Runs.FailedActive(t, id, now), t, {id})
  {
  }

  lemma AppendBracketed(log: Log, start: Event, body: seq<Event>, end: seq<Event>, last: Event)
    ensures AppendAll(log, [start] + body + end + [last])
         == AppendOnce(AppendAll(AppendOnce(log, start), body + end), last)
  {
    assert [start] + body + end == [start] + (body + end);
    AppendAllOne(log, [start] + (body + end), last);
    AppendAllPlus(log, [start], body + end);
    AppendAllSingle(log, start);
  }

  lemma WholeTrace(c: Config, env: Env, recovery: Option<Checkpoint>, ids: Ids, released: bool, log: Log)
    ensures AppendAll(log, TickTrace(c, env, recovery, ids, released))
         == AppendOnce(AppendAll(AppendOnce(log, Event(TickStarted, ids.tick, ids.run, true)),
                                 BodyTrace(c, env, recovery, ids) + EndTrace(c, env, recovery, ids)),
                       Event(LeaseReleased, ids.tick, ids.run, released))
  {
    var start := Event(TickStarted, ids.tick, ids.run, true);
    var last := Event(LeaseReleased, ids.tick, ids.run, released);
    var body, end := BodyTrace(c, env, recovery, ids), EndTrace(c, env, recovery, ids);
    assert TickTrace(c, env, recovery, ids, released) == [start] + body + end + [last];
    AppendBracketed(log, start, body, end, last);
  }

  /** What the trace of a tick means for a log that knows nothing of it yet. */
  lemma TraceConsequences(c: Config, env: Env, recovery: Option<Checkpoint>, ids: Ids, released: bool, log: Log)
    ensures Closings(log, ids.tick) == 0 ==>
              Closings(AppendAll(log, TickTrace(c, env, recovery, ids, released)), ids.tick)
              == if EndingOf(c, env, recovery).Escaped? then 0 else 1
    ensures !HasKey(log, TickKey(PolicyViolated, ids.tick)) ==>
              (HasKey(AppendAll(log, TickTrace(c, env, recovery, ids, released)), TickKey(PolicyViolated, ids.tick))
               <==> RecordsViolation(c, Fault(c, env, recovery)))
  {
    if Closings(log, ids.tick) == 0 {
      TickClosesOnce(c, env, recovery, ids, released, log);
    }
    if !HasKey(log, TickKey(PolicyViolated, ids.tick)) {
      ViolationInLog(c, env, recovery, ids, released, log);
    }
  }

  lemma GateRound(c: Config, env: Env, ids: Ids, i: nat, log: Log)
    requires i < |c.gates| && GatesFault(env, i).None?
    ensures var after := AppendAll(AppendAll(log, GatesTrace(c, env, ids, i)), GateTrace(c, env, ids, i));
            var fault := GateFault(env.gate(i));
            if fault.None? then GatesFault(env, i + 1).None? && after == AppendAll(log, GatesTrace(c, env, ids, i + 1))
            else GatesFault(env, |c.gates|) == fault && after == AppendAll(log, GatesTrace(c, env, ids, |c.gates|))
  {
    AppendGate(c, env, ids, i, log);
    if GateFault(env.gate(i)).Some? {
      FaultyGateIsLast(c, env, ids, i);
    }
  }

  lemma AppendGate(c: Config, env: Env, ids: Ids, i: nat, log: Log)
    requires i < |c.gates| && GatesFault(env, i).None?
    ensures AppendAll(log, GatesTrace(c, env, ids, i + 1)) == AppendAll(AppendAll(log, GatesTrace(c, env, ids, i)), GateTrace(c, env, ids, i))
  {
    var soFar, next := GatesTrace(c, env, ids, i), GateTrace(c, env, ids, i);
    assert GatesTrace(c, env, ids, i + 1) == soFar + next;
    AppendAllPlus(log, soFar, next);
  }

  lemma FaultyGateIsLast(c: Config, env: Env, ids: Ids, i: nat)
    requires i < |c.gates| && GatesFault(env, i).None? && GateFault(env.gate(i)).Some?
    ensures GatesFault(env, |c.gates|) == GateFault(env.gate(i))
    ensures GatesTrace(c, env, ids, |c.gates|) == GatesTrace(c, env, ids, i + 1)
  {
    assert GatesFault(env, i + 1) == GateFault(env.gate(i));
    NoGateAfterFault(c, env, ids, i + 1, |c.gates|);
  }

  lemma {:induction false} NoGateAfterFault(c: Config, env: Env, ids: Ids, i: nat, n: nat)
    requires i <= n <= |c.gates| && GatesFault(env, i).Some?
    ensures GatesFault(env, n) == GatesFault(env, i) && GatesTrace(c, env, ids, n) == GatesTrace(c, env, ids, i)
  {
    if i < n {
      NoGateAfterFault(c, env, ids, i, n - 1);
    }
  }
}
