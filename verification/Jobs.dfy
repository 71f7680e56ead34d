/**
  Durable jobs: `start_job`, `poll_job` and the guarded `finish_job`.

  Any number of pollers interleave their individual reads with the guarded write;
  the job itself writes its exit code to a file as its last action.
 */
module Jobs {
  import opened Prelude

  type JobId = nat
  type Name = nat
  type PollerId = nat

  datatype Status = Running | Succeeded | Failed | Expired
  datatype Job = Job(name: Name, status: Status, exitCode: Option<int>, started: int, maxDuration: int)

  /** The exit-code file: created empty by the redirection, then written once. */
  datatype ExitFile = Absent | Garbled | Code(n: int)

  type Table = map<JobId, Job>

  predicate Later(f: ExitFile, g: ExitFile) { f == g || f.Absent? || (f.Garbled? && g.Code?) }

  function StatusFor(code: Option<int>): Status { if code == Some(0) then Succeeded else Failed }

  function CodeIn(f: ExitFile): Option<int> { if f.Code? then Some(f.n) else None }

  /** `finish_job`: only a running row is updated. */
  function Finished(t: Table, j: JobId, status: Status, code: Option<int>): Table {
    if j in t && t[j].status.Running? then t[j := t[j].(status := status, exitCode := code)] else t
  }

  function RunningIds(t: Table): set<JobId> { set j | j in t && t[j].status.Running? }

  predicate NameTaken(t: Table, name: Name) { exists j :: j in t && t[j].status.Running? && t[j].name == name }

  // ---------- the protocol ----------

  datatype Poll =
    | SawRunning(j: JobId)
    | FileExists(j: JobId)
    | NoFile(j: JobId)
    | InTime(j: JobId)
    | Finishing(j: JobId, status: Status, code: Option<int>)
    | Rereading(j: JobId)
    | Done(j: JobId, result: Job)

  /** Starts are serialized: at most one is between its checks and its insert. */
  datatype Starter = NoStart | NameIsFree(name: Name) | Admitted(name: Name)

  /** `late` records the jobs that some poll saw beyond their maximum duration. */
  datatype State = State(jobs: Table, files: map<JobId, ExitFile>, clock: int, polls: map<PollerId, Poll>,
                         starter: Starter, late: set<JobId>)

  datatype Step =
    | PollBegin(p: PollerId, j: JobId)
    | PollIsFile(p: PollerId)
    | PollReadFile(p: PollerId)
    | PollClock(p: PollerId)
    | PollAlive(p: PollerId, alive: bool)
    | PollFinish(p: PollerId)
    | PollReread(p: PollerId)
    | StartCheckName(name: Name)
    | StartCount
    | StartInsert(j: JobId, maxDuration: int)
    | StartAbandon
    | FileChanges(j: JobId, f: ExitFile)
    | Advance(to: int)

  function FileOf(s: State, j: JobId): ExitFile { if j in s.files then s.files[j] else Absent }

  predicate Legal(s: State, e: Step) {
    match e
    case PollBegin(p, j) => p !in s.polls && j in s.jobs
    case PollIsFile(p) => p in s.polls && s.polls[p].SawRunning?
    case PollReadFile(p) => p in s.polls && s.polls[p].FileExists?
    case PollClock(p) => p in s.polls && s.polls[p].NoFile? && s.polls[p].j in s.jobs
    case PollAlive(p, _) => p in s.polls && s.polls[p].InTime? && s.polls[p].j in s.jobs
    case PollFinish(p) => p in s.polls && s.polls[p].Finishing?
    case PollReread(p) => p in s.polls && s.polls[p].Rereading? && s.polls[p].j in s.jobs
    case StartCheckName(_) => s.starter.NoStart?
    case StartCount => s.starter.NameIsFree?
    case StartInsert(_, maxDuration) => s.starter.Admitted? && maxDuration > 0
    case StartAbandon => true
    case FileChanges(j, f) => j in s.jobs && Later(FileOf(s, j), f)
    case Advance(to) => s.clock <= to
  }

  function Goes(s: State, p: PollerId, to: Poll): State { s.(polls := s.polls[p := to]) }

  function Apply(s: State, e: Step, maxConcurrent: nat): State
    requires Legal(s, e)
  {
    match e
    case PollBegin(p, j) => Goes(s, p, if s.jobs[j].status.Running? then SawRunning(j) else Done(j, s.jobs[j]))
    case PollIsFile(p) =>
      var j := s.polls[p].j;
      Goes(s, p, if FileOf(s, j).Absent? then NoFile(j) else FileExists(j))
    case PollReadFile(p) =>
      var j := s.polls[p].j;
      var code := CodeIn(FileOf(s, j));
      Goes(s, p, Finishing(j, StatusFor(code), code))
    case PollClock(p) =>
      var j := s.polls[p].j;
      if s.clock - s.jobs[j].started > s.jobs[j].maxDuration
      then Goes(s, p, Finishing(j, Expired, None)).(late := s.late + {j})
      else Goes(s, p, InTime(j))
    case PollAlive(p, alive) =>
      var j := s.polls[p].j;
      Goes(s, p, if alive then Done(j, s.jobs[j].(status := Running, exitCode := None)) else Finishing(j, Failed, None))
    case PollFinish(p) =>
      var f := s.polls[p];
      Goes(s, p, Rereading(f.j)).(jobs := Finished(s.jobs, f.j, f.status, f.code))
    case PollReread(p) => Goes(s, p, Done(s.polls[p].j, s.jobs[s.polls[p].j]))
    case StartCheckName(name) => s.(starter := if NameTaken(s.jobs, name) then NoStart else NameIsFree(name))
    case StartCount =>
      s.(starter := if |RunningIds(s.jobs)| >= maxConcurrent then NoStart else Admitted(s.starter.name))
    case StartInsert(j, maxDuration) =>
      // a repeated job id violates the primary key: nothing is inserted
      var jobs := if j in s.jobs then s.jobs else s.jobs[j := Job(s.starter.name, Running, None, s.clock, maxDuration)];
      s.(jobs := jobs, starter := NoStart)
    case StartAbandon => s.(starter := NoStart)
    case FileChanges(j, f) => s.(files := s.files[j := f])
    case Advance(to) => s.(clock := to)
  }

  predicate LegalRun(s: State, steps: seq<Step>, maxConcurrent: nat)
    decreases |steps|
  {
    steps == [] || (Legal(s, steps[0]) && LegalRun(Apply(s, steps[0], maxConcurrent), steps[1..], maxConcurrent))
  }

  function Run(s: State, steps: seq<Step>, maxConcurrent: nat): State
    requires LegalRun(s, steps, maxConcurrent)
    decreases |steps|
  {
    if steps == [] then s else Run(Apply(s, steps[0], maxConcurrent), steps[1..], maxConcurrent)
  }

  function Start(clock: int): State { State(map[], map[], clock, map[], NoStart, {}) }

  // ---------- the invariant ----------

  predicate JobOk(s: State, j: JobId)
    requires j in s.jobs
  {
    match s.jobs[j].status
    case Running => s.jobs[j].exitCode.None?
    case Succeeded => FileOf(s, j) == Code(0) && s.jobs[j].exitCode == Some(0)
    case Failed => s.jobs[j].exitCode != Some(0) && (s.jobs[j].exitCode.Some? ==> FileOf(s, j) == Code(s.jobs[j].exitCode.value))
    case Expired => j in s.late && s.jobs[j].exitCode.None?
  }

  predicate PollOk(s: State, poll: Poll) {
    && poll.j in s.jobs
    && match poll
       case FileExists(j) => !FileOf(s, j).Absent?
       case Finishing(j, status, code) =>
         && (status.Succeeded? ==> FileOf(s, j) == Code(0) && code == Some(0))
         && (status.Expired? ==> j in s.late && code.None?)
         && (status.Failed? ==> code != Some(0) && (code.Some? ==> FileOf(s, j) == Code(code.value)))
         && !status.Running?
       case Rereading(j) => !s.jobs[j].status.Running?
       case Done(j, result) => !result.status.Running? ==> s.jobs[j] == result
       case _ => true
  }

  ghost predicate NamesUnique(t: Table) {
    forall i, j :: i in t && j in t && t[i].status.Running? && t[j].status.Running? && t[i].name == t[j].name ==> i == j
  }

  ghost predicate JobsOk(s: State) { forall j :: j in s.jobs ==> JobOk(s, j) }

  ghost predicate PollsOk(s: State) { forall p :: p in s.polls ==> PollOk(s, s.polls[p]) }

  ghost predicate AdmissionOk(s: State, maxConcurrent: nat) {
    && NamesUnique(s.jobs) && |RunningIds(s.jobs)| <= maxConcurrent
    && (!s.starter.NoStart? ==> !NameTaken(s.jobs, s.starter.name))
    && (s.starter.Admitted? ==> |RunningIds(s.jobs)| < maxConcurrent)
  }

  ghost predicate Inv(s: State, maxConcurrent: nat) { JobsOk(s) && PollsOk(s) && AdmissionOk(s, maxConcurrent) }

  /** Terminal rows stay as they are. */
  ghost predicate Frozen(before: Table, after: Table) {
    forall j :: j in before ==> j in after && (!before[j].status.Running? ==> after[j] == before[j])
  }

  /** Files only move forward, and what some poll saw stays seen. */
  ghost predicate Grows(s: State, t: State) {
    && Frozen(s.jobs, t.jobs) && s.late <= t.late
    && (forall j :: j in s.jobs ==> Later(FileOf(s, j), FileOf(t, j)))
  }

  lemma StepGrows(s: State, e: Step, maxConcurrent: nat)
    requires Legal(s, e)
    ensures Grows(s, Apply(s, e, maxConcurrent))
  {
  }

  lemma PollStaysOk(s: State, t: State, poll: Poll)
    requires Grows(s, t) && PollOk(s, poll)
    ensures PollOk(t, poll)
  {
    assert Later(FileOf(s, poll.j), FileOf(t, poll.j));
  }

  lemma JobStaysOk(s: State, t: State, j: JobId)
    requires Grows(s, t) && j in s.jobs && JobOk(s, j) && t.jobs[j] == s.jobs[j]
    ensures JobOk(t, j)
  {
    assert Later(FileOf(s, j), FileOf(t, j));
  }

  /** The entry a step writes for its poller is in order. */
  lemma NewPollOk(s: State, e: Step, maxConcurrent: nat, p: PollerId)
    requires JobsOk(s) && PollsOk(s) && Legal(s, e)
    requires var t := Apply(s, e, maxConcurrent); p in t.polls && (p !in s.polls || t.polls[p] != s.polls[p])
    ensures var t := Apply(s, e, maxConcurrent); PollOk(t, t.polls[p])
  {
    if p in s.polls {
      assert PollOk(s, s.polls[p]);
    }
  }

  lemma StepKeepsPolls(s: State, e: Step, maxConcurrent: nat)
    requires JobsOk(s) && PollsOk(s) && Legal(s, e)
    ensures PollsOk(Apply(s, e, maxConcurrent))
  {
    var t := Apply(s, e, maxConcurrent);
    StepGrows(s, e, maxConcurrent);
    forall p | p in t.polls
      ensures PollOk(t, t.polls[p])
    {
      if p in s.polls && t.polls[p] == s.polls[p] {
        PollStaysOk(s, t, s.polls[p]);
      } else {
        NewPollOk(s, e, maxConcurrent, p);
      }
    }
  }

  lemma StepKeepsJobs(s: State, e: Step, maxConcurrent: nat)
    requires JobsOk(s) && PollsOk(s) && Legal(s, e)
    ensures JobsOk(Apply(s, e, maxConcurrent))
  {
    var t := Apply(s, e, maxConcurrent);
    StepGrows(s, e, maxConcurrent);
    forall j | j in t.jobs
      ensures JobOk(t, j)
    {
      if j in s.jobs && t.jobs[j] == s.jobs[j] {
        JobStaysOk(s, t, j);
      } else if j in s.jobs {
        assert e.PollFinish? && PollOk(s, s.polls[e.p]);
      }
    }
  }

  lemma FinishShrinks(t: Table, j: JobId, status: Status, code: Option<int>)
    requires !status.Running?
    ensures |RunningIds(Finished(t, j, status, code))| <= |RunningIds(t)|
  {
    assert RunningIds(Finished(t, j, status, code)) == RunningIds(t) - {j};
    if j in RunningIds(t) {
      assert |RunningIds(t) - {j}| == |RunningIds(t)| - 1;
    } else {
      assert RunningIds(t) - {j} == RunningIds(t);
    }
  }

  lemma FinishKeepsAdmission(s: State, p: PollerId, maxConcurrent: nat)
    requires PollsOk(s) && AdmissionOk(s, maxConcurrent) && Legal(s, PollFinish(p))
    ensures AdmissionOk(Apply(s, PollFinish(p), maxConcurrent), maxConcurrent)
  {
    var Finishing(j, status, code) := s.polls[p];
    assert PollOk(s, s.polls[p]);
    FinishShrinks(s.jobs, j, status, code);
    var after := Finished(s.jobs, j, status, code);
    assert forall i :: i in after && after[i].status.Running? ==> after[i] == s.jobs[i];
  }

  lemma InsertKeepsAdmission(s: State, j: JobId, maxDuration: int, maxConcurrent: nat)
    requires AdmissionOk(s, maxConcurrent) && Legal(s, StartInsert(j, maxDuration))
    ensures AdmissionOk(Apply(s, StartInsert(j, maxDuration), maxConcurrent), maxConcurrent)
  {
    if j !in s.jobs {
      assert RunningIds(Apply(s, StartInsert(j, maxDuration), maxConcurrent).jobs) == RunningIds(s.jobs) + {j};
    }
  }

  lemma StepKeepsAdmission(s: State, e: Step, maxConcurrent: nat)
    requires PollsOk(s) && AdmissionOk(s, maxConcurrent) && Legal(s, e)
    ensures AdmissionOk(Apply(s, e, maxConcurrent), maxConcurrent)
  {
    match e
    case PollFinish(p) => FinishKeepsAdmission(s, p, maxConcurrent);
    case StartInsert(j, maxDuration) => InsertKeepsAdmission(s, j, maxDuration, maxConcurrent);
    case _ =>
  }

  lemma InvStep(s: State, e: Step, maxConcurrent: nat)
    requires Inv(s, maxConcurrent) && Legal(s, e)
    ensures Inv(Apply(s, e, maxConcurrent), maxConcurrent)
  {
    StepKeepsPolls(s, e, maxConcurrent);
    StepKeepsJobs(s, e, maxConcurrent);
    StepKeepsAdmission(s, e, maxConcurrent);
  }

  lemma {:induction false} InvRun(s: State, steps: seq<Step>, maxConcurrent: nat)
    requires Inv(s, maxConcurrent) && LegalRun(s, steps, maxConcurrent)
    ensures Inv(Run(s, steps, maxConcurrent), maxConcurrent)
    decreases |steps|
  {
    if steps != [] {
      InvStep(s, steps[0], maxConcurrent);
      InvRun(Apply(s, steps[0], maxConcurrent), steps[1..], maxConcurrent);
    }
  }

  // ---------- main results ----------

  /** A job leaves `running` at most once: its terminal row never changes again. */
  lemma {:induction false} TerminalIsFinal(s: State, steps: seq<Step>, maxConcurrent: nat)
    requires LegalRun(s, steps, maxConcurrent)
    ensures Frozen(s.jobs, Run(s, steps, maxConcurrent).jobs)
    decreases |steps|
  {
    if steps != [] {
      StepGrows(s, steps[0], maxConcurrent);
      TerminalIsFinal(Apply(s, steps[0], maxConcurrent), steps[1..], maxConcurrent);
    }
  }

  /** Over every interleaving, all polls that return a terminal record of a job return
      the same record. */
  lemma PollersAgree(clock: int, steps: seq<Step>, maxConcurrent: nat, p: PollerId, q: PollerId)
    requires LegalRun(Start(clock), steps, maxConcurrent)
    requires var s := Run(Start(clock), steps, maxConcurrent);
             && p in s.polls && q in s.polls && s.polls[p].Done? && s.polls[q].Done? && s.polls[p].j == s.polls[q].j
             && !s.polls[p].result.status.Running? && !s.polls[q].result.status.Running?
    ensures var s := Run(Start(clock), steps, maxConcurrent); s.polls[p].result == s.polls[q].result
  {
    InvRun(Start(clock), steps, maxConcurrent);
    var s := Run(Start(clock), steps, maxConcurrent);
    assert PollOk(s, s.polls[p]) && PollOk(s, s.polls[q]);
  }

  /** `succeeded` means the exit file holds 0, only a success carries the code 0, and any
      recorded code is the one in the file. */
  lemma OutcomesAreJustified(clock: int, steps: seq<Step>, maxConcurrent: nat, j: JobId)
    requires LegalRun(Start(clock), steps, maxConcurrent) && j in Run(Start(clock), steps, maxConcurrent).jobs
    ensures var s := Run(Start(clock), steps, maxConcurrent);
            && (s.jobs[j].status.Succeeded? ==> FileOf(s, j) == Code(0))
            && (s.jobs[j].status.Expired? ==> s.jobs[j].exitCode.None? && j in s.late)
            && (s.jobs[j].exitCode == Some(0) <==> s.jobs[j].status.Succeeded?)
            && (s.jobs[j].exitCode.Some? ==> FileOf(s, j) == Code(s.jobs[j].exitCode.value))
  {
    InvRun(Start(clock), steps, maxConcurrent);
    assert JobOk(Run(Start(clock), steps, maxConcurrent), j);
  }

  /** Serialized starts, interleaved with any polls, respect the concurrency limit and
      keep one running job per name. */
  lemma AdmissionIsBounded(clock: int, steps: seq<Step>, maxConcurrent: nat)
    requires LegalRun(Start(clock), steps, maxConcurrent)
    ensures var s := Run(Start(clock), steps, maxConcurrent);
            |RunningIds(s.jobs)| <= maxConcurrent && NamesUnique(s.jobs)
  {
    assert RunningIds(Start(clock).jobs) == {};
    InvRun(Start(clock), steps, maxConcurrent);
  }

  /** The poller of this step reads a clock beyond the job's maximum duration. */
  predicate SeesOverdue(s: State, e: Step, j: JobId) {
    e.PollClock? && Legal(s, e) && s.polls[e.p].j == j && s.clock - s.jobs[j].started > s.jobs[j].maxDuration
  }

  lemma {:induction false} LateWasSeen(s: State, steps: seq<Step>, maxConcurrent: nat, j: JobId) returns (i: nat)
    requires LegalRun(s, steps, maxConcurrent) && j !in s.late && j in Run(s, steps, maxConcurrent).late
    ensures i < |steps| && LegalRun(s, steps[..i], maxConcurrent)
    ensures SeesOverdue(Run(s, steps[..i], maxConcurrent), steps[i], j)
    decreases |steps|
  {
    var next := Apply(s, steps[0], maxConcurrent);
    if j in next.late {
      i := 0;
      assert steps[..0] == [];
    } else {
      var k := LateWasSeen(next, steps[1..], maxConcurrent, j);
      i := k + 1;
      assert steps[..i][1..] == steps[1..][..k];
    }
  }

  /** `expired` means that at some step of the run a poll read the clock beyond the job's
      maximum duration. */
  lemma ExpiredWasOverdue(clock: int, steps: seq<Step>, maxConcurrent: nat, j: JobId) returns (i: nat)
    requires LegalRun(Start(clock), steps, maxConcurrent)
    requires j in Run(Start(clock), steps, maxConcurrent).jobs && Run(Start(clock), steps, maxConcurrent).jobs[j].status.Expired?
    ensures i < |steps| && LegalRun(Start(clock), steps[..i], maxConcurrent)
    ensures SeesOverdue(Run(Start(clock), steps[..i], maxConcurrent), steps[i], j)
  {
    InvRun(Start(clock), steps, maxConcurrent);
    assert JobOk(Run(Start(clock), steps, maxConcurrent), j);
    i := LateWasSeen(Start(clock), steps, maxConcurrent, j);
  }

  // ---------- the table and one undisturbed poll ----------

  datatype StartResult = Started(j: JobId) | Invalid | NameRunning | TooMany | DuplicateId

  class JobTable {
    var jobs: Table

    constructor ()
      ensures jobs == map[]
    {
      jobs := map[];
    }

    method FinishJob(j: JobId, status: Status, code: Option<int>)
      requires !status.Running?
      modifies this
      ensures jobs == Finished(old(jobs), j, status, code)
      ensures jobs == if j in old(jobs) && old(jobs)[j].status == Running
                      then old(jobs)[j := old(jobs)[j].(status := status, exitCode := code)] else old(jobs)
    {
      if j in jobs && jobs[j].status.Running? {
        jobs := jobs[j := jobs[j].(status := status, exitCode := code)];
      }
    }

    /** `start_job`: the arguments, the name, the count, then the insert. */
    method StartJob(j: JobId, name: Name, blankCommand: bool, now: int, maxDuration: int, maxConcurrent: nat)
      returns (r: StartResult)
      modifies this
      ensures r.Invalid? <==> blankCommand || maxDuration <= 0
      ensures r.NameRunning? <==> !r.Invalid? && NameTaken(old(jobs), name)
      ensures r.TooMany? <==> !r.Invalid? && !NameTaken(old(jobs), name) && |RunningIds(old(jobs))| >= maxConcurrent
      ensures r.NameRunning? <==>
                !r.Invalid? && exists i :: i in old(jobs) && old(jobs)[i].status == Running && old(jobs)[i].name == name
      ensures forall i :: i in RunningIds(old(jobs)) <==> i in old(jobs) && old(jobs)[i].status == Running
      ensures r.DuplicateId? <==> !r.Invalid? && !r.NameRunning? && !r.TooMany? && j in old(jobs)
      ensures r.Started? ==> r.j == j && j !in old(jobs) && jobs == old(jobs)[j := Job(name, Running, None, now, maxDuration)]
      ensures !r.Started? ==> jobs == old(jobs)
      ensures r.Started? ==> |RunningIds(jobs)| <= maxConcurrent && (NamesUnique(old(jobs)) ==> NamesUnique(jobs))
    {
      if blankCommand || maxDuration <= 0 {
        return Invalid;
      }
      if exists i :: i in jobs && jobs[i].status.Running? && jobs[i].name == name {
        return NameRunning;
      }
      if |RunningIds(jobs)| >= maxConcurrent {
        return TooMany;
      }
      if j in jobs {
        return DuplicateId;
      }
      ghost var before := jobs;
      jobs := jobs[j := Job(name, Running, None, now, maxDuration)];
      assert RunningIds(jobs) == RunningIds(before) + {j};
      return Started(j);
    }

    /** `poll_job` with what it reads on the way; the exit file wins over the clock,
        the clock over the liveness of the process. */
    method PollJob(j: JobId, file: ExitFile, now: int, alive: bool) returns (r: Option<Job>)
      modifies this
      ensures r.None? <==> j !in old(jobs)
      ensures r.Some? ==> j in jobs && r.value == jobs[j] && jobs == old(jobs)[j := r.value]
      ensures r.Some? && !old(jobs)[j].status.Running? ==> r.value == old(jobs)[j]
      ensures r.Some? && old(jobs)[j].status.Running? ==>
                var job := old(jobs)[j];
                var late := now - job.started > job.maxDuration;
                && (r.value.status.Succeeded? <==> file == Code(0))
                && (r.value.status.Expired? <==> file.Absent? && late)
                && (r.value.status.Running? <==> file.Absent? && !late && alive)
                && r.value.exitCode == (if r.value.status.Running? then job.exitCode else CodeIn(file))
                && (file.Code? ==> r.value.exitCode == Some(file.n))
                && (!file.Code? && !r.value.status.Running? ==> r.value.exitCode == None)
                && r.value == job.(status := r.value.status, exitCode := r.value.exitCode)
    {
      if j !in jobs {
        return None;
      }
      var record := jobs[j];
      if !record.status.Running? {
        return Some(record);
      }
      if !file.Absent? {
        var code := CodeIn(file);
        FinishJob(j, if code == Some(0) then Succeeded else Failed, code);
        return Some(jobs[j]);
      }
      if now - record.started > record.maxDuration {
        FinishJob(j, Expired, None);
        return Some(jobs[j]);
      }
      if !alive {
        FinishJob(j, Failed, None);
        return Some(jobs[j]);
      }
      return Some(record);
    }
  }
}
