/**
  Resumable campaigns: `run_campaign` over crashes and restarts.

  One process runs a campaign at a time and may die between any two ledger calls.
  While it runs (and while it is down) the rest of the system appends events.
 */
module Campaigns {
  import opened Prelude

  type Id = nat
  datatype Kind =
    | ChaosProcessKilled | TickFinished | TickFailed | OperationReconciled | OperationDuplicateDetected
    | LeaseExpired | RunRecovered | PolicyViolation | IssueCompleted | PrMerged | SelfDiscoveryCreated
    | FailureUnquarantined | CampaignFinished | OtherKind(name: nat)

  /** `key` is the campaign named by the unique operation key of its finish event. */
  datatype Event = Event(kind: Kind, key: Option<Id>)
  type Log = seq<Event>
  type Counts = map<Kind, nat>

  function Count(log: Log, kind: Kind): nat {
    if log == [] then 0
    else Count(log[..|log| - 1], kind) + if log[|log| - 1].kind == kind then 1 else 0
  }

  function Kinds(log: Log): set<Kind> { set e | e in log :: e.kind }

  /** `event_counts`: one entry for every kind that occurs. */
  function EventCounts(log: Log): Counts { map k | k in Kinds(log) :: Count(log, k) }

  function Get(counts: Counts, kind: Kind): int { if kind in counts then counts[kind] else 0 }

  function Delta(after: Counts, before: Counts, kind: Kind): int { Get(after, kind) - Get(before, kind) }

  datatype Campaign = Campaign(id: Id, deadline: real, before: Counts, minimum: int)

  datatype Report = Report(
    id: Id, chaosKills: int, successfulTicks: int, failedTicks: int, reconciledOperations: int,
    duplicateOperations: int, expiredLeases: int, recoveredRuns: int, policyViolations: int,
    issuesCompleted: int, pullRequestsMerged: int, selfDiscoveries: int, humanInterventions: int, passed: bool)

  /** What an uninterrupted observer would report: plain counts of the events since the
      start of the campaign. */
  function CountedReport(id: Id, minimum: int, since: Log, hostQuarantined: bool): Report {
    Report(id,
           Count(since, ChaosProcessKilled), Count(since, TickFinished), Count(since, TickFailed),
           Count(since, OperationReconciled), Count(since, OperationDuplicateDetected), Count(since, LeaseExpired),
           Count(since, RunRecovered), Count(since, PolicyViolation), Count(since, IssueCompleted),
           Count(since, PrMerged), Count(since, SelfDiscoveryCreated), Count(since, FailureUnquarantined),
           Count(since, TickFinished) >= minimum && !hostQuarantined)
  }

  /** What `run_campaign` reports: differences of two readings of the counters. */
  function DeltaReport(c: Campaign, after: Counts, hostQuarantined: bool): Report {
    Report(c.id,
           Delta(after, c.before, ChaosProcessKilled), Delta(after, c.before, TickFinished),
           Delta(after, c.before, TickFailed), Delta(after, c.before, OperationReconciled),
           Delta(after, c.before, OperationDuplicateDetected), Delta(after, c.before, LeaseExpired),
           Delta(after, c.before, RunRecovered), Delta(after, c.before, PolicyViolation),
           Delta(after, c.before, IssueCompleted), Delta(after, c.before, PrMerged),
           Delta(after, c.before, SelfDiscoveryCreated), Delta(after, c.before, FailureUnquarantined),
           Delta(after, c.before, TickFinished) >= c.minimum && !hostQuarantined)
  }

  // ---------- counting ----------

  lemma {:induction false} CountSplits(log: Log, n: nat, kind: Kind)
    requires n <= |log|
    ensures Count(log, kind) == Count(log[..n], kind) + Count(log[n..], kind)
  {
    if n == |log| {
      assert log[..n] == log && log[n..] == [];
    } else {
      var shorter := log[..|log| - 1];
      CountSplits(shorter, n, kind);
      assert shorter[..n] == log[..n];
      assert log[n..][..|log| - n - 1] == shorter[n..] && log[n..][|log| - n - 1] == log[|log| - 1];
    }
  }

  function Places(log: Log, kind: Kind): set<int> { set i | 0 <= i < |log| && log[i].kind == kind }

  lemma OneMorePlace(log: Log, kind: Kind)
    requires log != []
    ensures var n := |log| - 1;
            Places(log, kind) == Places(log[..n], kind) + if log[n].kind == kind then {n} else {}
  {
    var n := |log| - 1;
    assert forall i :: 0 <= i < n ==> log[..n][i] == log[i];
  }

  /** A count is the number of places in the log at which the kind occurs. */
  lemma {:induction false} CountIsNumberOfPlaces(log: Log, kind: Kind)
    ensures Count(log, kind) == |Places(log, kind)|
  {
    if log != [] {
      CountIsNumberOfPlaces(log[..|log| - 1], kind);
      OneMorePlace(log, kind);
    }
  }

  lemma {:induction false} CountAbsent(log: Log, kind: Kind)
    requires kind !in Kinds(log)
    ensures Count(log, kind) == 0
  {
    if log != [] {
      var shorter := log[..|log| - 1];
      assert forall e :: e in shorter ==> e in log;
      assert log[|log| - 1] in log;
      CountAbsent(shorter, kind);
    }
  }

  lemma GetIsCount(log: Log, kind: Kind)
    ensures Get(EventCounts(log), kind) == Count(log, kind)
  {
    if kind !in Kinds(log) {
      CountAbsent(log, kind);
    }
  }

  lemma DeltaIsCount(log: Log, n: nat, kind: Kind)
    requires n <= |log|
    ensures Delta(EventCounts(log), EventCounts(log[..n]), kind) == Count(log[n..], kind)
  {
    GetIsCount(log, kind);
    GetIsCount(log[..n], kind);
    CountSplits(log, n, kind);
  }

  // ---------- the run of crashes and restarts ----------

  datatype Proc =
    | Down
    | Fresh(id: Id, deadline: real, minimum: int)
    | Based(c: Campaign)
    | Active(c: Campaign)
    | Reported(c: Campaign, report: Report)
    | Cleared(c: Campaign, report: Report)

  /** `origin` remembers the length of the log when a campaign took its baseline. */
  datatype State = State(log: Log, clock: real, checkpoint: Option<Campaign>, proc: Proc, origin: map<Id, nat>, used: set<Id>)

  datatype Step =
    | Advance(to: real)
    | Append(kind: Kind)
    | Begin(now: real, duration: real, minimum: int, id: Id)
    | Baseline
    | Save
    | Observe(hostQuarantined: bool)
    | Clear
    | Announce
    | Crash

  function ActiveCampaign(s: State): Option<Campaign> {
    if s.checkpoint.Some? && s.clock < s.checkpoint.value.deadline then s.checkpoint else None
  }

  predicate Legal(s: State, e: Step) {
    match e
    case Advance(to) => s.clock <= to
    case Append(kind) => !kind.CampaignFinished?
    // `now` was read before the checkpoint is
    case Begin(now, duration, _, id) => s.proc.Down? && now <= s.clock && duration > 0.0 && id !in s.used
    case Baseline => s.proc.Fresh?
    case Save => s.proc.Based?
    case Observe(_) => s.proc.Active?
    case Clear => s.proc.Reported?
    case Announce => s.proc.Cleared?
    case Crash => true
  }

  function FinishEvent(id: Id): Event { Event(CampaignFinished, Some(id)) }

  /** `append_event` with an operation key: INSERT OR IGNORE. */
  function AppendOnce(log: Log, e: Event): Log { if e in log then log else log + [e] }

  function Apply(s: State, e: Step): State {
    match e
    case Advance(to) => s.(clock := to)
    case Append(kind) => s.(log := s.log + [Event(kind, None)])
    case Begin(now, duration, minimum, id) =>
      if ActiveCampaign(s).Some? then s.(proc := Active(ActiveCampaign(s).value))
      else s.(proc := Fresh(id, now + duration, minimum), used := s.used + {id})
    case Baseline =>
      if s.proc.Fresh?
      then s.(proc := Based(Campaign(s.proc.id, s.proc.deadline, EventCounts(s.log), s.proc.minimum)),
              origin := s.origin[s.proc.id := |s.log|])
      else s
    case Save => if s.proc.Based? then s.(checkpoint := Some(s.proc.c), proc := Active(s.proc.c)) else s
    case Observe(quarantined) =>
      if s.proc.Active? then s.(proc := Reported(s.proc.c, DeltaReport(s.proc.c, EventCounts(s.log), quarantined))) else s
    case Clear => if s.proc.Reported? then s.(checkpoint := None, proc := Cleared(s.proc.c, s.proc.report)) else s
    case Announce => if s.proc.Cleared? then s.(log := AppendOnce(s.log, FinishEvent(s.proc.c.id)), proc := Down) else s
    case Crash => s.(proc := Down)
  }

  predicate LegalRun(s: State, steps: seq<Step>)
    decreases |steps|
  {
    steps == [] || (Legal(s, steps[0]) && LegalRun(Apply(s, steps[0]), steps[1..]))
  }

  function Run(s: State, steps: seq<Step>): State
    decreases |steps|
  {
    if steps == [] then s else Run(Apply(s, steps[0]), steps[1..])
  }

  /** A ledger with the campaigns `past` behind it, none of them unfinished. */
  function Start(log: Log, clock: real, past: set<Id>): State { State(log, clock, None, Down, map[], past) }

  function Finishes(log: Log, id: Id): nat {
    if log == [] then 0
    else Finishes(log[..|log| - 1], id) + if log[|log| - 1] == FinishEvent(id) then 1 else 0
  }

  // ---------- the invariant ----------

  predicate Anchored(s: State, c: Campaign) {
    c.id in s.used && c.id in s.origin && s.origin[c.id] <= |s.log| && c.before == EventCounts(s.log[..s.origin[c.id]])
  }

  ghost predicate OncePerId(s: State) {
    forall id :: Finishes(s.log, id) <= (if id in s.used then 1 else 0)
  }

  predicate Unfinished(s: State, id: Id) { id in s.used && Finishes(s.log, id) == 0 }

  predicate ProcFits(s: State) {
    match s.proc
    case Down => true
    case Fresh(id, _, _) => Unfinished(s, id) && (s.checkpoint.Some? ==> s.checkpoint.value.id != id)
    case Based(c) => Unfinished(s, c.id) && Anchored(s, c) && (s.checkpoint.Some? ==> s.checkpoint.value.id != c.id)
    case Active(c) => s.checkpoint == Some(c)
    case Reported(c, _) => s.checkpoint == Some(c)
    case Cleared(c, _) => Unfinished(s, c.id) && s.checkpoint.None?
  }

  ghost predicate Inv(s: State) {
    && OncePerId(s)
    && (s.checkpoint.Some? ==> Anchored(s, s.checkpoint.value) && Unfinished(s, s.checkpoint.value.id))
    && ProcFits(s)
  }

  lemma FinishesSnoc(log: Log, e: Event, id: Id)
    ensures Finishes(log + [e], id) == Finishes(log, id) + if e == FinishEvent(id) then 1 else 0
  {
    assert (log + [e])[..|log|] == log;
  }

  lemma LongerLogKeeps(s: State, t: State, e: Event)
    requires Inv(s) && t.log == s.log + [e] && t.checkpoint == s.checkpoint && t.origin == s.origin && t.used == s.used
    ensures forall c :: Anchored(s, c) ==> Anchored(t, c)
    ensures forall id :: Finishes(t.log, id) == Finishes(s.log, id) + if e == FinishEvent(id) then 1 else 0
  {
    forall c | Anchored(s, c)
      ensures Anchored(t, c)
    {
      assert t.log[..s.origin[c.id]] == s.log[..s.origin[c.id]];
    }
    forall id
      ensures Finishes(t.log, id) == Finishes(s.log, id) + if e == FinishEvent(id) then 1 else 0
    {
      FinishesSnoc(s.log, e, id);
    }
  }

  lemma InvStep(s: State, e: Step)
    requires Inv(s) && Legal(s, e)
    ensures Inv(Apply(s, e))
  {
    var t := Apply(s, e);
    match e
    case Append(kind) =>
      LongerLogKeeps(s, t, Event(kind, None));
    case Announce =>
      if t.log != s.log {
        LongerLogKeeps(s, t, FinishEvent(s.proc.c.id));
      }
    case Baseline =>
      assert t.log[..|s.log|] == s.log;
    case _ =>
  }

  lemma {:induction false} InvRun(s: State, steps: seq<Step>)
    requires Inv(s) && LegalRun(s, steps)
    ensures Inv(Run(s, steps))
    decreases |steps|
  {
    if steps != [] {
      InvStep(s, steps[0]);
      InvRun(Apply(s, steps[0]), steps[1..]);
    }
  }

  // ---------- main results ----------

  /** However often the campaign was interrupted, its report counts exactly the events
      appended since it first took its baseline; no count is negative. */
  lemma ReportSpansTheCampaign(s: State, quarantined: bool)
    requires Inv(s) && s.proc.Active?
    ensures var c := s.proc.c;
            var t := Apply(s, Observe(quarantined));
            && c.id in s.origin && s.origin[c.id] <= |s.log|
            && t.proc == Reported(c, CountedReport(c.id, c.minimum, s.log[s.origin[c.id]..], quarantined))
  {
    var c := s.proc.c;
    var n := s.origin[c.id];
    forall kind
      ensures Delta(EventCounts(s.log), c.before, kind) == Count(s.log[n..], kind)
    {
      DeltaIsCount(s.log, n, kind);
    }
  }

  /** Until its deadline or its end, every incarnation is the same campaign. */
  lemma {:induction false} SameCampaignUntilDeadline(s: State, steps: seq<Step>, c: Campaign)
    requires Inv(s) && LegalRun(s, steps) && s.checkpoint == Some(c)
    requires s.proc.Down? || s.proc.Active? || s.proc.Reported?
    requires Clear !in steps && Run(s, steps).clock < c.deadline
    ensures var t := Run(s, steps);
            && t.checkpoint == Some(c) && c.id in t.origin && c.id in s.origin && t.origin[c.id] == s.origin[c.id]
            && (t.proc.Down? || ((t.proc.Active? || t.proc.Reported?) && t.proc.c == c))
    decreases |steps|
  {
    if steps != [] {
      ClockMonotone(Apply(s, steps[0]), steps[1..]);
      InvStep(s, steps[0]);
      assert steps[0] in steps;
      SameCampaignUntilDeadline(Apply(s, steps[0]), steps[1..], c);
    }
  }

  lemma {:induction false} ClockMonotone(s: State, steps: seq<Step>)
    requires LegalRun(s, steps)
    ensures s.clock <= Run(s, steps).clock
    decreases |steps|
  {
    if steps != [] {
      ClockMonotone(Apply(s, steps[0]), steps[1..]);
    }
  }

  /** The finish event of a campaign is appended at most once over any run. */
  lemma FinishedAtMostOnce(log: Log, clock: real, past: set<Id>, steps: seq<Step>, id: Id)
    requires LegalRun(Start(log, clock, past), steps) && OncePerId(Start(log, clock, past))
    ensures Finishes(Run(Start(log, clock, past), steps).log, id) <= 1
  {
    InvRun(Start(log, clock, past), steps);
  }

  /** Nobody can speak for campaign `id` any more. */
  predicate Abandoned(s: State, id: Id) {
    && Unfinished(s, id)
    && (s.checkpoint.Some? && s.checkpoint.value.id == id ==> s.checkpoint.value.deadline <= s.clock)
    && match s.proc
       case Down => true
       case Fresh(i, _, _) => i != id
       case Based(c) => c.id != id
       case Active(c) => c.id != id
       case Reported(c, _) => c.id != id
       case Cleared(c, _) => c.id != id
  }

  lemma {:induction false} AbandonedStaysUnfinished(s: State, steps: seq<Step>, id: Id)
    requires Inv(s) && Abandoned(s, id) && LegalRun(s, steps)
    ensures Finishes(Run(s, steps).log, id) == 0 && Abandoned(Run(s, steps), id)
    decreases |steps|
  {
    if steps != [] {
      var e := steps[0];
      InvStep(s, e);
      AbandonedStep(s, e, id);
      AbandonedStaysUnfinished(Apply(s, e), steps[1..], id);
    }
  }

  lemma AbandonedStep(s: State, e: Step, id: Id)
    requires Inv(s) && Abandoned(s, id) && Legal(s, e)
    ensures Abandoned(Apply(s, e), id)
  {
    if Apply(s, e).log != s.log {
      LongerLogKeeps(s, Apply(s, e), if e.Append? then Event(e.kind, None) else FinishEvent(s.proc.c.id));
    }
  }

  /** An id no campaign has used. */
  lemma FreshId(used: set<Id>) returns (id: Id)
    ensures id !in used
  {
    id := 0;
    var below: set<Id> := {};
    while id in used
      invariant below <= used && (forall n :: n in below <==> 0 <= n < id)
      decreases used - below
    {
      below := below + {id};
      id := id + 1;
    }
  }

  /** How many steps a campaign is from its finish event. */
  function Distance(s: State, id: Id): nat {
    match s.proc
    case Cleared(c, _) => if c.id == id then 1 else 8
    case Reported(c, _) => if c.id == id then 2 else 8
    case Active(c) => if c.id == id then 3 else 8
    case Based(c) => if c.id == id then 4 else 8
    case Fresh(i, _, _) => if i == id then 5 else 8
    case Down => 7
  }

  lemma NextStep(s: State, id: Id) returns (e: Step)
    requires Inv(s) && Unfinished(s, id) && !Abandoned(s, id)
    ensures Legal(s, e) && Inv(Apply(s, e))
    ensures if Distance(s, id) == 1 then Finishes(Apply(s, e).log, id) == 1
            else Unfinished(Apply(s, e), id) && !Abandoned(Apply(s, e), id) && Distance(Apply(s, e), id) < Distance(s, id)
  {
    match Distance(s, id) {
      case 1 => e := Announce; FinishedOnceMore(s.log, id);
      case 2 => e := Clear;
      case 3 => e := Observe(false);
      case 4 => e := Save;
      case 5 => e := Baseline;
      case 7 =>
        var id' := FreshId(s.used);
        e := Begin(s.clock, 1.0, 0, id');
      case _ => e := Crash;
    }
    InvStep(s, e);
  }

  lemma {:induction false} StillFinishes(s: State, id: Id) returns (steps: seq<Step>)
    requires Inv(s) && Unfinished(s, id) && !Abandoned(s, id)
    ensures LegalRun(s, steps) && Finishes(Run(s, steps).log, id) == 1
    decreases Distance(s, id)
  {
    var e := NextStep(s, id);
    var rest := [];
    if Distance(s, id) > 1 {
      rest := StillFinishes(Apply(s, e), id);
    }
    steps := [e] + rest;
    assert steps[1..] == rest;
  }

  ghost predicate NeverFinishes(s: State, id: Id) {
    forall steps :: LegalRun(s, steps) ==> Finishes(Run(s, steps).log, id) == 0
  }

  /** An unfinished campaign is never announced as finished if and only if no process
      works on it and no checkpoint before its deadline names it. */
  lemma AbandonedIffNeverFinishes(s: State, id: Id)
    requires Inv(s) && Unfinished(s, id)
    ensures Abandoned(s, id) <==> NeverFinishes(s, id)
  {
    if Abandoned(s, id) {
      forall steps | LegalRun(s, steps)
        ensures Finishes(Run(s, steps).log, id) == 0
      {
        AbandonedStaysUnfinished(s, steps, id);
      }
    } else {
      var steps := StillFinishes(s, id);
    }
  }

  /** A campaign that is down when its deadline passes is abandoned. */
  lemma DownAtDeadlineIsAbandoned(s: State, at: real)
    requires Inv(s) && s.checkpoint.Some? && s.clock <= at && s.checkpoint.value.deadline <= at
    ensures Legal(s, Crash) && Legal(Apply(s, Crash), Advance(at))
    ensures Abandoned(Apply(Apply(s, Crash), Advance(at)), s.checkpoint.value.id)
  {
  }

  /** So is one that dies before its checkpoint is saved. */
  lemma UnsavedIsAbandoned(s: State)
    requires Inv(s) && s.proc.Based?
    ensures Legal(s, Crash) && Abandoned(Apply(s, Crash), s.proc.c.id)
  {
  }

  /** So is, before any deadline, one that dies with its report written and its checkpoint
      cleared but its end not yet announced. */
  lemma ClearedIsAbandoned(s: State)
    requires Inv(s) && s.proc.Reported?
    ensures Legal(s, Clear) && Legal(Apply(s, Clear), Crash)
    ensures Abandoned(Apply(Apply(s, Clear), Crash), s.proc.c.id)
  {
  }

  // ---------- run_campaign itself ----------

  lemma {:induction false} Extend(s: State, steps: seq<Step>, e: Step)
    requires LegalRun(s, steps) && Legal(Run(s, steps), e)
    ensures LegalRun(s, steps + [e]) && Run(s, steps + [e]) == Apply(Run(s, steps), e)
    decreases |steps|
  {
    if steps == [] {
      assert (steps + [e])[1..] == [];
    } else {
      Extend(Apply(s, steps[0]), steps[1..], e);
      assert (steps + [e])[1..] == steps[1..] + [e];
    }
  }

  /** What one process meets: its clock readings, the events appended while it loops,
      and the number of steps after which it dies. */
  datatype Env = Env(now: real, id: Id, during: seq<Kind>, stopped: real, hostQuarantined: bool, lifetime: nat)

  datatype Outcome = Died | Refused | Finished(report: Report)

  predicate Plausible(s: State, env: Env) {
    env.now <= s.clock <= env.stopped && env.id !in s.used && CampaignFinished !in env.during
  }

  class Campaigner {
    var state: State
    var left: nat
    ghost var history: seq<Step>
    ghost const first: State

    ghost predicate Valid()
      reads this
    {
      Inv(first) && LegalRun(first, history) && state == Run(first, history) && Inv(state)
    }

    constructor (s: State)
      requires Inv(s)
      ensures Valid() && state == s && history == []
    {
      state, left, first, history := s, 0, s, [];
    }

    /** One atomic step, unless the process dies before it. */
    method Do(e: Step) returns (alive: bool)
      requires Valid() && Legal(state, e)
      modifies this
      ensures Valid() && old(history) <= history
      ensures alive == (old(left) > 0) && left == (if alive then old(left) - 1 else 0)
      ensures state == Apply(old(state), if alive then e else Crash)
    {
      alive := left > 0;
      var taken := if alive then e else Crash;
      Extend(first, history, taken);
      InvStep(state, taken);
      history := history + [taken];
      state := Apply(state, taken);
      left := if alive then left - 1 else 0;
    }

    /** Resume the unfinished campaign if there is one, start `env.id` otherwise; run
        until stopped; report, clear the checkpoint, announce the end. */
    method RunCampaign(duration: real, minimum: int, env: Env) returns (outcome: Outcome)
      requires Valid() && state.proc.Down? && Plausible(state, env)
      modifies this
      ensures Valid() && old(history) <= history && state.proc.Down?
      ensures outcome.Refused? <==> duration <= 0.0
      ensures outcome.Refused? ==> state == old(state)
      ensures outcome.Finished? ==>
                var before := ActiveCampaign(old(state));
                && outcome.report.id == (if before.Some? then before.value.id else env.id)
                && Finishes(state.log, outcome.report.id) == 1 && state.checkpoint.None?
                && Reports(state, outcome.report, if before.Some? then before.value.minimum else minimum, env.hostQuarantined)
      // if the process dies, what the next one will find
      ensures outcome.Died? ==>
                var was := old(state).checkpoint;
                var started := Campaign(env.id, env.now + duration, EventCounts(old(state).log), minimum);
                if (was.Some? && old(state).clock < was.value.deadline) || env.lifetime < 3
                then state.checkpoint == was || state.checkpoint == None
                else state.checkpoint == Some(started) || state.checkpoint == None
      ensures duration > 0.0 && env.lifetime >= |env.during| + 8 ==> outcome.Finished?
    {
      if duration <= 0.0 { return Refused; }
      var alive := Resume(duration, minimum, env);
      if !alive { return Died; }
      alive := Loop(env);
      if !alive { return Died; }
      outcome := Close(env.hostQuarantined);
    }

    /** Up to the scheduler loop: the checkpoint decides, and a new campaign is saved in it. */
    method Resume(duration: real, minimum: int, env: Env) returns (alive: bool)
      requires Valid() && state.proc.Down? && Plausible(state, env) && duration > 0.0
      modifies this
      ensures Valid() && old(history) <= history && state.clock == old(state).clock
      ensures if alive then state.proc.Active? && state.checkpoint == Some(state.proc.c) else state.proc.Down?
      ensures env.lifetime >= 3 ==> alive && left >= env.lifetime - 3
      ensures var was := old(state).checkpoint;
              var started := Campaign(env.id, env.now + duration, EventCounts(old(state).log), minimum);
              if was.Some? && old(state).clock < was.value.deadline then state.checkpoint == was
              else state.checkpoint == (if alive then Some(started) else was) && (alive ==> env.lifetime >= 3)
    {
      left := env.lifetime;
      alive := Do(Begin(env.now, duration, minimum, env.id));
      if !alive { return; }
      if state.proc.Fresh? {
        assert state.proc == Fresh(env.id, env.now + duration, minimum) && state.log == old(state).log;
        alive := Do(Baseline);
        if !alive { return; }
        assert state.proc == Based(Campaign(env.id, env.now + duration, EventCounts(old(state).log), minimum));
        alive := Do(Save);
      }
    }

    /** The scheduler loop, seen from the event log. */
    method Loop(env: Env) returns (alive: bool)
      requires Valid() && state.proc.Active? && state.clock <= env.stopped && CampaignFinished !in env.during
      modifies this
      ensures Valid() && old(history) <= history
      ensures if alive then state.proc == old(state).proc else state.proc.Down?
      ensures state.checkpoint == old(state).checkpoint
      ensures old(left) >= |env.during| + 2 ==> alive && left >= old(left) - |env.during| - 2
    {
      alive := Do(Append(OtherKind(0)));
      if !alive { return; }
      var i := 0;
      while i < |env.during| && state.proc.c.deadline > env.now
        invariant Valid() && old(history) <= history && 0 <= i <= |env.during|
        invariant alive && state.proc == old(state).proc && state.clock == old(state).clock
        invariant state.checkpoint == old(state).checkpoint
        invariant left == old(left) - 1 - i
      {
        alive := Do(Append(env.during[i]));
        if !alive { return; }
        i := i + 1;
      }
      alive := Do(Advance(env.stopped));
    }

    method Close(hostQuarantined: bool) returns (outcome: Outcome)
      requires Valid() && state.proc.Active?
      modifies this
      ensures Valid() && old(history) <= history && state.proc.Down? && !outcome.Refused?
      ensures outcome.Finished? ==>
                && outcome.report.id == old(state).proc.c.id
                && Finishes(state.log, outcome.report.id) == 1 && state.checkpoint.None?
                && Reports(state, outcome.report, old(state).proc.c.minimum, hostQuarantined)
      ensures state.checkpoint.None? || state.checkpoint == old(state).checkpoint
      ensures old(left) >= 3 ==> outcome.Finished?
    {
      ghost var s0 := state;
      var alive := Do(Observe(hostQuarantined));
      if !alive { return Died; }
      var report := state.proc.report;
      alive := Do(Clear);
      if !alive { return Died; }
      alive := Do(Announce);
      if !alive { return Died; }
      Closing(s0, hostQuarantined);
      return Finished(report);
    }
  }

  /** The report counts the log from the baseline to just before its own finish event. */
  ghost predicate Reports(s: State, r: Report, minimum: int, hostQuarantined: bool) {
    && r.id in s.origin && s.origin[r.id] < |s.log| && s.log[|s.log| - 1] == FinishEvent(r.id)
    && r == CountedReport(r.id, minimum, s.log[s.origin[r.id]..|s.log| - 1], hostQuarantined)
  }

  /** The same field by field. */
  lemma ReportInFull(s: State, r: Report, minimum: int, hostQuarantined: bool)
    requires Reports(s, r, minimum, hostQuarantined)
    ensures var since := s.log[s.origin[r.id]..|s.log| - 1];
            && r.chaosKills == Count(since, ChaosProcessKilled)
            && r.successfulTicks == Count(since, TickFinished) && r.failedTicks == Count(since, TickFailed)
            && r.reconciledOperations == Count(since, OperationReconciled)
            && r.duplicateOperations == Count(since, OperationDuplicateDetected)
            && r.expiredLeases == Count(since, LeaseExpired) && r.recoveredRuns == Count(since, RunRecovered)
            && r.policyViolations == Count(since, PolicyViolation) && r.issuesCompleted == Count(since, IssueCompleted)
            && r.pullRequestsMerged == Count(since, PrMerged) && r.selfDiscoveries == Count(since, SelfDiscoveryCreated)
            && r.humanInterventions == Count(since, FailureUnquarantined)
            && (r.passed <==> r.successfulTicks >= minimum && !hostQuarantined)
  {
  }

  /** Report, clear, announce: the three steps in a row. */
  lemma Closing(s: State, hostQuarantined: bool)
    requires Inv(s) && s.proc.Active?
    ensures var observed := Apply(s, Observe(hostQuarantined));
            var closed := Apply(Apply(observed, Clear), Announce);
            && observed.proc.Reported? && Finishes(closed.log, s.proc.c.id) == 1
            && Reports(closed, observed.proc.report, s.proc.c.minimum, hostQuarantined)
  {
    var c := s.proc.c;
    ReportSpansTheCampaign(s, hostQuarantined);
    FinishedOnceMore(s.log, c.id);
    var closed := Apply(Apply(Apply(s, Observe(hostQuarantined)), Clear), Announce);
    assert closed.log == s.log + [FinishEvent(c.id)];
    assert closed.log[s.origin[c.id]..|closed.log| - 1] == s.log[s.origin[c.id]..];
  }

  lemma {:induction false} FinishedOnceMore(log: Log, id: Id)
    requires Finishes(log, id) == 0
    ensures FinishEvent(id) !in log && Finishes(AppendOnce(log, FinishEvent(id)), id) == 1
  {
    if log != [] {
      FinishedOnceMore(log[..|log| - 1], id);
    }
    FinishesSnoc(log, FinishEvent(id), id);
  }
}
