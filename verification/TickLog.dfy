/**
  What a tick leaves behind: its events, its ending, and the status of its runs; and
  what that means for the event log of any sequence of ticks.
 */
module TickLog {
  import opened Prelude
  import opened TickRules
  import DiffScanner
  import Runs

  datatype Ids = Ids(tick: TickId, run: RunId, review: RunId)

  datatype Kind =
    | TickStarted | ModelUsage | CoordinatorCompleted | SecretScan | QualityGate(name: nat) | IndependentReview
    | TickFinished | BudgetExhausted | SafetyPaused | DependencyWait | PolicyViolated | TickFailed | LeaseReleased

  datatype Event = Event(kind: Kind, tick: TickId, run: RunId, passed: bool)
  type Log = seq<Event>

  /** The unique operation key of an event. */
  datatype Key = TickKey(kind: Kind, tick: TickId) | UsageKey(run: RunId)

  function KeyOf(e: Event): Key { if e.kind.ModelUsage? then UsageKey(e.run) else TickKey(e.kind, e.tick) }

  predicate HasKey(log: Log, k: Key) { exists e :: e in log && KeyOf(e) == k }

  /** `append_event`: INSERT OR IGNORE. */
  function AppendOnce(log: Log, e: Event): Log { if HasKey(log, KeyOf(e)) then log else log + [e] }

  function AppendAll(log: Log, trace: seq<Event>): Log {
    if trace == [] then log else AppendOnce(AppendAll(log, trace[..|trace| - 1]), trace[|trace| - 1])
  }

  lemma AppendAllOne(log: Log, trace: seq<Event>, e: Event)
    ensures AppendAll(log, trace + [e]) == AppendOnce(AppendAll(log, trace), e)
  {
    assert (trace + [e])[..|trace|] == trace;
  }

  lemma AppendAllSingle(log: Log, e: Event)
    ensures AppendAll(log, [e]) == AppendOnce(log, e)
  {
    AppendAllOne(log, [], e);
    assert [] + [e] == [e];
  }

  lemma {:induction false} AppendAllPlus(log: Log, a: seq<Event>, b: seq<Event>)
    ensures AppendAll(log, a + b) == AppendAll(AppendAll(log, a), b)
  {
    if b == [] {
      assert a + b == a;
    } else {
      var shorter := b[..|b| - 1];
      AppendAllPlus(log, a, shorter);
      assert a + b == (a + shorter) + [b[|b| - 1]];
      AppendAllOne(log, a + shorter, b[|b| - 1]);
    }
  }

  // ---------- the events of one tick ----------

  function CoordinateTrace(env: Env, ids: Ids): seq<Event> {
    (if env.coordinator.Ok? then [Event(ModelUsage, ids.tick, ids.run, true)] else [])
    + (if CoordinateFault(env).None? then [Event(CoordinatorCompleted, ids.tick, ids.run, true)] else [])
  }

  /** A gate that raises instead of answering leaves no event. */
  function GateTrace(c: Config, env: Env, ids: Ids, i: nat): seq<Event>
    requires i < |c.gates|
  {
    if env.gate(i).Raise? then []
    else [Event(QualityGate(c.gates[i]), ids.tick, ids.run, env.gate(i).value.Passed?)]
  }

  /** The gates among the first `n` are run up to the first fault. */
  function GatesTrace(c: Config, env: Env, ids: Ids, n: nat): seq<Event>
    requires n <= |c.gates|
  {
    if n == 0 then []
    else GatesTrace(c, env, ids, n - 1) + if GatesFault(env, n - 1).None? then GateTrace(c, env, ids, n - 1) else []
  }

  function VerifyTrace(c: Config, env: Env, ids: Ids): seq<Event> {
    if !Mutation(env) || env.diff.Raise? then []
    else [Event(SecretScan, ids.tick, ids.run, Findings(c, env) == [])]
         + if Findings(c, env) == [] then GatesTrace(c, env, ids, |c.gates|) else []
  }

  function InReviewTrace(c: Config, env: Env, ids: Ids): seq<Event> {
    (if env.reviewer.Ok? then [Event(ModelUsage, ids.tick, ids.review, true)] else [])
    + (if InReviewFault(env).None? then [Event(IndependentReview, ids.tick, ids.review, Favourable(c, env))] else [])
  }

  predicate ReviewStarts(c: Config, env: Env) { ReviewDue(c, env) && env.output.value.requiresReview }

  /** Whether the tick gets as far as starting the reviewer. */
  predicate ReviewerRuns(c: Config, env: Env, recovery: Option<Checkpoint>) {
    PrepareFault(env, recovery).None? && CoordinateFault(env).None? && VerifyFault(c, env).None? && ReviewStarts(c, env)
  }

  function ReviewTrace(c: Config, env: Env, ids: Ids): seq<Event> {
    if ReviewStarts(c, env) then InReviewTrace(c, env, ids) else []
  }

  function VerifyReviewTrace(c: Config, env: Env, ids: Ids): seq<Event> {
    if VerifyFault(c, env).Some? then VerifyTrace(c, env, ids)
    else VerifyTrace(c, env, ids) + ReviewTrace(c, env, ids)
  }

  /** What the `try` block appends before it ends. */
  function BodyTrace(c: Config, env: Env, recovery: Option<Checkpoint>, ids: Ids): seq<Event> {
    if PrepareFault(env, recovery).Some? then []
    else if CoordinateFault(env).Some? then CoordinateTrace(env, ids)
    else CoordinateTrace(env, ids) + VerifyReviewTrace(c, env, ids)
  }

  // ---------- how a tick ends ----------

  datatype Ending = Finished | Paused | OutOfBudget | Waiting | Failed | Escaped

  predicate IsTransient(c: Config, x: Exc) { !x.kind.QwenUnavailable? && c.isTransient(x.message) }

  /** The ladders of handlers; saving the worktree evidence may itself raise. */
  function Handling(c: Config, env: Env, x: Exc, started: bool): Ending {
    if !IsHandled(x) || (started && env.worktree.Escapes?) then Escaped
    else if x.kind.BudgetExceeded? then OutOfBudget
    else if IsPause(x) then Paused
    else if IsTransient(c, x) then Waiting
    else Failed
  }

  function EndingOf(c: Config, env: Env, recovery: Option<Checkpoint>): Ending {
    var fault := Fault(c, env, recovery);
    if fault.None? then Finished else Handling(c, env, fault.value, PrepareFault(env, recovery).None?)
  }

  function ClosingKind(e: Ending): Option<Kind> {
    match e
    case Finished => Some(TickFinished)
    case Paused => Some(SafetyPaused)
    case OutOfBudget => Some(BudgetExhausted)
    case Waiting => Some(DependencyWait)
    case Failed => Some(TickFailed)
    case Escaped => None
  }

  /** A policy violation that is neither a pause nor transient is recorded as such. */
  function ViolationTrace(c: Config, x: Exc, ids: Ids): seq<Event> {
    if x.kind.PolicyViolation? && !IsTransient(c, x) then [Event(PolicyViolated, ids.tick, ids.run, false)] else []
  }

  function ClosingTrace(e: Ending, ids: Ids): seq<Event> {
    if ClosingKind(e).Some? then [Event(ClosingKind(e).value, ids.tick, ids.run, e.Finished?)] else []
  }

  function EndTrace(c: Config, env: Env, recovery: Option<Checkpoint>, ids: Ids): seq<Event> {
    var fault := Fault(c, env, recovery);
    if fault.None? then ClosingTrace(Finished, ids)
    else ViolationTrace(c, fault.value, ids) + ClosingTrace(EndingOf(c, env, recovery), ids)
  }

  function TickTrace(c: Config, env: Env, recovery: Option<Checkpoint>, ids: Ids, released: bool): seq<Event> {
    [Event(TickStarted, ids.tick, ids.run, true)] + BodyTrace(c, env, recovery, ids) + EndTrace(c, env, recovery, ids)
    + [Event(LeaseReleased, ids.tick, ids.run, released)]
  }

  /** How each class of exception ends a tick, and the event that says so. */
  lemma EndingByClass(c: Config, env: Env, recovery: Option<Checkpoint>, ids: Ids)
    ensures var fault := Fault(c, env, recovery);
            var lost := PrepareFault(env, recovery).None? && env.worktree.Escapes?;
            EndingOf(c, env, recovery) ==
              if fault.None? then Finished
              else if fault.value.kind == Unlisted || lost then Escaped
              else if fault.value.kind == SafetyPause then Paused
              else if fault.value.kind == BudgetExceeded then OutOfBudget
              else if fault.value.kind == QwenUnavailable then Failed
              else if c.isTransient(fault.value.message) then Waiting
              else Failed
    ensures var trace := EndTrace(c, env, recovery, ids);
            var last := if trace == [] then None else Some(trace[|trace| - 1]);
            match EndingOf(c, env, recovery)
            case Finished => trace == [Event(TickFinished, ids.tick, ids.run, true)]
            case Paused => trace == [Event(SafetyPaused, ids.tick, ids.run, false)]
            case OutOfBudget => trace == [Event(BudgetExhausted, ids.tick, ids.run, false)]
            case Waiting => trace == [Event(DependencyWait, ids.tick, ids.run, false)]
            case Failed => last == Some(Event(TickFailed, ids.tick, ids.run, false))
            case Escaped => last == None || last == Some(Event(PolicyViolated, ids.tick, ids.run, false))
  {
    var fault := Fault(c, env, recovery);
    if fault.Some? {
      var violation, closing := ViolationTrace(c, fault.value, ids), ClosingTrace(EndingOf(c, env, recovery), ids);
      assert violation == [] ==> violation + closing == closing;
    }
  }

  // ---------- exactly one closing event ----------

  predicate Closes(k: Kind) {
    k.TickFinished? || k.BudgetExhausted? || k.SafetyPaused? || k.DependencyWait? || k.TickFailed?
  }

  predicate ClosesTick(e: Event, tick: TickId) { Closes(e.kind) && e.tick == tick }

  function Closings(log: Log, tick: TickId): nat {
    if log == [] then 0
    else Closings(log[..|log| - 1], tick) + if ClosesTick(log[|log| - 1], tick) then 1 else 0
  }

  lemma ClosingsOne(log: Log, e: Event, tick: TickId)
    ensures Closings(AppendOnce(log, e), tick)
         == Closings(log, tick) + if ClosesTick(e, tick) && !HasKey(log, KeyOf(e)) then 1 else 0
  {
    assert (log + [e])[..|log|] == log;
  }

  lemma {:induction false} NoClosingNoEvent(log: Log, tick: TickId, e: Event)
    requires Closings(log, tick) == 0 && e in log
    ensures !ClosesTick(e, tick)
  {
    if e != log[|log| - 1] {
      NoClosingNoEvent(log[..|log| - 1], tick, e);
    }
  }

  /** Events of one tick that do not close it. */
  predicate Quiet(trace: seq<Event>, tick: TickId) { forall e :: e in trace ==> !Closes(e.kind) && e.tick == tick }

  /** Quiet events among which no policy violation is recorded. */
  predicate Routine(trace: seq<Event>, tick: TickId) {
    Quiet(trace, tick) && forall e :: e in trace ==> !e.kind.PolicyViolated?
  }

  lemma RoutinePlus(a: seq<Event>, b: seq<Event>, tick: TickId)
    requires Routine(a, tick) && Routine(b, tick)
    ensures Routine(a + b, tick)
  {
  }

  lemma {:induction false} QuietAppend(log: Log, trace: seq<Event>, own: TickId, tick: TickId)
    requires Quiet(trace, own)
    ensures Closings(AppendAll(log, trace), tick) == Closings(log, tick)
  {
    if trace != [] {
      var shorter := trace[..|trace| - 1];
      assert forall e :: e in shorter ==> e in trace;
      QuietAppend(log, shorter, own, tick);
      ClosingsOne(AppendAll(log, shorter), trace[|trace| - 1], tick);
    }
  }

  lemma {:induction false} GatesTraceIsRoutine(c: Config, env: Env, ids: Ids, n: nat)
    requires n <= |c.gates|
    ensures Routine(GatesTrace(c, env, ids, n), ids.tick)
  {
    if n > 0 {
      GatesTraceIsRoutine(c, env, ids, n - 1);
    }
  }

  lemma CoordinateTraceIsRoutine(env: Env, ids: Ids)
    ensures Routine(CoordinateTrace(env, ids), ids.tick)
  {
  }

  lemma VerifyTraceIsRoutine(c: Config, env: Env, ids: Ids)
    ensures Routine(VerifyTrace(c, env, ids), ids.tick)
  {
    GatesTraceIsRoutine(c, env, ids, |c.gates|);
  }

  lemma ReviewTraceIsRoutine(c: Config, env: Env, ids: Ids)
    ensures Routine(ReviewTrace(c, env, ids), ids.tick)
  {
  }

  lemma BodyTraceIsRoutine(c: Config, env: Env, recovery: Option<Checkpoint>, ids: Ids)
    ensures Routine(BodyTrace(c, env, recovery, ids), ids.tick)
  {
    CoordinateTraceIsRoutine(env, ids);
    VerifyTraceIsRoutine(c, env, ids);
    ReviewTraceIsRoutine(c, env, ids);
    RoutinePlus(VerifyTrace(c, env, ids), ReviewTrace(c, env, ids), ids.tick);
    RoutinePlus(CoordinateTrace(env, ids), VerifyReviewTrace(c, env, ids), ids.tick);
  }

  // ---------- what the events of a tick say is so ----------

  lemma {:induction false} GateEventsAreHonest(c: Config, env: Env, ids: Ids, n: nat, e: Event) returns (i: nat)
    requires n <= |c.gates| && e in GatesTrace(c, env, ids, n)
    ensures i < n && e.kind == QualityGate(c.gates[i])
    ensures env.gate(i).Ok? && (e.passed <==> env.gate(i) == Ok(Passed))
  {
    if e in GatesTrace(c, env, ids, n - 1) {
      i := GateEventsAreHonest(c, env, ids, n - 1, e);
    } else {
      i := n - 1;
    }
  }

  lemma PartOfBody(c: Config, env: Env, recovery: Option<Checkpoint>, ids: Ids, e: Event)
    requires e in BodyTrace(c, env, recovery, ids)
    ensures e in CoordinateTrace(env, ids) || e in VerifyTrace(c, env, ids) || e in ReviewTrace(c, env, ids)
  {
  }

  lemma VerifyEventsAreHonest(c: Config, env: Env, ids: Ids, e: Event)
    requires e in VerifyTrace(c, env, ids)
    ensures e.kind.SecretScan? || e.kind.QualityGate?
    ensures e.kind.SecretScan? ==> env.diff.Ok? && (e.passed <==> DiffScanner.ScanText(c.matcher, env.diff.value) == [])
    ensures e.kind.QualityGate? ==> e in GatesTrace(c, env, ids, |c.gates|)
  {
    if e in GatesTrace(c, env, ids, |c.gates|) {
      var i := GateEventsAreHonest(c, env, ids, |c.gates|, e);
    }
  }

  lemma ReviewEventsAreHonest(c: Config, env: Env, ids: Ids, e: Event)
    requires e in ReviewTrace(c, env, ids)
    ensures e.kind.ModelUsage? || e.kind.IndependentReview?
    ensures e.kind.IndependentReview? ==>
              && env.review.Ok? && env.review.value.findings.Some? && e.run == ids.review
              && (e.passed <==> env.review.value.verdictIsPass
                                && multiset(env.review.value.findings.value)[Critical] <= c.maximumCritical)
  {
    if env.review.Ok? && env.review.value.findings.Some? {
      CriticalCountIsMultiplicity(env.review.value.findings.value);
    }
  }

  /** An event that reports a scan, a gate or a review says what was found. */
  lemma EventsAreHonest(c: Config, env: Env, recovery: Option<Checkpoint>, ids: Ids, e: Event)
    requires e in BodyTrace(c, env, recovery, ids)
    ensures e.kind.SecretScan? ==> env.diff.Ok? && (e.passed <==> DiffScanner.ScanText(c.matcher, env.diff.value) == [])
    ensures e.kind.QualityGate? ==>
              exists i :: 0 <= i < |c.gates| && e.kind.name == c.gates[i] && env.gate(i).Ok? && (e.passed <==> env.gate(i) == Ok(Passed))
    ensures e.kind.IndependentReview? ==>
              && env.review.Ok? && env.review.value.findings.Some? && e.run == ids.review
              && (e.passed <==> env.review.value.verdictIsPass
                                && multiset(env.review.value.findings.value)[Critical] <= c.maximumCritical)
  {
    PartOfBody(c, env, recovery, ids, e);
    if e in VerifyTrace(c, env, ids) {
      VerifyEventsAreHonest(c, env, ids, e);
      if e.kind.QualityGate? {
        var i := GateEventsAreHonest(c, env, ids, |c.gates|, e);
      }
    } else if e in ReviewTrace(c, env, ids) {
      ReviewEventsAreHonest(c, env, ids, e);
    }
  }

  // ---------- any sequence of turns ----------

  /** One tick as it is found in the log: what precedes its closing event, its ending,
      and whether the lease was still its own when it was released. */
  datatype Turn = Turn(ids: Ids, before: seq<Event>, ending: Ending, released: bool)

  function TraceOf(t: Turn): seq<Event> {
    t.before + ClosingTrace(t.ending, t.ids) + [Event(LeaseReleased, t.ids.tick, t.ids.run, t.released)]
  }

  function Before(c: Config, env: Env, recovery: Option<Checkpoint>, ids: Ids): seq<Event> {
    var fault := Fault(c, env, recovery);
    [Event(TickStarted, ids.tick, ids.run, true)] + BodyTrace(c, env, recovery, ids)
    + (if fault.Some? then ViolationTrace(c, fault.value, ids) else [])
  }

  function TurnOf(c: Config, env: Env, recovery: Option<Checkpoint>, ids: Ids, released: bool): Turn {
    Turn(ids, Before(c, env, recovery, ids), EndingOf(c, env, recovery), released)
  }

  /** The turn of a tick is its trace; before its closing event it closes nothing. */
  lemma TurnIsTrace(c: Config, env: Env, recovery: Option<Checkpoint>, ids: Ids, released: bool)
    ensures TraceOf(TurnOf(c, env, recovery, ids, released)) == TickTrace(c, env, recovery, ids, released)
    ensures Quiet(Before(c, env, recovery, ids), ids.tick)
  {
    BodyTraceIsRoutine(c, env, recovery, ids);
    var fault := Fault(c, env, recovery);
    Regroup([Event(TickStarted, ids.tick, ids.run, true)] + BodyTrace(c, env, recovery, ids),
            if fault.Some? then ViolationTrace(c, fault.value, ids) else [],
            ClosingTrace(EndingOf(c, env, recovery), ids), [Event(LeaseReleased, ids.tick, ids.run, released)]);
  }

  lemma Regroup(a: seq<Event>, b: seq<Event>, c: seq<Event>, d: seq<Event>)
    ensures a + (b + c) + d == a + b + c + d
  {
  }

  /** One turn adds exactly one closing event of its own unless an exception escaped,
      and none to any other tick. */
  lemma TurnClosesOnce(log: Log, t: Turn, tick: TickId)
    requires Quiet(t.before, t.ids.tick) && Closings(log, t.ids.tick) == 0
    ensures Closings(AppendAll(log, TraceOf(t)), tick)
         == Closings(log, tick) + if tick == t.ids.tick && !t.ending.Escaped? then 1 else 0
  {
    var closing := ClosingTrace(t.ending, t.ids);
    var last := Event(LeaseReleased, t.ids.tick, t.ids.run, t.released);
    QuietAppend(log, t.before, t.ids.tick, tick);
    QuietAppend(log, t.before, t.ids.tick, t.ids.tick);
    AppendAllPlus(log, t.before, closing);
    ClosingAppend(AppendAll(log, t.before), t.ending, t.ids, tick);
    AppendAllOne(log, t.before + closing, last);
    ClosingsOne(AppendAll(log, t.before + closing), last, tick);
  }

  lemma ClosingAppend(log: Log, ending: Ending, ids: Ids, tick: TickId)
    requires Closings(log, ids.tick) == 0
    ensures Closings(AppendAll(log, ClosingTrace(ending, ids)), tick)
         == Closings(log, tick) + if tick == ids.tick && !ending.Escaped? then 1 else 0
  {
    if !ending.Escaped? {
      var e := Event(ClosingKind(ending).value, ids.tick, ids.run, ending.Finished?);
      forall x | x in log
        ensures KeyOf(x) != KeyOf(e)
      {
        NoClosingNoEvent(log, ids.tick, x);
      }
      AppendAllSingle(log, e);
      ClosingsOne(log, e, tick);
    }
  }

  function LogAfter(turns: seq<Turn>): Log {
    if turns == [] then [] else AppendAll(LogAfter(turns[..|turns| - 1]), TraceOf(turns[|turns| - 1]))
  }

  /** Distinct ticks, whose events before the closing one close nothing. */
  predicate WellFormed(turns: seq<Turn>) {
    && (forall i, j :: 0 <= i < j < |turns| ==> turns[i].ids.tick != turns[j].ids.tick)
    && (forall i :: 0 <= i < |turns| ==> Quiet(turns[i].before, turns[i].ids.tick))
  }

  lemma {:induction false} UnknownTickHasNoClosing(turns: seq<Turn>, tick: TickId)
    requires WellFormed(turns) && forall i :: 0 <= i < |turns| ==> turns[i].ids.tick != tick
    ensures Closings(LogAfter(turns), tick) == 0
    decreases |turns|
  {
    if turns != [] {
      var last, shorter := turns[|turns| - 1], turns[..|turns| - 1];
      UnknownTickHasNoClosing(shorter, tick);
      UnknownTickHasNoClosing(shorter, last.ids.tick);
      TurnClosesOnce(LogAfter(shorter), last, tick);
    }
  }

  lemma {:induction false} EveryTurnClosesOnce(turns: seq<Turn>, i: nat)
    requires WellFormed(turns) && i < |turns|
    ensures Closings(LogAfter(turns), turns[i].ids.tick) == if turns[i].ending.Escaped? then 0 else 1
  {
    var last, shorter := turns[|turns| - 1], turns[..|turns| - 1];
    UnknownTickHasNoClosing(shorter, last.ids.tick);
    if i < |turns| - 1 {
      EveryTurnClosesOnce(shorter, i);
    }
    TurnClosesOnce(LogAfter(shorter), last, turns[i].ids.tick);
  }

  lemma {:induction false} AppendAllFrom(log: Log, trace: seq<Event>, e: Event)
    requires e in AppendAll(log, trace)
    ensures e in log || e in trace
  {
    if trace != [] && e in AppendAll(log, trace[..|trace| - 1]) {
      AppendAllFrom(log, trace[..|trace| - 1], e);
    }
  }

  lemma {:induction false} FinishEventMeansFinished(turns: seq<Turn>, e: Event) returns (i: nat)
    requires WellFormed(turns) && e in LogAfter(turns) && e.kind.TickFinished?
    ensures i < |turns| && turns[i].ids.tick == e.tick && turns[i].ending.Finished?
  {
    var last, shorter := turns[|turns| - 1], turns[..|turns| - 1];
    if e in LogAfter(shorter) {
      i := FinishEventMeansFinished(shorter, e);
    } else {
      AppendAllFrom(LogAfter(shorter), TraceOf(last), e);
      FinishInTrace(last, e);
      i := |turns| - 1;
    }
  }

  lemma FinishInTrace(t: Turn, e: Event)
    requires Quiet(t.before, t.ids.tick) && e in TraceOf(t) && e.kind.TickFinished?
    ensures t.ids.tick == e.tick && t.ending.Finished?
  {
  }

  /** A tick leaves exactly one closing event, unless an exception escapes it. */
  lemma TickClosesOnce(c: Config, env: Env, recovery: Option<Checkpoint>, ids: Ids, released: bool, log: Log)
    requires Closings(log, ids.tick) == 0
    ensures Closings(AppendAll(log, TickTrace(c, env, recovery, ids, released)), ids.tick)
         == if EndingOf(c, env, recovery).Escaped? then 0 else 1
  {
    TurnIsTrace(c, env, recovery, ids, released);
    TurnClosesOnce(log, TurnOf(c, env, recovery, ids, released), ids.tick);
  }

  // ---------- the same for ticks as they run ----------

  /** One tick: its ids, what it met, the checkpoint it found, and whether the lease was
      still its own when it was released. */
  datatype Tick = Tick(ids: Ids, env: Env, recovery: Option<Checkpoint>, released: bool)

  /** The event log after the ticks, one after the other. */
  function History(c: Config, ticks: seq<Tick>): Log {
    if ticks == [] then []
    else
      var t := ticks[|ticks| - 1];
      AppendAll(History(c, ticks[..|ticks| - 1]), TickTrace(c, t.env, t.recovery, t.ids, t.released))
  }

  predicate Distinct(ticks: seq<Tick>) {
    forall i, j :: 0 <= i < j < |ticks| ==> ticks[i].ids.tick != ticks[j].ids.tick
  }

  function TurnOfTick(c: Config, t: Tick): Turn { TurnOf(c, t.env, t.recovery, t.ids, t.released) }

  function Turns(c: Config, ticks: seq<Tick>): seq<Turn> {
    seq(|ticks|, i requires 0 <= i < |ticks| => TurnOfTick(c, ticks[i]))
  }

  lemma TurnOfTickIsQuiet(c: Config, t: Tick)
    ensures TraceOf(TurnOfTick(c, t)) == TickTrace(c, t.env, t.recovery, t.ids, t.released)
    ensures Quiet(TurnOfTick(c, t).before, t.ids.tick) && TurnOfTick(c, t).ids == t.ids
  {
    TurnIsTrace(c, t.env, t.recovery, t.ids, t.released);
  }

  lemma {:induction false} HistoryIsLog(c: Config, ticks: seq<Tick>)
    ensures History(c, ticks) == LogAfter(Turns(c, ticks))
  {
    if ticks != [] {
      var front, last := ticks[..|ticks| - 1], ticks[|ticks| - 1];
      HistoryIsLog(c, front);
      TurnOfTickIsQuiet(c, last);
      assert Turns(c, ticks)[..|ticks| - 1] == Turns(c, front);
    }
  }

  lemma TurnsAreWellFormed(c: Config, ticks: seq<Tick>)
    requires Distinct(ticks)
    ensures WellFormed(Turns(c, ticks))
  {
    forall i | 0 <= i < |ticks|
      ensures Quiet(Turns(c, ticks)[i].before, ticks[i].ids.tick) && Turns(c, ticks)[i].ids == ticks[i].ids
    {
      TurnOfTickIsQuiet(c, ticks[i]);
    }
  }

  /** Over any sequence of ticks, every tick has exactly one closing event in the log, or
      none if an exception escaped it. */
  lemma EveryTickClosesOnce(c: Config, ticks: seq<Tick>, i: nat)
    requires Distinct(ticks) && i < |ticks|
    ensures Closings(History(c, ticks), ticks[i].ids.tick) == ExpectedClosings(c, ticks[i])
  {
    HistoryIsLog(c, ticks);
    TurnsAreWellFormed(c, ticks);
    TurnOfTickIsQuiet(c, ticks[i]);
    EveryTurnClosesOnce(Turns(c, ticks), i);
  }

  function ExpectedClosings(c: Config, t: Tick): nat { if EndingOf(c, t.env, t.recovery).Escaped? then 0 else 1 }

  predicate FullyGatedTick(c: Config, t: Tick) {
    Launchable(t.env, t.recovery) && Delivered(t.env) && FullyGated(c, t.env)
  }

  lemma FinishedTurn(c: Config, t: Tick)
    ensures TurnOfTick(c, t).ending.Finished? <==> FullyGatedTick(c, t)
    ensures TurnOfTick(c, t).ending.Escaped? <==> ExpectedClosings(c, t) == 0
  {
    FinishedIffFullyGated(c, t.env, t.recovery);
  }

  /** Every `tick_finished` ever logged, over any sequence of ticks, is the only closing
      event of a tick that was fully gated. */
  lemma FinishedTicksWereFullyGated(c: Config, ticks: seq<Tick>, e: Event) returns (i: nat)
    requires Distinct(ticks)
    ensures e in History(c, ticks) && e.kind.TickFinished? ==>
              && i < |ticks| && ticks[i].ids.tick == e.tick && FullyGatedTick(c, ticks[i])
              && Closings(History(c, ticks), e.tick) == 1
  {
    i := 0;
    HistoryIsLog(c, ticks);
    if e in History(c, ticks) && e.kind.TickFinished? {
      TurnsAreWellFormed(c, ticks);
      i := FinishEventMeansFinished(Turns(c, ticks), e);
      TurnOfTickIsQuiet(c, ticks[i]);
      FinishedTurn(c, ticks[i]);
      EveryTurnClosesOnce(Turns(c, ticks), i);
    }
  }

  // ---------- the runs of one tick ----------

  predicate Live(s: Runs.Status) { s.Starting? || s.Running? }

  function StatusAfter(s: Runs.Status, i: Interference): Runs.Status {
    match i
    case Launched(_, _) => if s.Starting? then Runs.Running else s
    case Abandon(_) => Runs.Abandoned
    case _ => s
  }

  /** The status of a started run after what happened while its model ran. */
  function ActiveStatus(m: Meanwhile): Runs.Status {
    if m == [] then Runs.Starting else StatusAfter(ActiveStatus(m[..|m| - 1]), m[|m| - 1])
  }

  predicate WasAbandoned(m: Meanwhile) { exists i :: i in m && i.Abandon? }

  lemma {:induction false} ActiveUnlessAbandoned(m: Meanwhile)
    ensures ActiveStatus(m).Abandoned? || Live(ActiveStatus(m))
    ensures Live(ActiveStatus(m)) <==> !WasAbandoned(m)
  {
    if m != [] {
      ActiveUnlessAbandoned(m[..|m| - 1]);
      assert m == m[..|m| - 1] + [m[|m| - 1]];
    }
  }

  function StatusOfExit(a: Attempt<Result>): Runs.Status {
    if a.Ok? && a.value.exitCode == 0 then Runs.Succeeded else Runs.Failed
  }

  /** After the model call and its charge. */
  function ChargedStatus(model: Attempt<Result>, charge: Attempt<()>, m: Meanwhile): Runs.Status {
    if model.Ok? && charge.Ok? then StatusOfExit(model) else ActiveStatus(m)
  }

  function FailLive(s: Runs.Status): Runs.Status { if Live(s) then Runs.Failed else s }

  function CoordinatorStatus(c: Config, env: Env, recovery: Option<Checkpoint>): Runs.Status {
    var s := ChargedStatus(env.coordinator, env.charge, env.during);
    var fault := Fault(c, env, recovery);
    if fault.Some? && IsHandled(fault.value) then FailLive(s) else s
  }

  predicate ReviewCaught(env: Env) {
    if env.reviewer.Raise? then IsCaughtInReview(env.reviewer.exc)
    else env.reviewCharge.Raise? && IsPause(env.reviewCharge.exc)
  }

  function ReviewerStatus(env: Env): Runs.Status {
    var s := ChargedStatus(env.reviewer, env.reviewCharge, env.duringReview);
    if ReviewCaught(env) then FailLive(s) else s
  }

  predicate RaisesUnhandled(model: Attempt<Result>, charge: Attempt<()>) {
    if model.Raise? then !IsHandled(model.exc) else charge.Raise? && !IsHandled(charge.exc)
  }

  /** A started coordinator run is left active exactly when the model call, or charging
      it, raised what no ladder catches (and no recovery abandoned the run meanwhile). */
  lemma CoordinatorLeftActiveIff(c: Config, env: Env, recovery: Option<Checkpoint>)
    requires PrepareFault(env, recovery).None?
    ensures Live(CoordinatorStatus(c, env, recovery))
       <==> !WasAbandoned(env.during) && RaisesUnhandled(env.coordinator, env.charge)
  {
    ActiveUnlessAbandoned(env.during);
  }

  predicate RaisesUncaught(env: Env) {
    if env.reviewer.Raise? then env.reviewer.exc.kind in {ValueError, SubprocessError, Unlisted}
    else env.reviewCharge.Raise? && env.reviewCharge.exc.kind !in {SafetyPause, BudgetExceeded}
  }

  /** A started reviewer run is left active exactly when launching it raised a
      ValueError, a SubprocessError or something unlisted, or charging it raised
      anything but a safety pause; the tick itself may still close normally. */
  lemma ReviewerLeftActiveIff(env: Env)
    ensures Live(ReviewerStatus(env)) <==> !WasAbandoned(env.duringReview) && RaisesUncaught(env)
  {
    ActiveUnlessAbandoned(env.duringReview);
  }

  /** In particular a ValueError or a SubprocessError at the reviewer launch: the tick closes
      as a wait or a failure, and its reviewer run stays active. */
  lemma ClosedTickLeavesReviewerActive(c: Config, env: Env, recovery: Option<Checkpoint>)
    requires ReviewerRuns(c, env, recovery) && env.reviewer.Raise? && env.reviewer.exc.kind in {ValueError, SubprocessError}
    requires !WasAbandoned(env.duringReview) && !env.worktree.Escapes?
    ensures Live(ReviewerStatus(env))
    ensures EndingOf(c, env, recovery) == if IsTransient(c, env.reviewer.exc) then Waiting else Failed
  {
    ReviewerLeftActiveIff(env);
  }

  /** A review whose findings cannot be iterated over ends the tick without any closing
      event, however well everything else went. */
  lemma NotIterableFindingsEscape(c: Config, env: Env, recovery: Option<Checkpoint>, ids: Ids, released: bool, log: Log)
    requires ReviewerRuns(c, env, recovery) && Succeeded(env.reviewer) && env.reviewCharge.Ok?
    requires !IsEmpty(env.reviewer.value.session) && env.reviewer.value.session != SessionOf(env.coordinator)
    requires env.review.Ok? && env.review.value.findings.None? && Closings(log, ids.tick) == 0
    ensures Fault(c, env, recovery) == Some(Exc(Unlisted, Fixed(FindingsNotIterable)))
    ensures EndingOf(c, env, recovery).Escaped?
    ensures Closings(AppendAll(log, TickTrace(c, env, recovery, ids, released)), ids.tick) == 0
  {
    TickClosesOnce(c, env, recovery, ids, released, log);
  }

  lemma {:induction false} KeyAfter(log: Log, trace: seq<Event>, k: Key)
    ensures HasKey(AppendAll(log, trace), k) <==> HasKey(log, k) || HasKey(trace, k)
  {
    if trace != [] {
      var shorter, e := trace[..|trace| - 1], trace[|trace| - 1];
      KeyAfter(log, shorter, k);
      assert HasKey(trace, k) <==> HasKey(shorter, k) || KeyOf(e) == k by {
        assert trace == shorter + [e];
      }
      AppendHasKey(AppendAll(log, shorter), e, k);
    }
  }

  lemma AppendHasKey(log: Log, e: Event, k: Key)
    ensures HasKey(AppendOnce(log, e), k) <==> HasKey(log, k) || KeyOf(e) == k
  {
    if !HasKey(log, KeyOf(e)) {
      assert forall x :: x in log + [e] <==> x in log || x == e;
    }
  }

  /** The faults recorded as policy violations. */
  predicate RecordsViolation(c: Config, fault: Option<Exc>) {
    fault.Some? && fault.value.kind.PolicyViolation? && !IsTransient(c, fault.value)
  }

  lemma HasKeyPlus(a: seq<Event>, b: seq<Event>, k: Key)
    ensures HasKey(a + b, k) <==> HasKey(a, k) || HasKey(b, k)
  {
    assert forall e :: e in a + b <==> e in a || e in b;
  }

  /** A tick's own trace records a violation exactly for those faults. */
  lemma ViolationInTrace(c: Config, env: Env, recovery: Option<Checkpoint>, ids: Ids, released: bool)
    ensures HasKey(TickTrace(c, env, recovery, ids, released), TickKey(PolicyViolated, ids.tick))
       <==> RecordsViolation(c, Fault(c, env, recovery))
  {
    var k := TickKey(PolicyViolated, ids.tick);
    var start, last := [Event(TickStarted, ids.tick, ids.run, true)], [Event(LeaseReleased, ids.tick, ids.run, released)];
    var body, end := BodyTrace(c, env, recovery, ids), EndTrace(c, env, recovery, ids);
    BodyTraceIsRoutine(c, env, recovery, ids);
    HasKeyPlus(start, body, k);
    HasKeyPlus(start + body, end, k);
    HasKeyPlus(start + body + end, last, k);
    EndRecordsViolation(c, env, recovery, ids);
    assert !HasKey(start, k) && !HasKey(body, k) && !HasKey(last, k);
  }

  lemma EndRecordsViolation(c: Config, env: Env, recovery: Option<Checkpoint>, ids: Ids)
    ensures HasKey(EndTrace(c, env, recovery, ids), TickKey(PolicyViolated, ids.tick))
       <==> RecordsViolation(c, Fault(c, env, recovery))
  {
    var fault, k := Fault(c, env, recovery), TickKey(PolicyViolated, ids.tick);
    var closing := ClosingTrace(EndingOf(c, env, recovery), ids);
    assert !HasKey(closing, k);
    if fault.Some? {
      HasKeyPlus(ViolationTrace(c, fault.value, ids), closing, k);
      if RecordsViolation(c, fault) {
        assert Event(PolicyViolated, ids.tick, ids.run, false) in ViolationTrace(c, fault.value, ids);
      }
    }
  }

  /** So a violation is in the log after the tick exactly for those faults. */
  lemma ViolationInLog(c: Config, env: Env, recovery: Option<Checkpoint>, ids: Ids, released: bool, log: Log)
    requires !HasKey(log, TickKey(PolicyViolated, ids.tick))
    ensures HasKey(AppendAll(log, TickTrace(c, env, recovery, ids, released)), TickKey(PolicyViolated, ids.tick))
       <==> RecordsViolation(c, Fault(c, env, recovery))
    ensures HasKey(AppendAll(log, TickTrace(c, env, recovery, ids, released)), TickKey(PolicyViolated, ids.tick))
       <==> var x := Fault(c, env, recovery);
            x.Some? && x.value.kind == PolicyViolation && !c.isTransient(x.value.message)
  {
    ViolationInTrace(c, env, recovery, ids, released);
    KeyAfter(log, TickTrace(c, env, recovery, ids, released), TickKey(PolicyViolated, ids.tick));
  }

  /** A protected path whose name reads like a transient dependency error turns a
      governance violation into a wait: no violation is recorded and no failure counted. */
  lemma ProtectedPathMayReadAsTransient(c: Config, env: Env, recovery: Option<Checkpoint>, text: Text, ids: Ids)
    requires Fault(c, env, recovery) == Some(Exc(PolicyViolation, Given(text)))
    requires PrepareFault(env, recovery).Some? || !env.worktree.Escapes?
    ensures var e := EndingOf(c, env, recovery);
            if c.isTransient(Given(text)) then e.Waiting? && EndTrace(c, env, recovery, ids) == [Event(DependencyWait, ids.tick, ids.run, false)]
            else e.Failed? && Event(PolicyViolated, ids.tick, ids.run, false) in EndTrace(c, env, recovery, ids)
  {
  }
}
