/**
  The budget gate, over whole runs of serialized ticks.

  A tick asserts the budgets before the coordinator is launched and again after each
  recorded call; the windows slide with the clock; a completion event may pull a
  call back into a window it had left.  The reviewer is launched without a gate of
  its own.
 */
module Budgets {
  import opened Prelude
  import opened UsageEvents
  import opened UsageAccounting
  import opened Stamps

  const HOUR := 3_600_000_000
  const DAY := 24 * HOUR

  datatype Limit = Limit(tokens: int, cost: Option<real>)
  datatype Config = Config(tick: Limit, hour: Limit, day: Limit, issue: Limit, inputRate: real, outputRate: real)

  predicate ValidLimit(l: Limit) { l.tokens > 0 && (l.cost.Some? ==> l.cost.value > 0.0) }

  predicate ValidConfig(c: Config) {
    && ValidLimit(c.tick) && ValidLimit(c.hour) && ValidLimit(c.day) && ValidLimit(c.issue)
    && c.inputRate >= 0.0 && c.outputRate >= 0.0
  }

  function CostOf(c: Config, input: int, output: int): real {
    (input as real * c.inputRate + output as real * c.outputRate) / 1_000_000.0
  }

  function Cost(c: Config, t: Tally): real { CostOf(c, t.input, t.output) }

  predicate Below(c: Config, t: Tally, l: Limit) {
    Tokens(t) < l.tokens && (l.cost.Some? ==> Cost(c, t) < l.cost.value)
  }

  /** Past the limit by less than one call. */
  predicate Within(c: Config, t: Tally, l: Limit, call: Tally) {
    && Tokens(t) <= l.tokens - 1 + Tokens(call)
    && (l.cost.Some? ==> Cost(c, t) < l.cost.value + Cost(c, call))
  }

  datatype Scope = HourScope | DayScope | TickScope | IssueScope

  function UsageIn(scope: Scope, log: Log, now: int, tick: nat, issue: Option<int>): Tally {
    match scope
    case HourScope => UsageOf(log, Some(Cut(now - HOUR)), None, None)
    case DayScope => UsageOf(log, Some(Cut(now - DAY)), None, None)
    case TickScope => UsageOf(log, None, Some(Some(tick)), None)
    case IssueScope => UsageOf(log, None, None, issue)
  }

  function LimitOf(c: Config, scope: Scope): Limit {
    match scope
    case HourScope => c.hour
    case DayScope => c.day
    case TickScope => c.tick
    case IssueScope => c.issue
  }

  predicate ScopeBelow(c: Config, scope: Scope, log: Log, now: int, tick: nat, issue: Option<int>) {
    Below(c, UsageIn(scope, log, now, tick, issue), LimitOf(c, scope))
  }

  predicate GatePasses(c: Config, log: Log, now: int, tick: nat, issue: Option<int>) {
    && ScopeBelow(c, HourScope, log, now, tick, issue)
    && ScopeBelow(c, DayScope, log, now, tick, issue)
    && ScopeBelow(c, TickScope, log, now, tick, issue)
    && (issue.Some? ==> ScopeBelow(c, IssueScope, log, now, tick, issue))
  }

  predicate UsageBelow(c: Config, u: Tally, l: Limit) {
    u.total < l.tokens && (l.cost.Some? ==> Cost(c, u) < l.cost.value)
  }

  /** The scopes of `_budget_usage`, in the order of its dictionary. */
  function ScopesFor(issue: Option<int>): seq<Scope> {
    [HourScope, DayScope, TickScope] + if issue.Some? then [IssueScope] else []
  }

  method BudgetUsage(events: seq<Event>, now: int, tick: nat, issue: Option<int>) returns (usage: seq<Tally>)
    ensures |usage| == |ScopesFor(issue)|
    ensures forall j :: 0 <= j < |usage| ==> usage[j] == UsageIn(ScopesFor(issue)[j], LogOf(events), now, tick, issue)
    ensures var log := LogOf(events);
            usage == [UsageOf(log, Some(Cut(now - 3_600_000_000)), None, None),
                      UsageOf(log, Some(Cut(now - 86_400_000_000)), None, None),
                      UsageOf(log, None, Some(Some(tick)), None)]
                     + if issue.Some? then [UsageOf(log, None, None, issue)] else []
  {
    var hour := UsageTotals(events, Some(Cut(now - HOUR)), None, None);
    var day := UsageTotals(events, Some(Cut(now - DAY)), None, None);
    var perTick := UsageTotals(events, None, Some(Some(tick)), None);
    usage := [hour, day, perTick];
    if issue.Some? {
      var perIssue := UsageTotals(events, None, None, issue);
      usage := usage + [perIssue];
    }
  }

  /** `_assert_budgets`: the scopes in order; the first exhausted one is reported. */
  method AssertBudgets(c: Config, events: seq<Event>, now: int, tick: nat, issue: Option<int>)
    returns (exhausted: Option<Scope>)
    ensures exhausted.None? <==> GatePasses(c, LogOf(events), now, tick, issue)
    ensures exhausted.Some? ==> !ScopeBelow(c, exhausted.value, LogOf(events), now, tick, issue)
    ensures var log := LogOf(events);
            var hour := Below(c, UsageOf(log, Some(Cut(now - 3_600_000_000)), None, None), c.hour);
            var day := Below(c, UsageOf(log, Some(Cut(now - 86_400_000_000)), None, None), c.day);
            var own := Below(c, UsageOf(log, None, Some(Some(tick)), None), c.tick);
            var about := issue.Some? ==> Below(c, UsageOf(log, None, None, issue), c.issue);
            && (exhausted.None? <==> hour && day && own && about)
            && (exhausted == Some(HourScope) <==> !hour)
            && (exhausted == Some(DayScope) <==> hour && !day)
            && (exhausted == Some(TickScope) <==> hour && day && !own)
  {
    var usage := BudgetUsage(events, now, tick, issue);
    var scopes := ScopesFor(issue);
    ghost var log := LogOf(events);
    ScopesInFull(c, log, now, tick, issue);
    for i := 0 to |scopes|
      invariant i > 0 ==> ScopeBelow(c, HourScope, log, now, tick, issue)
      invariant i > 1 ==> ScopeBelow(c, DayScope, log, now, tick, issue)
      invariant i > 2 ==> ScopeBelow(c, TickScope, log, now, tick, issue)
      invariant i > 3 ==> ScopeBelow(c, IssueScope, log, now, tick, issue)
    {
      var limit := LimitOf(c, scopes[i]);
      ReportedIsBelow(c, scopes[i], log, now, tick, issue);
      if usage[i].total >= limit.tokens {
        return Some(scopes[i]);
      }
      if limit.cost.Some? && Cost(c, usage[i]) >= limit.cost.value {
        return Some(scopes[i]);
      }
    }
    return None;
  }

  /** Which window, which issue and which limit a scope stands for. */
  lemma ScopesInFull(c: Config, log: Log, now: int, tick: nat, issue: Option<int>)
    ensures ScopeBelow(c, HourScope, log, now, tick, issue)
       <==> Below(c, UsageOf(log, Some(Cut(now - 3_600_000_000)), None, None), c.hour)
    ensures ScopeBelow(c, DayScope, log, now, tick, issue)
       <==> Below(c, UsageOf(log, Some(Cut(now - 86_400_000_000)), None, None), c.day)
    ensures ScopeBelow(c, TickScope, log, now, tick, issue) <==> Below(c, UsageOf(log, None, Some(Some(tick)), None), c.tick)
    ensures ScopeBelow(c, IssueScope, log, now, tick, issue) <==> Below(c, UsageOf(log, None, None, issue), c.issue)
  {
  }

  lemma ReportedIsBelow(c: Config, scope: Scope, log: Log, now: int, tick: nat, issue: Option<int>)
    ensures var u := UsageIn(scope, log, now, tick, issue);
            ScopeBelow(c, scope, log, now, tick, issue) <==> UsageBelow(c, u, LimitOf(c, scope))
  {
  }

  /** Below its limit: the reported total is below the token limit, and the tokens at the
      configured prices per million cost less than the cost limit. */
  lemma BelowMeans(c: Config, log: Log, since: Option<int>, tick: Option<Tick>, issue: Option<int>, l: Limit)
    ensures var u := UsageOf(log, since, tick, issue);
            var cost := (u.input as real * c.inputRate + u.output as real * c.outputRate) / 1_000_000.0;
            Below(c, u, l) <==> u.total < l.tokens && (l.cost.Some? ==> cost < l.cost.value)
    ensures var u := UsageOf(log, since, tick, issue); u.input + u.output <= u.total
  {
  }

  // ---------- tokens and cost as measures of a tally ----------

  lemma TokensSubadditive(a: Tally, b: Tally)
    ensures Tokens(Plus(a, b)) <= Tokens(a) + Tokens(b)
  {
  }

  lemma CostAdditive(c: Config, a: Tally, b: Tally)
    ensures Cost(c, Plus(a, b)) == Cost(c, a) + Cost(c, b)
  {
    assert (a.input + b.input) as real * c.inputRate == a.input as real * c.inputRate + b.input as real * c.inputRate;
    assert (a.output + b.output) as real * c.outputRate == a.output as real * c.outputRate + b.output as real * c.outputRate;
  }

  lemma Scaled(x: int, y: int, rate: real)
    requires x <= y && rate >= 0.0
    ensures x as real * rate <= y as real * rate
  {
  }

  lemma CostMonotone(c: Config, a: Tally, b: Tally)
    requires ValidConfig(c) && AtMost(a, b)
    ensures Cost(c, a) <= Cost(c, b)
  {
    Scaled(a.input, b.input, c.inputRate);
    Scaled(a.output, b.output, c.outputRate);
  }

  lemma SmallerStaysBelow(c: Config, a: Tally, b: Tally, l: Limit, call: Tally)
    requires ValidConfig(c) && AtMost(a, b)
    ensures Below(c, b, l) ==> Below(c, a, l)
    ensures Within(c, b, l, call) ==> Within(c, a, l, call)
  {
    CostMonotone(c, a, b);
  }

  lemma BelowIsWithin(c: Config, t: Tally, l: Limit, call: Tally)
    requires ValidConfig(c) && Below(c, t, l) && NonNegative(call)
    ensures Within(c, t, l, call)
  {
    CostMonotone(c, ZERO, call);
    assert Cost(c, ZERO) == 0.0;
  }

  lemma OneCallOver(c: Config, t: Tally, l: Limit, call: Tally)
    requires Below(c, t, l)
    ensures Within(c, Plus(t, call), l, call)
  {
    TokensSubadditive(t, call);
    CostAdditive(c, t, call);
  }

  // ---------- the run of serialized ticks ----------

  datatype Phase =
    | Idle
    | Gated
    | CoordinatorRunning
    | CoordinatorCharged
    | CoordinatorChecked
    | CoordinatorDone
    | ReviewerRunning
    | ReviewerCharged
    | ReviewerChecked

  /** `last` is the call recorded last, at `chargedAt`, for the issue `charged`; `checked` is
      the issue of the last check that passed, `reported` that of the last completion. */
  datatype State = State(log: Log, now: int, phase: Phase, tick: nat, issue: Option<int>, used: set<nat>,
                         last: Tally, chargedAt: int, charged: Option<int>, checked: Option<int>, reported: Option<int>)

  datatype Step =
    | Advance(to: int)
    | Gate(tick: nat, issue: Option<int>)
    | Launch
    | Charge(issue: Option<int>, tokens: Tally)
    | Check(issue: Option<int>)
    | Complete(issue: Option<int>)
    | Abort

  function CurrentRole(p: Phase): Role {
    if p in {ReviewerRunning, ReviewerCharged, ReviewerChecked} then Reviewer else Coordinator
  }

  function CurrentKey(s: State): CallKey { CallKey(Some(s.tick), CurrentRole(s.phase)) }

  function IssueJson(issue: Option<int>): Json { if issue.Some? then Num(issue.value) else Null }

  function UsageEvent(s: State, issue: Option<int>, usage: Json): Event {
    Event(Millis(s.now), ModelUsage, Some(s.tick),
          Payload(Some(Str(if CurrentRole(s.phase).Reviewer? then "reviewer" else "coordinator")),
                  IssueJson(issue), Null, usage))
  }

  function UsageEntry(s: State, issue: Option<int>, tokens: Tally): Entry {
    Entry(Millis(s.now), ModelUsage, Some(s.tick), true, CurrentRole(s.phase), IssueJson(issue), Plus(ONE_CALL, tokens))
  }

  /** The completion entry repeats the usage of the call recorded last. */
  function CompletionEntry(s: State, issue: Option<int>): Entry {
    Entry(Millis(s.now), if CurrentRole(s.phase).Reviewer? then IndependentReview else CoordinatorCompleted,
          Some(s.tick), true, CurrentRole(s.phase), IssueJson(issue), s.last)
  }

  function CompletionEvent(s: State, issue: Option<int>, usage: Json): Event {
    Event(Millis(s.now), if CurrentRole(s.phase).Reviewer? then IndependentReview else CoordinatorCompleted,
          Some(s.tick), Payload(None, Null, IssueJson(issue), usage))
  }

  /** Read back, the record of a call is its entry, charged with the tokens found in its
      usage payload. */
  lemma RecordReadsBack(s: State, issue: Option<int>, usage: Json)
    ensures Read(UsageEvent(s, issue, usage)) == UsageEntry(s, issue, TokensIn(usage))
  {
    var e := UsageEvent(s, issue, usage);
    assert RoleOf(e) == CurrentRole(s.phase);
    assert EventIssue(e.payload) == IssueJson(issue);
    assert e.payload.usage == usage;
  }

  /** So is a completion event that repeats the usage of the call recorded last. */
  lemma CompletionReadsBack(s: State, issue: Option<int>, usage: Json)
    ensures Read(CompletionEvent(s, issue, usage)) == CompletionEntry(s.(last := Plus(ONE_CALL, TokensIn(usage))), issue)
  {
    var e := CompletionEvent(s, issue, usage);
    assert RoleOf(e) == CurrentRole(s.phase);
    assert EventIssue(e.payload) == IssueJson(issue);
    assert e.payload.usage == usage;
  }

  function Start(now: int): State { State(Empty, now, Idle, 0, None, {}, ZERO, now, None, None, None) }

  predicate Legal(c: Config, s: State, e: Step) {
    match e
    case Advance(to) => s.now <= to
    case Gate(tick, _) => s.phase.Idle? && tick !in s.used
    case Launch => s.phase.Gated? || s.phase.CoordinatorDone?
    case Charge(_, tokens) => (s.phase.CoordinatorRunning? || s.phase.ReviewerRunning?) && NonNegative(tokens)
    // the record and the assertion after it are made for the same issue
    case Check(issue) => (s.phase.CoordinatorCharged? || s.phase.ReviewerCharged?) && issue == s.charged
    case Complete(_) => s.phase.CoordinatorChecked? || s.phase.ReviewerChecked?
    case Abort => true
  }

  function Apply(c: Config, s: State, e: Step): State {
    match e
    case Advance(to) => s.(now := to)
    case Gate(tick, issue) =>
      var t := s.(tick := tick, issue := issue, used := s.used + {tick});
      t.(phase := if GatePasses(c, s.log, s.now, tick, issue) then Gated else Idle)
    case Launch => s.(phase := if s.phase.Gated? then CoordinatorRunning else ReviewerRunning)
    case Charge(issue, tokens) =>
      var entry := UsageEntry(s, issue, tokens);
      s.(log := Append(s.log, entry), last := entry.charge, chargedAt := s.now, charged := issue,
         phase := if s.phase.CoordinatorRunning? then CoordinatorCharged else ReviewerCharged)
    case Check(issue) =>
      s.(checked := issue,
         phase := if !GatePasses(c, s.log, s.now, s.tick, issue) then Idle
                  else if s.phase.CoordinatorCharged? then CoordinatorChecked else ReviewerChecked)
    case Complete(issue) =>
      s.(log := Append(s.log, CompletionEntry(s, issue)), reported := issue,
         phase := if s.phase.CoordinatorChecked? then CoordinatorDone else Idle)
    case Abort => s.(phase := Idle)
  }

  predicate LegalRun(c: Config, s: State, steps: seq<Step>)
    decreases |steps|
  {
    steps == [] || (Legal(c, s, steps[0]) && LegalRun(c, Apply(c, s, steps[0]), steps[1..]))
  }

  function Run(c: Config, s: State, steps: seq<Step>): State
    decreases |steps|
  {
    if steps == [] then s else Run(c, Apply(c, s, steps[0]), steps[1..])
  }

  // ---------- the invariant ----------

  predicate Sliding(scope: Scope) { !scope.IssueScope? }

  function SinceOf(scope: Scope, now: int): Option<int> {
    match scope
    case HourScope => Some(Cut(now - HOUR))
    case DayScope => Some(Cut(now - DAY))
    case _ => None
  }

  function TickOf(scope: Scope, tick: nat): Option<Tick> { if scope.TickScope? then Some(Some(tick)) else None }

  function Live(scope: Scope, s: State): set<CallKey> {
    LiveAmong(s.log, SinceOf(scope, s.now), TickOf(scope, s.tick), None, {})
  }

  /** The call whose completion event is still to come: it may re-enter any window. */
  function Pending(s: State): set<CallKey> {
    if s.phase in {CoordinatorCharged, CoordinatorChecked, ReviewerCharged, ReviewerChecked} then {CurrentKey(s)} else {}
  }

  function Exposure(scope: Scope, s: State): Tally { CallSum(s.log, Live(scope, s) + Pending(s)) }

  predicate Cleared(p: Phase) {
    p in {Gated, CoordinatorRunning, CoordinatorChecked, CoordinatorDone, ReviewerRunning}
  }

  predicate Mentions(k: CallKey, used: set<nat>) { k.tick.Some? && k.tick.value in used }

  predicate Bookkeeping(s: State) {
    && WellFormed(s.log) && ChargesNonNegative(s.log) && NonNegative(s.last)
    && (forall k :: k in Keys(s.log) ==> Mentions(k, s.used))
    && (!s.phase.Idle? ==> s.tick in s.used)
    && (s.phase in {Gated, CoordinatorRunning} ==> CallKey(Some(s.tick), Coordinator) !in Keys(s.log))
    && (s.phase !in {Idle, ReviewerCharged, ReviewerChecked} ==> CallKey(Some(s.tick), Reviewer) !in Keys(s.log))
    && (Pending(s) != {} ==> CallCharge(s.log, CurrentKey(s)) == Some(s.last) && CurrentKey(s) !in Completed(s.log))
  }

  predicate BoundsHold(c: Config, scope: Scope, s: State) {
    && Within(c, Exposure(scope, s), LimitOf(c, scope), s.last)
    && (Cleared(s.phase) ==> Below(c, Exposure(scope, s), LimitOf(c, scope)))
  }

  /** What the gate reads in a window is the plain sum of the live calls. */
  lemma ScopeIsLiveSum(c: Config, scope: Scope, s: State)
    requires WellFormed(s.log) && Sliding(scope)
    ensures UsageIn(scope, s.log, s.now, s.tick, s.issue) == Report(CallSum(s.log, Live(scope, s)))
    ensures ScopeBelow(c, scope, s.log, s.now, s.tick, s.issue) <==> Below(c, CallSum(s.log, Live(scope, s)), LimitOf(c, scope))
  {
    var since, tick := SinceOf(scope, s.now), TickOf(scope, s.tick);
    DeduplicatedAccounting(s.log, since, tick, None);
    LiveIgnoresTicks(s.log, since, tick, {}, NamingTicks(s.log, since, tick, None));
  }

  /** A window that exposes no more calls keeps its bounds. */
  lemma LessExposure(c: Config, scope: Scope, s: State, t: State)
    requires ValidConfig(c) && ChargesNonNegative(s.log) && BoundsHold(c, scope, s)
    requires t.log == s.log && t.last == s.last && (Cleared(t.phase) ==> Cleared(s.phase))
    requires Live(scope, t) + Pending(t) <= Live(scope, s) + Pending(s)
    ensures BoundsHold(c, scope, t)
  {
    CallSumMonotone(s.log, Live(scope, t) + Pending(t), Live(scope, s) + Pending(s));
    SmallerStaysBelow(c, Exposure(scope, t), Exposure(scope, s), LimitOf(c, scope), s.last);
  }

  // ---------- stamps ----------

  lemma MillisMonotone(a: int, b: int)
    requires a <= b
    ensures Millis(a) <= Millis(b)
  {
    assert a / 1000 <= b / 1000;
    assert Millis(a) == 1000 * (a / 1000) && Millis(b) == 1000 * (b / 1000);
  }

  predicate Ordered(log: Log) {
    log.Append? ==> Ordered(log.front) && (log.front.Append? ==> log.front.last.at <= log.last.at)
  }

  /** The newest event is not younger than the clock. */
  predicate Stamped(s: State) { Ordered(s.log) && (s.log.Append? ==> s.log.last.at <= Millis(s.now)) }

  /** A window that begins after the newest event holds nothing. */
  lemma {:induction false} NothingLive(log: Log, since: int, tick: Option<Tick>, ticks: set<Tick>)
    requires Ordered(log) && (log.Append? ==> log.last.at < since)
    ensures LiveAmong(log, Some(since), tick, None, ticks) == {}
  {
    if log.Append? {
      NothingLive(log.front, since, tick, ticks);
    }
  }

  /** The newest charge event of the current call is its record. */
  predicate RecordedAt(s: State) {
    s.phase in {CoordinatorCharged, ReviewerCharged}
    ==> s.log.Append? && KeyOf(s.log.last) == CurrentKey(s) && IsCharge(s.log.last) && s.log.last.at == Millis(s.chargedAt)
  }

  predicate Books(s: State) { Bookkeeping(s) && Stamped(s) && RecordedAt(s) }

  lemma RecordKeepsBounds(c: Config, scope: Scope, s: State, t: State, e: Entry)
    requires ValidConfig(c) && Sliding(scope) && BoundsHold(c, scope, s)
    requires Cleared(s.phase) && Pending(s) == {} && !Cleared(t.phase) && Pending(t) == {KeyOf(e)}
    requires t.log == Append(s.log, e) && t.now == s.now && t.tick == s.tick && t.last == e.charge
    requires IsCall(e) && KeyOf(e) !in Keys(s.log)
    ensures BoundsHold(c, scope, t)
  {
    var live := Live(scope, s);
    assert live + Pending(s) == live;
    assert Live(scope, t) + Pending(t) == live + {KeyOf(e)};
    UnknownKeyChangesNothing(s.log, live, KeyOf(e));
    assert Exposure(scope, t) == Plus(Exposure(scope, s), e.charge);
    OneCallOver(c, Exposure(scope, s), LimitOf(c, scope), e.charge);
  }

  lemma RecordKeepsBooks(s: State, e: Entry, at: int)
    requires Bookkeeping(s) && (s.phase.CoordinatorRunning? || s.phase.ReviewerRunning?)
    requires IsCall(e) && KeyOf(e) == CurrentKey(s) && NonNegative(e.charge)
    ensures var next := if s.phase.CoordinatorRunning? then CoordinatorCharged else ReviewerCharged;
            Bookkeeping(s.(log := Append(s.log, e), last := e.charge, chargedAt := at, phase := next))
    ensures KeyOf(e) !in Keys(s.log)
  {
    FreshKeyIsNotCompleted(s.log, CurrentKey(s));
  }

  lemma ChargeKeepsBooks(c: Config, s: State, issue: Option<int>, tokens: Tally)
    requires Bookkeeping(s) && Legal(c, s, Charge(issue, tokens))
    ensures Bookkeeping(Apply(c, s, Charge(issue, tokens)))
    ensures KeyOf(UsageEntry(s, issue, tokens)) !in Keys(s.log)
  {
    var e := UsageEntry(s, issue, tokens);
    assert NonNegative(e.charge) by { OneMoreCall(tokens); }
    assert IsCall(e) && KeyOf(e) == CurrentKey(s);
    RecordKeepsBooks(s, e, s.now);
  }

  lemma OneMoreCall(t: Tally)
    requires NonNegative(t)
    ensures NonNegative(Plus(ONE_CALL, t))
  {
  }

  lemma {:induction false} FreshKeyIsNotCompleted(log: Log, k: CallKey)
    requires k !in Keys(log)
    ensures k !in Completed(log)
  {
    if log.Append? {
      FreshKeyIsNotCompleted(log.front, k);
    }
  }

  lemma {:induction false} KnownByCharge(log: Log, k: CallKey)
    requires CallCharge(log, k).Some?
    ensures k in Keys(log)
  {
    if !(IsCall(log.last) && KeyOf(log.last) == k) {
      KnownByCharge(log.front, k);
    }
  }

  lemma BooksStep(c: Config, s: State, e: Step)
    requires Bookkeeping(s) && Legal(c, s, e)
    ensures Bookkeeping(Apply(c, s, e))
  {
    match e
    case Charge(issue, tokens) => ChargeKeepsBooks(c, s, issue, tokens);
    case Complete(_) => KnownByCharge(s.log, CurrentKey(s));
    case _ =>
  }

  lemma StampsStep(c: Config, s: State, e: Step)
    requires Books(s) && Legal(c, s, e)
    ensures Books(Apply(c, s, e))
  {
    BooksStep(c, s, e);
    if e.Advance? {
      MillisMonotone(s.now, e.to);
    }
  }

  // ---------- one window, one step ----------

  /** A window's bounds; a tick's own bounds hold from its first gate to its end. */
  predicate Bounded(c: Config, scope: Scope, s: State) {
    (scope.TickScope? ==> !s.phase.Idle?) ==> BoundsHold(c, scope, s)
  }

  lemma AdvanceKeeps(c: Config, scope: Scope, s: State, to: int)
    requires ValidConfig(c) && Bookkeeping(s) && Sliding(scope) && BoundsHold(c, scope, s) && s.now <= to
    ensures BoundsHold(c, scope, Apply(c, s, Advance(to)))
  {
    if !scope.TickScope? {
      LiveShrinks(s.log, SinceOf(scope, s.now).value, SinceOf(scope, to).value, None, {});
    }
    LessExposure(c, scope, s, Apply(c, s, Advance(to)));
  }

  lemma GateKeeps(c: Config, scope: Scope, s: State, tick: nat, issue: Option<int>)
    requires ValidConfig(c) && Bookkeeping(s) && Sliding(scope) && Bounded(c, scope, s) && Legal(c, s, Gate(tick, issue))
    ensures Bounded(c, scope, Apply(c, s, Gate(tick, issue)))
  {
    var t := Apply(c, s, Gate(tick, issue));
    assert Live(scope, t) + Pending(t) == Live(scope, t);
    if t.phase.Gated? {
      ScopeIsLiveSum(c, scope, t);
      BelowIsWithin(c, Exposure(scope, t), LimitOf(c, scope), t.last);
    } else if !scope.TickScope? {
      LessExposure(c, scope, s, t);
    }
  }

  lemma ChargeKeeps(c: Config, scope: Scope, s: State, issue: Option<int>, tokens: Tally)
    requires ValidConfig(c) && Bookkeeping(s) && Sliding(scope) && BoundsHold(c, scope, s)
    requires Legal(c, s, Charge(issue, tokens))
    ensures BoundsHold(c, scope, Apply(c, s, Charge(issue, tokens)))
  {
    ChargeKeepsBooks(c, s, issue, tokens);
    RecordKeepsBounds(c, scope, s, Apply(c, s, Charge(issue, tokens)), UsageEntry(s, issue, tokens));
  }

  lemma CompleteKeeps(c: Config, scope: Scope, s: State, issue: Option<int>)
    requires ValidConfig(c) && Bookkeeping(s) && Sliding(scope) && BoundsHold(c, scope, s) && Legal(c, s, Complete(issue))
    ensures Bounded(c, scope, Apply(c, s, Complete(issue)))
  {
    var t := Apply(c, s, Complete(issue));
    KnownByCharge(s.log, CurrentKey(s));
    assert Live(scope, t) + Pending(t) <= Live(scope, s) + Pending(s);
    CallSumMonotone(s.log, Live(scope, t) + Pending(t), Live(scope, s) + Pending(s));
    SmallerStaysBelow(c, Exposure(scope, t), Exposure(scope, s), LimitOf(c, scope), s.last);
  }

  /** The record of the current call is still in the window. */
  predicate StillInWindow(scope: Scope, s: State) {
    SinceOf(scope, s.now).Some? ==> SinceOf(scope, s.now).value <= Millis(s.chargedAt)
  }

  /** A check that sees the call it follows clears the window by itself. */
  lemma SeenCheckKeeps(c: Config, scope: Scope, s: State, issue: Option<int>)
    requires ValidConfig(c) && Books(s) && Sliding(scope) && BoundsHold(c, scope, s) && Legal(c, s, Check(issue))
    requires StillInWindow(scope, s)
    ensures Bounded(c, scope, Apply(c, s, Check(issue)))
  {
    var t := Apply(c, s, Check(issue));
    if t.phase.Idle? {
      LessExposure(c, scope, s, t);
    } else {
      var asked := s.(issue := issue);
      ScopeIsLiveSum(c, scope, asked);
      assert CurrentKey(s) in Live(scope, s);
      assert Live(scope, t) + Pending(t) == Live(scope, asked);
      BelowIsWithin(c, Exposure(scope, t), LimitOf(c, scope), t.last);
    }
  }

  // ---------- tick limits that cover a window ----------

  predicate CostBelow(cost: real, limit: Option<real>) { limit.Some? ==> cost < limit.value }

  /** Whatever stays below the tick limit stays below `l`. */
  predicate Covers(c: Config, l: Limit) {
    && c.tick.tokens <= l.tokens
    && forall i, o :: 0 <= i < c.tick.tokens && 0 <= o < c.tick.tokens ==> CostCovered(c, l, i, o)
  }

  predicate CostCovered(c: Config, l: Limit, input: int, output: int) {
    input + output < c.tick.tokens && CostBelow(CostOf(c, input, output), c.tick.cost) ==> CostBelow(CostOf(c, input, output), l.cost)
  }

  lemma CoveredBelow(c: Config, l: Limit, t: Tally)
    requires Covers(c, l) && NonNegative(t) && Below(c, t, c.tick)
    ensures Below(c, t, l)
  {
    assert CostCovered(c, l, t.input, t.output);
  }

  lemma UncoveredUsage(c: Config, l: Limit) returns (t: Tally)
    requires ValidConfig(c) && ValidLimit(l) && !Covers(c, l)
    ensures NonNegative(t) && Below(c, t, c.tick) && !Below(c, t, l)
  {
    if l.tokens < c.tick.tokens {
      t := Tally(0, 0, l.tokens, 0);
      assert Cost(c, t) == 0.0;
    } else {
      var i, o :| 0 <= i < c.tick.tokens && 0 <= o < c.tick.tokens && !CostCovered(c, l, i, o);
      t := Tally(i, o, 0, 0);
    }
  }

  /** In particular a tick limit that is not above the window's, in tokens and in cost. */
  lemma SmallerTickLimitCovers(c: Config, l: Limit)
    requires c.tick.tokens <= l.tokens
    requires l.cost.Some? ==> c.tick.cost.Some? && c.tick.cost.value <= l.cost.value
    ensures Covers(c, l)
  {
  }

  /** Without a cost limit on the window only the tokens matter. */
  lemma TokenLimitsDecide(c: Config, l: Limit)
    requires l.cost.None?
    ensures Covers(c, l) <==> c.tick.tokens <= l.tokens
  {
  }

  /** A check that no longer sees the call finds an empty window: what is exposed is the
      one pending call, and the tick limit bounds it. */
  lemma BlindCheckKeeps(c: Config, scope: Scope, s: State, issue: Option<int>)
    requires ValidConfig(c) && Books(s) && (scope.HourScope? || scope.DayScope?) && BoundsHold(c, scope, s)
    requires Legal(c, s, Check(issue)) && !StillInWindow(scope, s) && Covers(c, LimitOf(c, scope))
    ensures BoundsHold(c, scope, Apply(c, s, Check(issue)))
  {
    var t := Apply(c, s, Check(issue));
    if t.phase.Idle? {
      LessExposure(c, scope, s, t);
    } else {
      NothingLive(s.log, SinceOf(scope, s.now).value, None, {});
      var asked, mine := s.(issue := issue), {CurrentKey(s)};
      assert Live(scope, t) + Pending(t) == mine && mine <= Live(TickScope, asked);
      ScopeIsLiveSum(c, TickScope, asked);
      CallSumMonotone(s.log, mine, Live(TickScope, asked));
      SmallerStaysBelow(c, CallSum(s.log, mine), CallSum(s.log, Live(TickScope, asked)), c.tick, t.last);
      CoveredBelow(c, LimitOf(c, scope), CallSum(s.log, mine));
      BelowIsWithin(c, Exposure(scope, t), LimitOf(c, scope), t.last);
    }
  }

  /** Every step keeps the bounds of a window, but for a check that comes after the record
      has left a window the tick limit does not cover. */
  predicate Harmless(c: Config, scope: Scope, s: State, e: Step) {
    scope.TickScope? || Covers(c, LimitOf(c, scope)) || (e.Check? ==> StillInWindow(scope, s))
  }

  lemma ScopeStep(c: Config, scope: Scope, s: State, e: Step)
    requires ValidConfig(c) && Books(s) && Sliding(scope) && Bounded(c, scope, s)
    requires Legal(c, s, e) && Harmless(c, scope, s, e)
    ensures Bounded(c, scope, Apply(c, s, e))
  {
    match e
    case Advance(to) =>
      if BoundsHold(c, scope, s) { AdvanceKeeps(c, scope, s, to); }
    case Gate(tick, issue) => GateKeeps(c, scope, s, tick, issue);
    case Launch => LessExposure(c, scope, s, Apply(c, s, e));
    case Charge(issue, tokens) => ChargeKeeps(c, scope, s, issue, tokens);
    case Check(issue) =>
      if StillInWindow(scope, s) { SeenCheckKeeps(c, scope, s, issue); } else { BlindCheckKeeps(c, scope, s, issue); }
    case Complete(issue) => CompleteKeeps(c, scope, s, issue);
    case Abort =>
      if !scope.TickScope? { LessExposure(c, scope, s, Apply(c, s, e)); }
  }

  predicate HarmlessRun(c: Config, scope: Scope, s: State, steps: seq<Step>)
    decreases |steps|
  {
    steps == [] || (Harmless(c, scope, s, steps[0]) && HarmlessRun(c, scope, Apply(c, s, steps[0]), steps[1..]))
  }

  /** The checks of the run are prompt: each comes while the record is in the window. */
  predicate PromptRun(c: Config, scope: Scope, s: State, steps: seq<Step>)
    decreases |steps|
  {
    steps == [] || ((steps[0].Check? ==> StillInWindow(scope, s)) && PromptRun(c, scope, Apply(c, s, steps[0]), steps[1..]))
  }

  /** When a window is guarded: always for the tick's own total, and for the hour and the
      day if the tick limit covers them, or if the checks are prompt. */
  predicate Guarded(c: Config, scope: Scope, s: State, steps: seq<Step>) {
    scope.TickScope? || Covers(c, LimitOf(c, scope)) || PromptRun(c, scope, s, steps)
  }

  lemma {:induction false} GuardedIsHarmless(c: Config, scope: Scope, s: State, steps: seq<Step>)
    requires Guarded(c, scope, s, steps)
    ensures HarmlessRun(c, scope, s, steps)
    decreases |steps|
  {
    if steps != [] {
      GuardedIsHarmless(c, scope, Apply(c, s, steps[0]), steps[1..]);
    }
  }

  lemma {:induction false} InvRun(c: Config, scope: Scope, s: State, steps: seq<Step>)
    requires ValidConfig(c) && Books(s) && Sliding(scope) && Bounded(c, scope, s)
    requires LegalRun(c, s, steps) && HarmlessRun(c, scope, s, steps)
    ensures Books(Run(c, s, steps)) && Bounded(c, scope, Run(c, s, steps))
    decreases |steps|
  {
    if steps != [] {
      ScopeStep(c, scope, s, steps[0]);
      StampsStep(c, s, steps[0]);
      InvRun(c, scope, Apply(c, s, steps[0]), steps[1..]);
    }
  }

  lemma RunFromStart(c: Config, scope: Scope, now: int, steps: seq<Step>)
    requires ValidConfig(c) && Sliding(scope) && LegalRun(c, Start(now), steps) && Guarded(c, scope, Start(now), steps)
    ensures Books(Run(c, Start(now), steps)) && Bounded(c, scope, Run(c, Start(now), steps))
  {
    assert Cost(c, ZERO) == 0.0;
    GuardedIsHarmless(c, scope, Start(now), steps);
    InvRun(c, scope, Start(now), steps);
  }

  // ---------- main results ----------

  /** When the coordinator is launched, all four totals are below their limits. */
  lemma CoordinatorLaunchIsWithinBudget(c: Config, now: int, steps: seq<Step>)
    requires ValidConfig(c) && LegalRun(c, Start(now), steps)
    requires Run(c, Start(now), steps).phase.Gated?
    ensures var s := Run(c, Start(now), steps); GatePasses(c, s.log, s.now, s.tick, s.issue)
    ensures var s := Run(c, Start(now), steps);
            && Below(c, UsageOf(s.log, Some(Cut(s.now - 3_600_000_000)), None, None), c.hour)
            && Below(c, UsageOf(s.log, Some(Cut(s.now - 86_400_000_000)), None, None), c.day)
            && Below(c, UsageOf(s.log, None, Some(Some(s.tick)), None), c.tick)
            && (s.issue.Some? ==> Below(c, UsageOf(s.log, None, None, s.issue), c.issue))
  {
    GatedRun(c, Start(now), steps);
  }

  predicate GatedBelow(c: Config, s: State) {
    Bookkeeping(s) && (s.phase.Gated? ==> GatePasses(c, s.log, s.now, s.tick, s.issue))
  }

  lemma {:induction false} GatedRun(c: Config, s: State, steps: seq<Step>)
    requires ValidConfig(c) && GatedBelow(c, s) && LegalRun(c, s, steps)
    ensures GatedBelow(c, Run(c, s, steps))
    decreases |steps|
  {
    if steps != [] {
      BooksStep(c, s, steps[0]);
      if steps[0].Advance? && s.phase.Gated? {
        WaitingKeepsGate(c, s, steps[0].to);
      }
      GatedRun(c, Apply(c, s, steps[0]), steps[1..]);
    }
  }

  lemma WaitingKeepsGate(c: Config, s: State, to: int)
    requires ValidConfig(c) && Bookkeeping(s) && s.now <= to && GatePasses(c, s.log, s.now, s.tick, s.issue)
    ensures GatePasses(c, s.log, to, s.tick, s.issue)
  {
    var t := s.(now := to);
    forall scope | Sliding(scope) && !scope.TickScope?
      ensures ScopeBelow(c, scope, t.log, t.now, t.tick, t.issue)
    {
      ScopeIsLiveSum(c, scope, s);
      ScopeIsLiveSum(c, scope, t);
      LiveShrinks(s.log, SinceOf(scope, s.now).value, SinceOf(scope, to).value, None, {});
      CallSumMonotone(s.log, Live(scope, t), Live(scope, s));
      SmallerStaysBelow(c, CallSum(s.log, Live(scope, t)), CallSum(s.log, Live(scope, s)), LimitOf(c, scope), ZERO);
    }
  }

  /** The reviewer has no gate of its own, yet when it is launched every guarded window is
      below its limit; the tick's own total always is. */
  lemma ReviewerLaunchIsWithinBudget(c: Config, now: int, steps: seq<Step>, scope: Scope)
    requires ValidConfig(c) && LegalRun(c, Start(now), steps) && Sliding(scope) && Guarded(c, scope, Start(now), steps)
    requires Run(c, Start(now), steps).phase.CoordinatorDone?
    ensures var s := Run(c, Start(now), steps); ScopeBelow(c, scope, s.log, s.now, s.tick, s.issue)
    ensures var s := Run(c, Start(now), steps);
            match scope
            case HourScope => Below(c, UsageOf(s.log, Some(Cut(s.now - 3_600_000_000)), None, None), c.hour)
            case DayScope => Below(c, UsageOf(s.log, Some(Cut(s.now - 86_400_000_000)), None, None), c.day)
            case _ => Below(c, UsageOf(s.log, None, Some(Some(s.tick)), None), c.tick)
  {
    var s := Run(c, Start(now), steps);
    RunFromStart(c, scope, now, steps);
    assert Live(scope, s) + Pending(s) == Live(scope, s);
    ScopeIsLiveSum(c, scope, s);
  }

  /** Past the limit of the window by less than the call recorded last. */
  predicate WithinAt(c: Config, scope: Scope, s: State) {
    Within(c, UsageIn(scope, s.log, s.now, s.tick, s.issue), LimitOf(c, scope), s.last)
  }

  lemma ExposureBoundsUsage(c: Config, s: State, scope: Scope)
    requires ValidConfig(c) && Bookkeeping(s) && Sliding(scope) && BoundsHold(c, scope, s)
    ensures WithinAt(c, scope, s)
  {
    var live := CallSum(s.log, Live(scope, s));
    CallSumMonotone(s.log, Live(scope, s), Live(scope, s) + Pending(s));
    SmallerStaysBelow(c, live, Exposure(scope, s), LimitOf(c, scope), s.last);
    ScopeIsLiveSum(c, scope, s);
    ReportIsWithin(c, live, LimitOf(c, scope), s.last);
  }

  lemma ReportIsWithin(c: Config, t: Tally, l: Limit, call: Tally)
    requires Within(c, t, l, call)
    ensures Within(c, Report(t), l, call)
  {
    assert Cost(c, Report(t)) == Cost(c, t);
  }

  /** At every moment of every run a guarded hour or day is past its limit by less than
      the one call recorded last. */
  lemma OvershootBound(c: Config, now: int, steps: seq<Step>, scope: Scope)
    requires ValidConfig(c) && LegalRun(c, Start(now), steps) && (scope.HourScope? || scope.DayScope?)
    requires Guarded(c, scope, Start(now), steps)
    ensures WithinAt(c, scope, Run(c, Start(now), steps))
    ensures var s := Run(c, Start(now), steps);
            var window := if scope.HourScope? then 3_600_000_000 else 86_400_000_000;
            var limit := if scope.HourScope? then c.hour else c.day;
            var u := UsageOf(s.log, Some(Cut(s.now - window)), None, None);
            && u.total <= limit.tokens - 1 + Max(s.last.total, s.last.input + s.last.output)
            && (limit.cost.Some? ==>
                  CostOf(c, u.input, u.output) < limit.cost.value + CostOf(c, s.last.input, s.last.output))
  {
    RunFromStart(c, scope, now, steps);
    ExposureBoundsUsage(c, Run(c, Start(now), steps), scope);
  }

  /** A tick's own total, from its first gate to its end, obeys the same bound, always. */
  lemma TickOvershootBound(c: Config, now: int, steps: seq<Step>)
    requires ValidConfig(c) && LegalRun(c, Start(now), steps)
    requires !Run(c, Start(now), steps).phase.Idle?
    ensures WithinAt(c, TickScope, Run(c, Start(now), steps))
  {
    RunFromStart(c, TickScope, now, steps);
    ExposureBoundsUsage(c, Run(c, Start(now), steps), TickScope);
  }

  // ---------- a window the tick limit does not cover ----------

  /** One coordinator call whose record is checked after it has left hour and day. */
  function LateSteps(late: int, tokens: Tally): seq<Step> {
    [Gate(0, None)] + ([Launch] + ([Charge(None, tokens)] + ([Advance(late)] + ([Check(None)] + ([Complete(None)] + [])))))
  }

  lemma Stepwise(c: Config, s: State, e: Step, rest: seq<Step>)
    requires Legal(c, s, e)
    ensures Run(c, s, [e] + rest) == Run(c, Apply(c, s, e), rest)
    ensures LegalRun(c, s, [e] + rest) <==> LegalRun(c, Apply(c, s, e), rest)
  {
    assert ([e] + rest)[1..] == rest;
  }

  lemma {:induction false} RunOn(c: Config, s: State, steps: seq<Step>, more: seq<Step>)
    requires LegalRun(c, s, steps) && LegalRun(c, Run(c, s, steps), more)
    ensures LegalRun(c, s, steps + more) && Run(c, s, steps + more) == Run(c, Run(c, s, steps), more)
    decreases |steps|
  {
    if steps == [] {
      assert steps + more == more;
    } else {
      RunOn(c, Apply(c, s, steps[0]), steps[1..], more);
      assert (steps + more)[1..] == steps[1..] + more;
    }
  }

  lemma EmptyLogPasses(c: Config, at: int)
    requires ValidConfig(c)
    ensures GatePasses(c, Empty, at, 0, None)
  {
    assert Cost(c, ZERO) == 0.0;
  }

  lemma WindowsEndNow(now: int)
    ensures Cut(now - DAY) <= Cut(now - HOUR) <= Millis(now)
  {
    assert Millis(now) > now - 1000;
    CutMonotone(now - DAY, now - HOUR);
  }

  /** A log whose only selected row is its last. */
  lemma OnlyLastRow(front: Log, e: Entry, since: Option<int>, tick: Option<Tick>)
    requires Rows(front, since, tick) == Empty && e.valid && Selected(e, since, tick)
    ensures UsageOf(Append(front, e), since, tick, None) == Report(Plus(ZERO, e.charge))
  {
    var rows := Append(Empty, e);
    assert Rows(Append(front, e), since, tick) == rows;
    assert ModelRoles(Empty) == {};
    assert Counted(e, ModelRoles(rows), None, IssueTicks(rows, None));
    assert SumRows(Empty, ModelRoles(rows), None, IssueTicks(rows, None)) == ZERO;
  }

  lemma NoRows(e: Entry, since: Option<int>, tick: Option<Tick>)
    requires !Selected(e, since, tick)
    ensures Rows(Append(Empty, e), since, tick) == Empty
    ensures UsageOf(Append(Empty, e), since, tick, None) == ZERO
  {
    assert Rows(Empty, since, tick) == Empty;
  }

  /** Two days later only the tick's own total still holds the record. */
  lemma OneRowPasses(c: Config, e: Entry, now: int)
    requires ValidConfig(c) && e.valid && e.kind.ModelUsage? && e.tick == Some(0)
    requires e.at < Cut(now - DAY) && Below(c, Report(Plus(ZERO, e.charge)), c.tick)
    ensures GatePasses(c, Append(Empty, e), now, 0, None)
  {
    assert Cost(c, ZERO) == 0.0;
    WindowsEndNow(now);
    NoRows(e, Some(Cut(now - HOUR)), None);
    NoRows(e, Some(Cut(now - DAY)), None);
    OnlyLastRow(Empty, e, None, Some(Some(0)));
  }

  /** The completion event brings the call back into both windows. */
  lemma CompletionIsCountedAgain(scope: Scope, record: Entry, completion: Entry, now: int)
    requires scope.HourScope? || scope.DayScope?
    requires record.at < SinceOf(scope, now).value && completion.at == Millis(now)
    requires completion.valid && completion.kind.CoordinatorCompleted?
    ensures UsageIn(scope, Append(Append(Empty, record), completion), now, 0, None) == Report(Plus(ZERO, completion.charge))
  {
    WindowsEndNow(now);
    NoRows(record, SinceOf(scope, now), None);
    OnlyLastRow(Append(Empty, record), completion, SinceOf(scope, now), None);
  }

  lemma ChargeMeasures(c: Config, t: Tally, l: Limit)
    ensures Below(c, Report(Plus(ZERO, Plus(ONE_CALL, t))), l) <==> Below(c, t, l)
  {
    assert Cost(c, Report(Plus(ZERO, Plus(ONE_CALL, t)))) == Cost(c, t);
  }

  lemma LateCheckPasses(c: Config, s: State, t: Tally)
    requires ValidConfig(c) && s.phase.CoordinatorCharged? && s.tick == 0
    requires s.log.Append? && s.log.front.Empty? && s.log.last.at < Cut(s.now - DAY)
    requires s.log.last.valid && s.log.last.kind.ModelUsage? && s.log.last.tick == Some(0)
    requires s.log.last.charge == Plus(ONE_CALL, t) && Below(c, t, c.tick)
    ensures Apply(c, s, Check(None)).phase.CoordinatorChecked?
  {
    ChargeMeasures(c, t, c.tick);
    OneRowPasses(c, s.log.last, s.now);
  }

  /** A usage below the tick limit but not below the window's gets past a check that comes
      two days late; then the reviewer is launched with the window's limit reached. */
  lemma LateCheckOvershoots(c: Config, at: int, tokens: Tally, scope: Scope)
    requires ValidConfig(c) && (scope.HourScope? || scope.DayScope?)
    requires NonNegative(tokens) && Below(c, tokens, c.tick) && !Below(c, tokens, LimitOf(c, scope))
    ensures var steps := LateSteps(at + 2 * DAY, tokens);
            var s := Run(c, Start(at), steps);
            && LegalRun(c, Start(at), steps) && s.phase.CoordinatorDone?
            && UsageIn(scope, s.log, s.now, s.tick, s.issue) == Report(Plus(ZERO, Plus(ONE_CALL, tokens)))
            && !ScopeBelow(c, scope, s.log, s.now, s.tick, s.issue)
  {
    var late := at + 2 * DAY;
    WindowsEndNow(late);
    var s0 := Start(at);
    EmptyLogPasses(c, at);
    var s1 := Apply(c, s0, Gate(0, None));
    var s2 := Apply(c, s1, Launch);
    var s3 := Apply(c, s2, Charge(None, tokens));
    var s4 := Apply(c, s3, Advance(late));
    assert s4.log == Append(Empty, UsageEntry(s2, None, tokens));
    LateCheckPasses(c, s4, tokens);
    var s5 := Apply(c, s4, Check(None));
    var s6 := Apply(c, s5, Complete(None));
    var rest5 := [Complete(None)] + [];
    var rest4 := [Check(None)] + rest5;
    var rest3 := [Advance(late)] + rest4;
    var rest2 := [Charge(None, tokens)] + rest3;
    Stepwise(c, s5, Complete(None), []);
    Stepwise(c, s4, Check(None), rest5);
    Stepwise(c, s3, Advance(late), rest4);
    Stepwise(c, s2, Charge(None, tokens), rest3);
    Stepwise(c, s1, Launch, rest2);
    Stepwise(c, s0, Gate(0, None), [Launch] + rest2);
    CompletionIsCountedAgain(scope, s4.log.last, s6.log.last, late);
    ChargeMeasures(c, tokens, LimitOf(c, scope));
  }

  ghost predicate ReviewerAlwaysBelow(c: Config, scope: Scope) {
    forall now, steps :: LegalRun(c, Start(now), steps) && Run(c, Start(now), steps).phase.CoordinatorDone? ==>
      var s := Run(c, Start(now), steps); ScopeBelow(c, scope, s.log, s.now, s.tick, s.issue)
  }

  /** Whatever the timing, every reviewer launch finds the hour (the day) below its limit
      if and only if the tick limit covers it. */
  lemma ReviewerAlwaysBelowIff(c: Config, scope: Scope)
    requires ValidConfig(c) && (scope.HourScope? || scope.DayScope?)
    ensures ReviewerAlwaysBelow(c, scope) <==> Covers(c, LimitOf(c, scope))
  {
    if Covers(c, LimitOf(c, scope)) {
      forall now, steps | LegalRun(c, Start(now), steps) && Run(c, Start(now), steps).phase.CoordinatorDone?
        ensures var s := Run(c, Start(now), steps); ScopeBelow(c, scope, s.log, s.now, s.tick, s.issue)
      {
        ReviewerLaunchIsWithinBudget(c, now, steps, scope);
      }
    } else {
      var tokens := UncoveredUsage(c, LimitOf(c, scope));
      LateCheckOvershoots(c, 0, tokens, scope);
    }
  }

  ghost predicate AlwaysWithin(c: Config, scope: Scope) {
    forall now, steps :: LegalRun(c, Start(now), steps) ==> WithinAt(c, scope, Run(c, Start(now), steps))
  }

  lemma {:induction false} BooksRun(c: Config, s: State, steps: seq<Step>)
    requires Bookkeeping(s) && LegalRun(c, s, steps)
    ensures Bookkeeping(Run(c, s, steps))
    decreases |steps|
  {
    if steps != [] {
      BooksStep(c, s, steps[0]);
      BooksRun(c, Apply(c, s, steps[0]), steps[1..]);
    }
  }

  lemma FreeCallIsNotWithin(c: Config, u: Tally, l: Limit)
    requires !Below(c, u, l)
    ensures !Within(c, Report(Plus(u, Plus(ONE_CALL, ZERO))), l, Plus(ONE_CALL, ZERO))
  {
    assert Cost(c, Plus(ONE_CALL, ZERO)) == 0.0;
    assert Cost(c, Report(Plus(u, Plus(ONE_CALL, ZERO)))) == Cost(c, u);
  }

  /** A reviewer call that costs nothing, made with the window's limit reached. */
  lemma FreeReviewerCall(c: Config, s: State, scope: Scope)
    requires Bookkeeping(s) && s.phase.CoordinatorDone? && (scope.HourScope? || scope.DayScope?)
    requires !ScopeBelow(c, scope, s.log, s.now, s.tick, s.issue)
    ensures !WithinAt(c, scope, Apply(c, Apply(c, s, Launch), Charge(None, ZERO)))
  {
    var called := Apply(c, s, Launch);
    var t := Apply(c, called, Charge(None, ZERO));
    var e, live := UsageEntry(called, None, ZERO), Live(scope, s);
    BooksStep(c, s, Launch);
    ChargeKeepsBooks(c, called, None, ZERO);
    WindowsEndNow(s.now);
    ScopeIsLiveSum(c, scope, s);
    ScopeIsLiveSum(c, scope, t);
    assert Live(scope, t) == live + {KeyOf(e)};
    UnknownKeyChangesNothing(s.log, live, KeyOf(e));
    FreeCallIsNotWithin(c, CallSum(s.log, live), LimitOf(c, scope));
  }

  lemma LaunchAndCall(c: Config, s: State)
    requires s.phase.CoordinatorDone?
    ensures var more := [Launch, Charge(None, ZERO)];
            LegalRun(c, s, more) && Run(c, s, more) == Apply(c, Apply(c, s, Launch), Charge(None, ZERO))
  {
    Stepwise(c, Apply(c, s, Launch), Charge(None, ZERO), []);
    Stepwise(c, s, Launch, [Charge(None, ZERO)]);
    assert [Charge(None, ZERO)] + [] == [Charge(None, ZERO)];
    assert [Launch] + [Charge(None, ZERO)] == [Launch, Charge(None, ZERO)];
  }

  /** After such a launch one more call, however cheap, breaks the overshoot bound. */
  lemma ReviewerCallBreaksBound(c: Config, at: int, tokens: Tally, scope: Scope) returns (steps: seq<Step>)
    requires ValidConfig(c) && (scope.HourScope? || scope.DayScope?)
    requires NonNegative(tokens) && Below(c, tokens, c.tick) && !Below(c, tokens, LimitOf(c, scope))
    ensures LegalRun(c, Start(at), steps) && !WithinAt(c, scope, Run(c, Start(at), steps))
  {
    var until := LateSteps(at + 2 * DAY, tokens);
    LateCheckOvershoots(c, at, tokens, scope);
    BooksRun(c, Start(at), until);
    var s := Run(c, Start(at), until);
    LaunchAndCall(c, s);
    RunOn(c, Start(at), until, [Launch, Charge(None, ZERO)]);
    FreeReviewerCall(c, s, scope);
    steps := until + [Launch, Charge(None, ZERO)];
  }

  /** Whatever the timing, the overshoot of the hour (the day) is always less than one
      call if and only if the tick limit covers it. */
  lemma AlwaysWithinIff(c: Config, scope: Scope)
    requires ValidConfig(c) && (scope.HourScope? || scope.DayScope?)
    ensures AlwaysWithin(c, scope) <==> Covers(c, LimitOf(c, scope))
  {
    if Covers(c, LimitOf(c, scope)) {
      forall now, steps | LegalRun(c, Start(now), steps)
        ensures WithinAt(c, scope, Run(c, Start(now), steps))
      {
        OvershootBound(c, now, steps, scope);
      }
    } else {
      var tokens := UncoveredUsage(c, LimitOf(c, scope));
      var steps := ReviewerCallBreaksBound(c, 0, tokens, scope);
    }
  }

  // ---------- the issue of a review ----------

  /** A repetition of a recorded call changes no issue's total, unless it names the issue
      for a tick that has not named it. */
  lemma RepeatChangesNothing(log: Log, e: Entry, issue: Option<int>)
    requires IsCharge(e) && !e.kind.ModelUsage? && KeyOf(e) in ModelRoles(Rows(log, None, None))
    requires NamesIssue(e, issue) ==> e.tick in IssueTicks(Rows(log, None, None), issue)
    ensures UsageOf(Append(log, e), None, None, issue) == UsageOf(log, None, None, issue)
  {
    var rows := Rows(log, None, None);
    var longer := Append(rows, e);
    assert Rows(Append(log, e), None, None) == longer;
    assert ModelRoles(longer) == ModelRoles(rows) && IssueTicks(longer, issue) == IssueTicks(rows, issue);
  }

  lemma LastCallIsKnown(log: Log, issue: Option<int>)
    requires log.Append? && IsCall(log.last)
    ensures KeyOf(log.last) in ModelRoles(Rows(log, None, None))
    ensures NamesIssue(log.last, issue) ==> log.last.tick in IssueTicks(Rows(log, None, None), issue)
  {
  }

  /** The record names the issue it was charged to; a check that passed leaves that issue
      below its limit. */
  predicate IssueInv(c: Config, s: State) {
    && (s.phase in {CoordinatorCharged, CoordinatorChecked} ==>
          s.log.Append? && IsCall(s.log.last) && KeyOf(s.log.last) == CurrentKey(s) && s.log.last.issue == IssueJson(s.charged))
    && (s.phase.CoordinatorChecked? ==> s.checked == s.charged)
    && (s.phase in {CoordinatorChecked, CoordinatorDone} && s.checked.Some? ==>
          ScopeBelow(c, IssueScope, s.log, s.now, s.tick, s.checked))
  }

  lemma CompletionKeepsIssue(c: Config, s: State, issue: Option<int>)
    requires IssueInv(c, s) && s.phase.CoordinatorChecked?
    ensures IssueInv(c, Apply(c, s, Complete(issue)))
  {
    if s.checked.Some? {
      LastCallIsKnown(s.log, s.checked);
      RepeatChangesNothing(s.log, CompletionEntry(s, issue), s.checked);
    }
  }

  lemma IssueStep(c: Config, s: State, e: Step)
    requires IssueInv(c, s) && Legal(c, s, e)
    ensures IssueInv(c, Apply(c, s, e))
  {
    if e.Complete? && s.phase.CoordinatorChecked? {
      CompletionKeepsIssue(c, s, e.issue);
    }
  }

  lemma {:induction false} IssueRun(c: Config, s: State, steps: seq<Step>)
    requires IssueInv(c, s) && LegalRun(c, s, steps)
    ensures IssueInv(c, Run(c, s, steps))
    decreases |steps|
  {
    if steps != [] {
      IssueStep(c, s, steps[0]);
      IssueRun(c, Apply(c, s, steps[0]), steps[1..]);
    }
  }

  /** When the reviewer is launched, the issue for which the coordinator's call was recorded
      and checked is below its limit, whatever issue the completion names. */
  lemma CheckedIssueIsBelowAtReview(c: Config, now: int, steps: seq<Step>)
    requires LegalRun(c, Start(now), steps) && Run(c, Start(now), steps).phase.CoordinatorDone?
    ensures var s := Run(c, Start(now), steps); s.checked.Some? ==> ScopeBelow(c, IssueScope, s.log, s.now, s.tick, s.checked)
    ensures var s := Run(c, Start(now), steps); s.checked.Some? ==> Below(c, UsageOf(s.log, None, None, s.checked), c.issue)
  {
    IssueRun(c, Start(now), steps);
  }

  // ---------- an issue that only the completion names ----------

  /** A call for `named`, after which the tick is cut short. */
  function FirstTick(late: int, spent: Tally, named: int): seq<Step> {
    [Gate(0, None)] + ([Launch] + ([Charge(Some(named), spent)] + ([Abort] + ([Advance(late)] + []))))
  }

  /** A tick whose free call is charged to `checked` and whose completion names `named`. */
  function SecondTick(checked: Option<int>, named: int): seq<Step> {
    [Gate(1, None)] + ([Launch] + ([Charge(checked, ZERO)] + ([Check(checked)] + ([Complete(Some(named))] + []))))
  }

  lemma SlidingUsage(scope: Scope, log: Log, now: int, tick: nat, issue: Option<int>)
    requires Sliding(scope)
    ensures UsageIn(scope, log, now, tick, issue) == UsageOf(log, SinceOf(scope, now), TickOf(scope, tick), None)
  {
  }

  /** An old call of another tick is in no window but its issue's. */
  lemma EarlierCallIsNotSeen(scope: Scope, earlier: Entry, now: int)
    requires Sliding(scope) && earlier.tick == Some(0) && earlier.at < Cut(now - DAY)
    ensures Rows(Append(Empty, earlier), SinceOf(scope, now), TickOf(scope, 1)) == Empty
    ensures UsageOf(Append(Empty, earlier), SinceOf(scope, now), TickOf(scope, 1), None) == ZERO
  {
    WindowsEndNow(now);
    NoRows(earlier, SinceOf(scope, now), TickOf(scope, 1));
  }

  lemma NextTickPasses(c: Config, earlier: Entry, now: int)
    requires ValidConfig(c) && earlier.tick == Some(0) && earlier.at < Cut(now - DAY)
    ensures GatePasses(c, Append(Empty, earlier), now, 1, None)
  {
    assert Cost(c, ZERO) == 0.0;
    forall scope | Sliding(scope)
      ensures ScopeBelow(c, scope, Append(Empty, earlier), now, 1, None)
    {
      EarlierCallIsNotSeen(scope, earlier, now);
      SlidingUsage(scope, Append(Empty, earlier), now, 1, None);
    }
  }

  lemma FreeCallIsBelow(c: Config, l: Limit)
    requires ValidLimit(l)
    ensures Below(c, Report(Plus(ZERO, Plus(ONE_CALL, ZERO))), l)
  {
    assert Cost(c, Report(Plus(ZERO, Plus(ONE_CALL, ZERO)))) == 0.0;
  }

  /** The old call does not count for an issue it does not name. */
  lemma OtherIssueCountsOnlyItsOwn(first: Entry, second: Entry, issue: int)
    requires IsCall(first) && IsCall(second) && first.tick != second.tick
    requires !NamesIssue(first, Some(issue)) && NamesIssue(second, Some(issue))
    ensures UsageOf(Append(Append(Empty, first), second), None, None, Some(issue)) == Report(Plus(ZERO, second.charge))
  {
    var front := Append(Empty, first);
    var rows := Append(front, second);
    assert Rows(Empty, None, None) == Empty;
    assert Rows(front, None, None) == front;
    assert Rows(rows, None, None) == rows;
    assert IssueTicks(front, Some(issue)) == {};
    assert IssueTicks(rows, Some(issue)) == {second.tick};
    assert !Counted(first, ModelRoles(rows), Some(issue), {second.tick});
    assert SumRows(front, ModelRoles(rows), Some(issue), {second.tick}) == ZERO;
  }

  lemma SecondCallAlone(c: Config, first: Entry, second: Entry, now: int, scope: Scope, issue: Option<int>)
    requires ValidConfig(c) && first.tick == Some(0) && first.at < Cut(now - DAY) && Sliding(scope)
    requires IsCall(second) && second.tick == Some(1) && second.at == Millis(now) && second.charge == Plus(ONE_CALL, ZERO)
    ensures ScopeBelow(c, scope, Append(Append(Empty, first), second), now, 1, issue)
  {
    WindowsEndNow(now);
    EarlierCallIsNotSeen(scope, first, now);
    SecondRow(Append(Empty, first), second, SinceOf(scope, now), TickOf(scope, 1));
    SlidingUsage(scope, Append(Append(Empty, first), second), now, 1, issue);
    FreeCallIsBelow(c, LimitOf(c, scope));
  }

  lemma SecondRow(front: Log, second: Entry, since: Option<int>, tick: Option<Tick>)
    requires Rows(front, since, tick) == Empty && IsCall(second) && second.charge == Plus(ONE_CALL, ZERO)
    requires (since.Some? ==> since.value <= second.at) && (tick.Some? ==> second.tick == tick.value)
    ensures UsageOf(Append(front, second), since, tick, None) == Report(Plus(ZERO, Plus(ONE_CALL, ZERO)))
  {
    OnlyLastRow(front, second, since, tick);
  }

  lemma SecondCallForIssue(c: Config, first: Entry, second: Entry, now: int, issue: Option<int>, named: int)
    requires ValidConfig(c) && first.tick == Some(0) && IsCall(first) && first.issue == Num(named)
    requires IsCall(second) && second.tick == Some(1) && second.charge == Plus(ONE_CALL, ZERO) && second.issue == IssueJson(issue)
    requires issue.Some? && issue.value != named
    ensures ScopeBelow(c, IssueScope, Append(Append(Empty, first), second), now, 1, issue)
  {
    OtherIssueCountsOnlyItsOwn(first, second, issue.value);
    FreeCallIsBelow(c, c.issue);
  }

  lemma SecondCheckPasses(c: Config, first: Entry, second: Entry, now: int, issue: Option<int>, named: int)
    requires ValidConfig(c) && first.tick == Some(0) && IsCall(first) && first.issue == Num(named) && first.at < Cut(now - DAY)
    requires IsCall(second) && second.tick == Some(1) && second.at == Millis(now) && second.charge == Plus(ONE_CALL, ZERO)
    requires second.issue == IssueJson(issue) && issue != Some(named)
    ensures GatePasses(c, Append(Append(Empty, first), second), now, 1, issue)
  {
    SecondCallAlone(c, first, second, now, HourScope, issue);
    SecondCallAlone(c, first, second, now, DayScope, issue);
    SecondCallAlone(c, first, second, now, TickScope, issue);
    if issue.Some? {
      SecondCallForIssue(c, first, second, now, issue, named);
    }
  }

  /** A call that names the issue counts for it, whatever else is in the log. */
  lemma NamedCallCounts(c: Config, log: Log, k: CallKey, issue: int)
    requires WellFormed(log) && ChargesNonNegative(log) && ValidConfig(c)
    requires k in LiveCalls(log, None, None, Some(issue)) && CallSum(log, {k}).total >= c.issue.tokens
    ensures !Below(c, UsageOf(log, None, None, Some(issue)), c.issue)
  {
    var live := LiveCalls(log, None, None, Some(issue));
    DeduplicatedAccounting(log, None, None, Some(issue));
    CallSumMonotone(log, {k}, live);
  }

  /** The first call is live for the issue it names, in a log of three. */
  lemma FirstCallIsLive(first: Entry, second: Entry, third: Entry, issue: int)
    requires IsCall(first) && NamesIssue(first, Some(issue))
    ensures KeyOf(first) in LiveCalls(Append(Append(Append(Empty, first), second), third), None, None, Some(issue))
  {
    var l1 := Append(Empty, first);
    var l2 := Append(l1, second);
    var l3 := Append(l2, third);
    assert first.tick in NamingTicks(l1, None, None, Some(issue));
    assert first.tick in NamingTicks(l2, None, None, Some(issue));
    var ticks := NamingTicks(l3, None, None, Some(issue));
    assert first.tick in ticks;
    assert KeyOf(first) in LiveAmong(l1, None, None, Some(issue), ticks);
    assert KeyOf(first) in LiveAmong(l2, None, None, Some(issue), ticks);
  }

  lemma FirstCallSums(first: Entry, second: Entry, third: Entry)
    requires IsCall(first) && IsCall(second) && KeyOf(second) != KeyOf(first) && !third.kind.ModelUsage?
    ensures CallSum(Append(Append(Append(Empty, first), second), third), {KeyOf(first)}) == Plus(ZERO, first.charge)
  {
    var l1 := Append(Empty, first);
    assert CallSum(l1, {KeyOf(first)}) == Plus(ZERO, first.charge);
    assert CallSum(Append(l1, second), {KeyOf(first)}) == CallSum(l1, {KeyOf(first)});
  }

  /** One earlier call of tick 0 for `named`, more than a day ago. */
  predicate EarlierCall(s: State, named: int) {
    && s.phase.Idle? && s.used == {0} && s.log.Append? && s.log.front.Empty? && s.log.last.tick == Some(0)
    && IsCall(s.log.last) && s.log.last.issue == Num(named) && s.log.last.at < Cut(s.now - DAY)
  }

  function Gated1(s: State): State { s.(tick := 1, issue := None, used := s.used + {1}, phase := Gated) }

  function Charged1(s: State, checked: Option<int>): State {
    var e := UsageEntry(Gated1(s).(phase := CoordinatorRunning), checked, ZERO);
    Gated1(s).(phase := CoordinatorCharged, log := Append(s.log, e), last := e.charge, chargedAt := s.now, charged := checked)
  }

  lemma SecondCallIsMade(c: Config, s: State, checked: Option<int>, named: int)
    requires ValidConfig(c) && EarlierCall(s, named)
    ensures Legal(c, s, Gate(1, None)) && Apply(c, s, Gate(1, None)) == Gated1(s)
    ensures Apply(c, Apply(c, Gated1(s), Launch), Charge(checked, ZERO)) == Charged1(s, checked)
  {
    assert s.log == Append(Empty, s.log.last);
    NextTickPasses(c, s.log.last, s.now);
  }

  lemma SecondCallIsChecked(c: Config, s: State, checked: Option<int>, named: int)
    requires ValidConfig(c) && EarlierCall(s, named) && checked != Some(named)
    ensures Legal(c, Charged1(s, checked), Check(checked))
    ensures Apply(c, Charged1(s, checked), Check(checked)) == Charged1(s, checked).(checked := checked, phase := CoordinatorChecked)
  {
    assert s.log == Append(Empty, s.log.last);
    SecondCheckPasses(c, s.log.last, Charged1(s, checked).log.last, s.now, checked, named);
  }

  /** The second tick, after the earlier call. */
  lemma SecondTickRuns(c: Config, s: State, checked: Option<int>, named: int)
    requires ValidConfig(c) && EarlierCall(s, named) && checked != Some(named)
    ensures var t := Run(c, s, SecondTick(checked, named));
            && LegalRun(c, s, SecondTick(checked, named)) && t.phase.CoordinatorDone?
            && t.checked == checked && t.reported == Some(named)
            && t.log.Append? && t.log.last.kind.CoordinatorCompleted?
            && t.log.front.Append? && t.log.front.front == s.log
            && IsCall(t.log.front.last) && t.log.front.last.tick == Some(1)
  {
    SecondCallIsMade(c, s, checked, named);
    SecondCallIsChecked(c, s, checked, named);
    var s2 := Apply(c, Gated1(s), Launch);
    var s4 := Apply(c, Charged1(s, checked), Check(checked));
    var r4 := [Complete(Some(named))] + [];
    var r3 := [Check(checked)] + r4;
    var r2 := [Charge(checked, ZERO)] + r3;
    Stepwise(c, s4, Complete(Some(named)), []);
    Stepwise(c, Charged1(s, checked), Check(checked), r4);
    Stepwise(c, s2, Charge(checked, ZERO), r3);
    Stepwise(c, Gated1(s), Launch, r2);
    Stepwise(c, s, Gate(1, None), [Launch] + r2);
  }

  /** The earlier call keeps the issue at its limit. */
  lemma EarlierCallCounts(c: Config, log: Log, named: int)
    requires ValidConfig(c) && WellFormed(log) && ChargesNonNegative(log)
    requires log.Append? && log.last.kind.CoordinatorCompleted? && log.front.Append? && IsCall(log.front.last)
    requires log.front.front.Append? && log.front.front.front.Empty? && log.front.last.tick != log.front.front.last.tick
    requires var e := log.front.front.last; IsCall(e) && e.issue == Num(named) && e.charge.total >= c.issue.tokens
    ensures !Below(c, UsageOf(log, None, None, Some(named)), c.issue)
  {
    var first, second, third := log.front.front.last, log.front.last, log.last;
    assert log == Append(Append(Append(Empty, first), second), third);
    FirstCallIsLive(first, second, third, named);
    FirstCallSums(first, second, third);
    NamedCallCounts(c, log, KeyOf(first), named);
  }

  /** The first call, aborted before its check, two days ago. */
  lemma FirstTickRuns(c: Config, spent: Tally, named: int) returns (steps: seq<Step>)
    requires ValidConfig(c) && NonNegative(spent)
    ensures LegalRun(c, Start(0), steps)
    ensures var s := Run(c, Start(0), steps); EarlierCall(s, named) && s.log.last.charge == Plus(ONE_CALL, spent)
  {
    steps := FirstTick(2 * DAY, spent, named);
    EmptyLogPasses(c, 0);
    WindowsEndNow(2 * DAY);
    var s0 := Start(0);
    var s1 := Apply(c, s0, Gate(0, None));
    var s2 := Apply(c, s1, Launch);
    var s3 := Apply(c, s2, Charge(Some(named), spent));
    var s4 := Apply(c, s3, Abort);
    var r4 := [Advance(2 * DAY)] + [];
    var r3 := [Abort] + r4;
    var r2 := [Charge(Some(named), spent)] + r3;
    Stepwise(c, s4, Advance(2 * DAY), []);
    Stepwise(c, s3, Abort, r4);
    Stepwise(c, s2, Charge(Some(named), spent), r3);
    Stepwise(c, s1, Launch, r2);
    Stepwise(c, s0, Gate(0, None), [Launch] + r2);
  }

  lemma SecondTickOvershoots(c: Config, s: State, checked: Option<int>, named: int) returns (steps: seq<Step>)
    requires ValidConfig(c) && Bookkeeping(s) && EarlierCall(s, named) && checked != Some(named)
    requires s.log.last.charge.total >= c.issue.tokens
    ensures LegalRun(c, s, steps) && Renamed(c, Run(c, s, steps), checked, named)
  {
    steps := SecondTick(checked, named);
    SecondTickRuns(c, s, checked, named);
    BooksRun(c, s, steps);
    EarlierCallCounts(c, Run(c, s, steps).log, named);
  }

  /** The reviewer is launched with the limit of the issue the completion named reached. */
  predicate Renamed(c: Config, s: State, checked: Option<int>, named: int) {
    && s.phase.CoordinatorDone? && s.checked == checked && s.reported == Some(named)
    && !ScopeBelow(c, IssueScope, s.log, s.now, s.tick, Some(named))
  }

  lemma RenamedIssueOvershoots(c: Config, checked: Option<int>, named: int, spent: Tally) returns (steps: seq<Step>)
    requires ValidConfig(c) && checked != Some(named) && NonNegative(spent) && spent.total >= c.issue.tokens
    ensures LegalRun(c, Start(0), steps) && Renamed(c, Run(c, Start(0), steps), checked, named)
  {
    var first := FirstTickRuns(c, spent, named);
    BooksRun(c, Start(0), first);
    var more := SecondTickOvershoots(c, Run(c, Start(0), first), checked, named);
    RunOn(c, Start(0), first, more);
    steps := first + more;
  }

  ghost predicate NamedIssueAlwaysBelow(c: Config, checked: Option<int>, named: int) {
    forall now, steps :: LegalRun(c, Start(now), steps) ==>
      var s := Run(c, Start(now), steps);
      s.phase.CoordinatorDone? && s.checked == checked && s.reported == Some(named) ==>
        ScopeBelow(c, IssueScope, s.log, s.now, s.tick, Some(named))
  }

  /** The issue the completion names, to which the reviewer's call will be charged, is
      below its limit at every reviewer launch if and only if it is the one for which the
      coordinator's call was checked. */
  lemma NamedIssueAlwaysBelowIff(c: Config, checked: Option<int>, named: int)
    requires ValidConfig(c)
    ensures NamedIssueAlwaysBelow(c, checked, named) <==> checked == Some(named)
  {
    if checked == Some(named) {
      forall now, steps | LegalRun(c, Start(now), steps)
        ensures var s := Run(c, Start(now), steps);
                s.phase.CoordinatorDone? && s.checked == checked && s.reported == Some(named) ==>
                  ScopeBelow(c, IssueScope, s.log, s.now, s.tick, Some(named))
      {
        if Run(c, Start(now), steps).phase.CoordinatorDone? {
          CheckedIssueIsBelowAtReview(c, now, steps);
        }
      }
    } else {
      var steps := RenamedIssueOvershoots(c, checked, named, Tally(0, 0, c.issue.tokens, 0));
    }
  }
}
