/**
  `Ledger.usage_totals`: a two-pass fold over the append-only event log.

  One model call leaves a `model_usage` event and, later, possibly a completion
  event that repeats the same usage.  The fold must charge it exactly once, even
  when only the completion event falls inside the window.
 */
module UsageAccounting {
  import opened Prelude
  import opened UsageEvents

  /** The log grows at its end: `last` is the newest event. */
  datatype Log = Empty | Append(front: Log, last: Entry)

  datatype CallKey = CallKey(tick: Tick, role: Role)

  function KeyOf(e: Entry): CallKey { CallKey(e.tick, e.role) }

  predicate IsCharge(e: Entry) { !e.kind.Other? && e.valid }

  predicate IsCall(e: Entry) { IsCharge(e) && e.kind.ModelUsage? }

  predicate NamesIssue(e: Entry, issue: Option<int>) { issue.Some? && EqualsInt(e.issue, issue.value) }

  /** The log made of an event table read in insertion order. */
  function LogOf(events: seq<Event>): Log {
    if events == [] then Empty else Append(LogOf(events[..|events| - 1]), Read(events[|events| - 1]))
  }

  // ---------- the query and the two passes ----------

  predicate Selected(e: Entry, since: Option<int>, tick: Option<Tick>) {
    && !e.kind.Other?
    && (since.Some? ==> since.value <= e.at)
    && (tick.Some? ==> e.tick == tick.value)
  }

  function Rows(log: Log, since: Option<int>, tick: Option<Tick>): Log {
    match log
    case Empty => Empty
    case Append(front, e) =>
      if Selected(e, since, tick) then Append(Rows(front, since, tick), e) else Rows(front, since, tick)
  }

  function ModelRoles(rows: Log): set<CallKey> {
    match rows
    case Empty => {}
    case Append(front, e) => if e.valid && e.kind.ModelUsage? then ModelRoles(front) + {KeyOf(e)} else ModelRoles(front)
  }

  function IssueTicks(rows: Log, issue: Option<int>): set<Tick> {
    match rows
    case Empty => {}
    case Append(front, e) =>
      if e.valid && NamesIssue(e, issue) then IssueTicks(front, issue) + {e.tick} else IssueTicks(front, issue)
  }

  predicate Counted(e: Entry, roles: set<CallKey>, issue: Option<int>, ticks: set<Tick>) {
    && e.valid
    && (e.kind.ModelUsage? || KeyOf(e) !in roles)
    && (issue.None? || NamesIssue(e, issue) || e.tick in ticks)
  }

  function SumRows(rows: Log, roles: set<CallKey>, issue: Option<int>, ticks: set<Tick>): Tally {
    match rows
    case Empty => ZERO
    case Append(front, e) =>
      if Counted(e, roles, issue, ticks) then Plus(SumRows(front, roles, issue, ticks), e.charge)
      else SumRows(front, roles, issue, ticks)
  }

  function Tokens(t: Tally): int { Max(t.total, t.input + t.output) }

  /** The last line of the fold: a total below the sum of its parts is raised to it. */
  function Report(t: Tally): Tally { t.(total := Tokens(t)) }

  function UsageOf(log: Log, since: Option<int>, tick: Option<Tick>, issue: Option<int>): Tally {
    var rows := Rows(log, since, tick);
    var roles, ticks := ModelRoles(rows), IssueTicks(rows, issue);
    Report(SumRows(rows, roles, issue, ticks))
  }

  // ---------- what the query and the first pass find ----------

  predicate Among(log: Log, e: Entry) { log.Append? && (log.last == e || Among(log.front, e)) }

  /** The query keeps the charge events of the tick that are not earlier than `since`. */
  lemma {:induction false} RowsAre(log: Log, since: Option<int>, tick: Option<Tick>, e: Entry)
    ensures Among(Rows(log, since, tick), e) <==>
              && Among(log, e) && e.kind in {ModelUsage, CoordinatorCompleted, IndependentReview}
              && (since.None? || since.value <= e.at) && (tick.None? || tick.value == e.tick)
  {
    if log.Append? {
      RowsAre(log.front, since, tick, e);
    }
  }

  /** The calls the first pass records are those of the usage records among the rows. */
  lemma {:induction false} RecordedCalls(rows: Log, k: CallKey)
    ensures k in ModelRoles(rows) <==>
              exists e :: Among(rows, e) && e.valid && e.kind == ModelUsage && k == CallKey(e.tick, e.role)
  {
    if rows.Append? {
      RecordedCalls(rows.front, k);
      assert Among(rows, rows.last);
      if e :| Among(rows.front, e) && e.valid && e.kind == ModelUsage && k == CallKey(e.tick, e.role) {
        assert Among(rows, e);
      }
      if e :| Among(rows, e) && e.valid && e.kind == ModelUsage && k == CallKey(e.tick, e.role) {
        assert e == rows.last || Among(rows.front, e);
      }
    }
  }

  /** And the ticks are those of the rows that name the issue. */
  lemma {:induction false} NamedTicks(rows: Log, issue: int, tick: Tick)
    ensures tick in IssueTicks(rows, Some(issue)) <==>
              exists e :: Among(rows, e) && e.valid && e.tick == tick && EqualsInt(e.issue, issue)
  {
    if rows.Append? {
      NamedTicks(rows.front, issue, tick);
      assert Among(rows, rows.last);
      if e :| Among(rows.front, e) && e.valid && e.tick == tick && EqualsInt(e.issue, issue) {
        assert Among(rows, e);
      }
      if e :| Among(rows, e) && e.valid && e.tick == tick && EqualsInt(e.issue, issue) {
        assert e == rows.last || Among(rows.front, e);
      }
    }
  }

  lemma LogOfPrefix(events: seq<Event>, i: nat)
    requires i < |events|
    ensures LogOf(events[..i + 1]) == Append(LogOf(events[..i]), Read(events[i]))
  {
    assert events[..i + 1][..i] == events[..i];
  }

  lemma LogOfSnoc(events: seq<Event>, e: Event)
    ensures LogOf(events + [e]) == Append(LogOf(events), Read(e))
  {
    LogOfPrefix(events + [e], |events|);
    assert (events + [e])[..|events|] == events && (events + [e])[..|events| + 1] == events + [e];
  }

  method Query(events: seq<Event>, since: Option<int>, tick: Option<Tick>) returns (rows: seq<Event>)
    ensures LogOf(rows) == Rows(LogOf(events), since, tick)
  {
    rows := [];
    for i := 0 to |events|
      invariant LogOf(rows) == Rows(LogOf(events[..i]), since, tick)
    {
      LogOfPrefix(events, i);
      var e := events[i];
      if !e.kind.Other? && (since.None? || e.at >= since.value) && (tick.None? || e.tick == tick.value) {
        LogOfSnoc(rows, e);
        rows := rows + [e];
      }
    }
    assert events[..|events|] == events;
  }

  method FirstPass(rows: seq<Event>, issue: Option<int>) returns (roles: set<CallKey>, ticks: set<Tick>)
    ensures roles == ModelRoles(LogOf(rows)) && ticks == IssueTicks(LogOf(rows), issue)
  {
    roles, ticks := {}, {};
    for i := 0 to |rows|
      invariant roles == ModelRoles(LogOf(rows[..i]))
      invariant ticks == IssueTicks(LogOf(rows[..i]), issue)
    {
      LogOfPrefix(rows, i);
      var row := rows[i];
      if row.payload.Payload? {
        if issue.Some? && EqualsInt(EventIssue(row.payload), issue.value) {
          ticks := ticks + {row.tick};
        }
        if row.kind.ModelUsage? {
          roles := roles + {CallKey(row.tick, RoleOf(row))};
        }
      }
    }
    assert rows[..|rows|] == rows;
  }

  method SecondPass(rows: seq<Event>, roles: set<CallKey>, issue: Option<int>, ticks: set<Tick>, totals: Totals)
    requires totals.Sums() == ZERO
    modifies totals
    ensures totals.Sums() == SumRows(LogOf(rows), roles, issue, ticks)
  {
    for i := 0 to |rows|
      invariant totals.Sums() == SumRows(LogOf(rows[..i]), roles, issue, ticks)
    {
      LogOfPrefix(rows, i);
      ChargeRow(rows[i], roles, issue, ticks, totals);
    }
    assert rows[..|rows|] == rows;
  }

  /** One row of the second pass. */
  method ChargeRow(row: Event, roles: set<CallKey>, issue: Option<int>, ticks: set<Tick>, totals: Totals)
    modifies totals
    ensures totals.Sums() == if Counted(Read(row), roles, issue, ticks)
                             then Plus(old(totals.Sums()), Read(row).charge) else old(totals.Sums())
  {
    if !row.payload.Payload? {
      return;
    }
    if !row.kind.ModelUsage? && CallKey(row.tick, RoleOf(row)) in roles {
      return;
    }
    if issue.Some? && !EqualsInt(EventIssue(row.payload), issue.value) && row.tick !in ticks {
      return;
    }
    totals.CountCall(row.payload.usage);
  }

  method UsageTotals(events: seq<Event>, since: Option<int>, tick: Option<Tick>, issue: Option<int>)
    returns (u: Tally)
    ensures u == UsageOf(LogOf(events), since, tick, issue)
  {
    var rows := Query(events, since, tick);
    var roles, ticks := FirstPass(rows, issue);
    var totals := new Totals();
    SecondPass(rows, roles, issue, ticks, totals);
    totals.total := Max(totals.total, totals.input + totals.output);
    u := Tally(totals.input, totals.output, totals.total, totals.calls);
  }

  /** A log of one recorded call: its charge is reported when the window, the tick and the
      issue asked for are its own, and nothing otherwise. */
  lemma OneCallIsReported(e: Entry, since: Option<int>, tick: Option<Tick>, issue: Option<int>)
    requires e.kind == ModelUsage && e.valid && e.issue.Num?
    ensures UsageOf(Append(Empty, e), since, tick, issue)
            == if (since.Some? && e.at < since.value) || (tick.Some? && tick.value != e.tick)
                  || (issue.Some? && issue.value != e.issue.n) then Tally(0, 0, 0, 0)
               else e.charge.(total := Max(e.charge.total, e.charge.input + e.charge.output))
  {
    var rows := Rows(Append(Empty, e), since, tick);
    var roles, ticks := ModelRoles(rows), IssueTicks(rows, issue);
    OneRow(e, since, tick);
    OneRowSums(e, roles, issue, ticks);
    OneRowNames(e, issue);
  }

  lemma OneRow(e: Entry, since: Option<int>, tick: Option<Tick>)
    ensures Rows(Append(Empty, e), since, tick) == if Selected(e, since, tick) then Append(Empty, e) else Empty
  {
    assert Rows(Empty, since, tick) == Empty;
  }

  lemma OneRowNames(e: Entry, issue: Option<int>)
    ensures IssueTicks(Append(Empty, e), issue) == if e.valid && NamesIssue(e, issue) then {e.tick} else {}
  {
    assert IssueTicks(Empty, issue) == {};
  }

  lemma OneRowSums(e: Entry, roles: set<CallKey>, issue: Option<int>, ticks: set<Tick>)
    ensures SumRows(Empty, roles, issue, ticks) == ZERO
    ensures SumRows(Append(Empty, e), roles, issue, ticks)
         == if Counted(e, roles, issue, ticks) then Plus(ZERO, e.charge) else ZERO
  {
    assert SumRows(Empty, roles, issue, ticks) == ZERO;
  }

  // ---------- reference: the plain sum over model calls ----------

  function Keys(log: Log): set<CallKey> {
    match log
    case Empty => {}
    case Append(front, e) => if IsCharge(e) then Keys(front) + {KeyOf(e)} else Keys(front)
  }

  function Completed(log: Log): set<CallKey> {
    match log
    case Empty => {}
    case Append(front, e) =>
      if IsCharge(e) && !e.kind.ModelUsage? then Completed(front) + {KeyOf(e)} else Completed(front)
  }

  /** What the call `k` was charged, if it was made. */
  function CallCharge(log: Log, k: CallKey): Option<Tally> {
    match log
    case Empty => None
    case Append(front, e) => if IsCall(e) && KeyOf(e) == k then Some(e.charge) else CallCharge(front, k)
  }

  /** What the supervisor can write: one `model_usage` per call, and at most one
      completion event, later in the log and repeating the usage of its call. */
  predicate WellFormed(log: Log) {
    match log
    case Empty => true
    case Append(front, e) =>
      && WellFormed(front)
      && (IsCall(e) ==> KeyOf(e) !in Keys(front))
      && (IsCharge(e) && !e.kind.ModelUsage?
          ==> CallCharge(front, KeyOf(e)) == Some(e.charge) && KeyOf(e) !in Completed(front))
  }

  /** The sum of the calls whose key is in `keys`. */
  function CallSum(log: Log, keys: set<CallKey>): Tally {
    match log
    case Empty => ZERO
    case Append(front, e) =>
      if IsCall(e) && KeyOf(e) in keys then Plus(CallSum(front, keys), e.charge) else CallSum(front, keys)
  }

  predicate InWindow(e: Entry, since: Option<int>, tick: Option<Tick>) { IsCharge(e) && Selected(e, since, tick) }

  /** The ticks that name the issue in some charge event of the window. */
  function NamingTicks(log: Log, since: Option<int>, tick: Option<Tick>, issue: Option<int>): set<Tick> {
    match log
    case Empty => {}
    case Append(front, e) =>
      if InWindow(e, since, tick) && NamesIssue(e, issue) then NamingTicks(front, since, tick, issue) + {e.tick}
      else NamingTicks(front, since, tick, issue)
  }

  /** The calls with at least one charge event in the window; when an issue is asked
      for, only those of `ticks`. */
  function LiveAmong(log: Log, since: Option<int>, tick: Option<Tick>, issue: Option<int>, ticks: set<Tick>): set<CallKey> {
    match log
    case Empty => {}
    case Append(front, e) =>
      if InWindow(e, since, tick) && (issue.None? || e.tick in ticks)
      then LiveAmong(front, since, tick, issue, ticks) + {KeyOf(e)}
      else LiveAmong(front, since, tick, issue, ticks)
  }

  function LiveCalls(log: Log, since: Option<int>, tick: Option<Tick>, issue: Option<int>): set<CallKey> {
    LiveAmong(log, since, tick, issue, NamingTicks(log, since, tick, issue))
  }

  lemma {:induction false} UnknownKeyChangesNothing(log: Log, keys: set<CallKey>, k: CallKey)
    requires k !in Keys(log)
    ensures CallSum(log, keys + {k}) == CallSum(log, keys)
  {
    if log.Append? {
      UnknownKeyChangesNothing(log.front, keys, k);
    }
  }

  /** Adding the key of a call adds exactly the charge of that call. */
  lemma {:induction false} NewKeyAddsItsCall(log: Log, keys: set<CallKey>, k: CallKey)
    requires WellFormed(log) && CallCharge(log, k).Some? && k !in keys
    ensures CallSum(log, keys + {k}) == Plus(CallSum(log, keys), CallCharge(log, k).value)
  {
    if IsCall(log.last) && KeyOf(log.last) == k {
      UnknownKeyChangesNothing(log.front, keys, k);
    } else {
      NewKeyAddsItsCall(log.front, keys, k);
    }
  }

  lemma {:induction false} UnknownRoleChangesNothing(log: Log, since: Option<int>, tick: Option<Tick>, roles: set<CallKey>,
      k: CallKey, issue: Option<int>, ticks: set<Tick>)
    requires k !in Keys(log)
    ensures var rows := Rows(log, since, tick);
            SumRows(rows, roles + {k}, issue, ticks) == SumRows(rows, roles, issue, ticks)
  {
    if log.Append? {
      UnknownRoleChangesNothing(log.front, since, tick, roles, k, issue, ticks);
    }
  }

  lemma {:induction false} LiveAreKnown(log: Log, since: Option<int>, tick: Option<Tick>, issue: Option<int>, ticks: set<Tick>)
    ensures LiveAmong(log, since, tick, issue, ticks) <= Keys(log)
  {
    if log.Append? {
      LiveAreKnown(log.front, since, tick, issue, ticks);
    }
  }

  lemma {:induction false} RolesAreLive(log: Log, since: Option<int>, tick: Option<Tick>, issue: Option<int>, ticks: set<Tick>, k: CallKey)
    requires k in ModelRoles(Rows(log, since, tick)) && (issue.None? || k.tick in ticks)
    ensures k in LiveAmong(log, since, tick, issue, ticks)
  {
    if KeyOf(log.last) != k || !InWindow(log.last, since, tick) || !log.last.kind.ModelUsage? {
      RolesAreLive(log.front, since, tick, issue, ticks, k);
    }
  }

  /** Outside the window a call that is not completed yet has left no trace inside. */
  lemma {:induction false} OutsideIsNotLive(log: Log, since: Option<int>, tick: Option<Tick>, issue: Option<int>, ticks: set<Tick>, k: CallKey)
    requires k !in ModelRoles(Rows(log, since, tick)) && k !in Completed(log)
    ensures k !in LiveAmong(log, since, tick, issue, ticks)
  {
    if log.Append? {
      OutsideIsNotLive(log.front, since, tick, issue, ticks, k);
    }
  }

  /** The counted rows add up to the live calls.  Appending one event: a `model_usage`
      is new; a completion repeats a charge of the window or is the only trace there. */
  lemma {:induction false} FoldIsCallSum(log: Log, since: Option<int>, tick: Option<Tick>, issue: Option<int>, ticks: set<Tick>)
    requires WellFormed(log) && NamingTicks(log, since, tick, issue) <= ticks
    ensures var rows := Rows(log, since, tick);
            var live := LiveAmong(log, since, tick, issue, ticks);
            SumRows(rows, ModelRoles(rows), issue, ticks) == CallSum(log, live)
  {
    if log.Append? {
      var front, e, k := log.front, log.last, KeyOf(log.last);
      var live, roles := LiveAmong(front, since, tick, issue, ticks), ModelRoles(Rows(front, since, tick));
      FoldIsCallSum(front, since, tick, issue, ticks);
      LiveAreKnown(front, since, tick, issue, ticks);
      if IsCall(e) {
        UnknownRoleChangesNothing(front, since, tick, roles, k, issue, ticks);
        UnknownKeyChangesNothing(front, live, k);
      } else if InWindow(e, since, tick) && (issue.None? || e.tick in ticks) {
        if k in roles {
          RolesAreLive(front, since, tick, issue, ticks, k);
          assert live + {k} == live;
        } else {
          OutsideIsNotLive(front, since, tick, issue, ticks, k);
          NewKeyAddsItsCall(front, live, k);
        }
      }
    }
  }

  lemma {:induction false} NamingTicksAreIssueTicks(log: Log, since: Option<int>, tick: Option<Tick>, issue: Option<int>)
    ensures IssueTicks(Rows(log, since, tick), issue) == NamingTicks(log, since, tick, issue)
  {
    if log.Append? {
      NamingTicksAreIssueTicks(log.front, since, tick, issue);
    }
  }

  /** On every log the supervisor can write, `usage_totals` is the sum over the model
      calls that left a charge event in the window, each exactly once. */
  lemma DeduplicatedAccounting(log: Log, since: Option<int>, tick: Option<Tick>, issue: Option<int>)
    requires WellFormed(log)
    ensures var live := LiveCalls(log, since, tick, issue);
            UsageOf(log, since, tick, issue) == Report(CallSum(log, live))
  {
    NamingTicksAreIssueTicks(log, since, tick, issue);
    FoldIsCallSum(log, since, tick, issue, NamingTicks(log, since, tick, issue));
  }

  // ---------- consequences ----------

  predicate NonNegative(t: Tally) {
    t.input >= 0 && t.output >= 0 && t.total >= 0 && t.calls >= 0
  }

  predicate ChargesNonNegative(log: Log) {
    log.Append? ==> NonNegative(log.last.charge) && ChargesNonNegative(log.front)
  }

  predicate AtMost(a: Tally, b: Tally) {
    a.input <= b.input && a.output <= b.output && a.total <= b.total && a.calls <= b.calls
  }

  lemma {:induction false} CallSumMonotone(log: Log, k1: set<CallKey>, k2: set<CallKey>)
    requires ChargesNonNegative(log) && k1 <= k2
    ensures NonNegative(CallSum(log, k1)) && AtMost(CallSum(log, k1), CallSum(log, k2))
  {
    if log.Append? {
      CallSumMonotone(log.front, k1, k2);
    }
  }

  lemma {:induction false} LiveShrinks(log: Log, early: int, late: int, tick: Option<Tick>, ticks: set<Tick>)
    requires early <= late
    ensures LiveAmong(log, Some(late), tick, None, ticks) <= LiveAmong(log, Some(early), tick, None, ticks)
  {
    if log.Append? {
      LiveShrinks(log.front, early, late, tick, ticks);
    }
  }

  lemma {:induction false} LiveIgnoresTicks(log: Log, since: Option<int>, tick: Option<Tick>, t1: set<Tick>, t2: set<Tick>)
    ensures LiveAmong(log, since, tick, None, t1) == LiveAmong(log, since, tick, None, t2)
  {
    if log.Append? {
      LiveIgnoresTicks(log.front, since, tick, t1, t2);
    }
  }

  /** Totals only shrink as the window starts later; so the hour never exceeds the day. */
  lemma LaterWindowNeverLarger(log: Log, early: int, late: int, tick: Option<Tick>)
    requires WellFormed(log) && ChargesNonNegative(log) && early <= late
    ensures var u, v := UsageOf(log, Some(late), tick, None), UsageOf(log, Some(early), tick, None);
            AtMost(u, v)
  {
    DeduplicatedAccounting(log, Some(late), tick, None);
    DeduplicatedAccounting(log, Some(early), tick, None);
    var none: set<Tick> := {};
    LiveIgnoresTicks(log, Some(late), tick, none, NamingTicks(log, Some(late), tick, None));
    LiveIgnoresTicks(log, Some(early), tick, none, NamingTicks(log, Some(early), tick, None));
    LiveShrinks(log, early, late, tick, none);
    CallSumMonotone(log, LiveCalls(log, Some(late), tick, None), LiveCalls(log, Some(early), tick, None));
  }
}
