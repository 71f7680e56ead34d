/**
  `Supervisor.loop`: rounds of recovery and ticks, as runs of the backoff machine.

  A round recovers, may find a failure reset by an operator, and ticks if it is allowed
  to.  An exception that escapes recovery or a tick escapes the loop as well; the next
  loop goes on from there.
 */
module Schedulers {
  import opened Prelude
  import opened TickRules
  import opened TickLog
  import opened Supervisors
  import Backoff
  import Failures
  import Runs

  /** One round: the clock at its start, what recovery reads, the failure an operator may
      have reset, and what the tick meets. */
  datatype Round = Round(now: real, reapAt: real, judgedAt: RunId -> int, alive: set<Runs.Pid>, saw: RecoveryAnswer,
                         cleared: Option<Failures.Fingerprint>, env: Env, ids: Ids)

  /** Recovery raised, or no tick was due, or a tick was tried. */
  datatype RoundEnd = Lost | NotDue | Ran(outcome: Outcome)

  predicate EscapesLoop(e: RoundEnd) { e.Lost? || e == Ran(Ended(Escaped)) }

  predicate InTime(r: Round) { r.now <= r.env.countedAt <= r.env.closedAt }

  /** The ids are new and the steps of others are those of others. */
  ghost predicate Usable(r: Round, rows: Runs.Table, others: iset<TickId>) {
    && r.ids.run != r.ids.review && r.ids.run !in rows && r.ids.review !in rows && r.ids.tick !in others
    && Foreign(r.env.during, others) && Foreign(r.env.duringReview, others)
  }

  predicate Disjoint(r: Round, q: Round) { {r.ids.run, r.ids.review} !! {q.ids.run, q.ids.review} }

  // ---------- the steps of one round ----------

  function Opening(r: Round): seq<Backoff.Step> {
    if r.cleared.Some? then [Backoff.Advance(r.now), Backoff.Unquarantine(r.cleared.value)] else [Backoff.Advance(r.now)]
  }

  function Reset(failures: Failures.Table, r: Round): Failures.Table {
    if r.cleared.Some? then Failures.Cleared(failures, r.cleared.value) else failures
  }

  /** What still holds the loop up after the reset: a quarantined host failure that was not
      the one reset. */
  lemma HeldUpBy(t: Failures.Table, r: Round)
    ensures Failures.HostQuarantined(Reset(t, r))
       <==> exists fp :: fp in t && t[fp].quarantined && t[fp].scope == Failures.Host && r.cleared != Some(fp)
  {
    if Failures.HostQuarantined(Reset(t, r)) {
      var fp :| fp in Reset(t, r) && Reset(t, r)[fp].quarantined && Reset(t, r)[fp].scope.Host?;
      assert t[fp] == Reset(t, r)[fp];
    }
    if fp :| fp in t && t[fp].quarantined && t[fp].scope == Failures.Host && r.cleared != Some(fp) {
      assert Reset(t, r)[fp] == t[fp];
    }
  }

  function Opened(s: Backoff.State, r: Round): Backoff.State {
    s.(clock := r.now, failures := Reset(s.failures, r))
  }

  lemma OpeningRuns(b: Backoff.Config, s: Backoff.State, r: Round)
    requires s.clock <= r.now
    ensures Backoff.LegalRun(b, s, Opening(r)) && Backoff.Run(b, s, Opening(r)) == Opened(s, r)
  {
    var s1 := Backoff.Apply(b, s, Backoff.Advance(r.now));
    if r.cleared.Some? {
      assert Opening(r)[1..] == [Backoff.Unquarantine(r.cleared.value)];
      OneStep(b, s1, Backoff.Unquarantine(r.cleared.value));
    } else {
      assert Opening(r)[1..] == [];
    }
  }

  lemma OneStep(b: Backoff.Config, s: Backoff.State, e: Backoff.Step)
    requires Backoff.Legal(b, s, e)
    ensures Backoff.LegalRun(b, s, [e]) && Backoff.Run(b, s, [e]) == Backoff.Apply(b, s, e)
  {
    assert [e][1..] == [];
  }

  lemma TwoSteps(b: Backoff.Config, s: Backoff.State, e: Backoff.Step, f: Backoff.Step)
    requires Backoff.Legal(b, s, e) && Backoff.Legal(b, Backoff.Apply(b, s, e), f)
    ensures Backoff.LegalRun(b, s, [e, f]) && Backoff.Run(b, s, [e, f]) == Backoff.Apply(b, Backoff.Apply(b, s, e), f)
  {
    assert [e, f][1..] == [f];
    OneStep(b, Backoff.Apply(b, s, e), f);
  }

  /** How a tick ends, for the scheduler. */
  function EndSteps(c: Config, ending: Ending, x: Exc, env: Env): seq<Backoff.Step> {
    match ending
    case Finished => [Backoff.Succeed]
    case Paused => [Backoff.Advance(env.closedAt), Backoff.Wait(BackoffOf(c).pause)]
    case OutOfBudget => [Backoff.Advance(env.closedAt), Backoff.Wait(BackoffOf(c).pause)]
    case Waiting => [Backoff.Advance(env.closedAt), Backoff.Wait(c.retryBase)]
    case Failed => [Backoff.Advance(env.countedAt), Backoff.CountFailure(c.fingerprint(x.message), ScopeOf(x))]
                   + [Backoff.Advance(env.closedAt), Backoff.WriteBackoff]
    case Escaped => [Backoff.Escape]
  }

  /** The scheduler remembers when a failure was counted, and the first time since its reset. */
  predicate Dated(s: Backoff.State, t: Backoff.State, failed: bool, fp: Failures.Fingerprint, at: real) {
    && t.latest == (if failed then s.latest[fp := at] else s.latest)
    && t.first == (if failed && Failures.CountOf(s.failures, fp) == 0 then s.first[fp := at] else s.first)
  }

  /** What a tick remembers is what those steps do. */
  lemma TickRefinesScheduler(c: Config, ending: Ending, x: Exc, env: Env, s: Backoff.State)
    requires s.phase.Ticking? && s.clock <= env.countedAt <= env.closedAt
    ensures var b, steps := BackoffOf(c), EndSteps(c, ending, x, env);
            var t := Backoff.Run(b, s, steps);
            && Backoff.LegalRun(b, s, steps) && t.clock <= env.closedAt && t.phase.Waiting?
            && t.failures == (if ending.Failed? then Failures.Recorded(s.failures, c.fingerprint(x.message), ScopeOf(x), c.threshold) else s.failures)
            && t.nextAllowed == Postponed(s.nextAllowed, env.closedAt, Penalty(c, ending, x, t.failures))
            && Dated(s, t, ending.Failed?, c.fingerprint(x.message), env.countedAt)
  {
    var b := BackoffOf(c);
    match ending
    case Finished => OneStep(b, s, Backoff.Succeed);
    case Escaped => OneStep(b, s, Backoff.Escape);
    case Failed =>
      var first := [Backoff.Advance(env.countedAt), Backoff.CountFailure(c.fingerprint(x.message), ScopeOf(x))];
      var second := [Backoff.Advance(env.closedAt), Backoff.WriteBackoff];
      TwoSteps(b, s, first[0], first[1]);
      TwoSteps(b, Backoff.Run(b, s, first), second[0], second[1]);
      Backoff.Continue(b, s, first, second);
    case _ =>
      var steps := EndSteps(c, ending, x, env);
      TwoSteps(b, s, steps[0], steps[1]);
      assert steps == [steps[0], steps[1]];
  }

  function FaultOf(c: Config, env: Env, recovery: Option<Checkpoint>): Exc {
    var fault := Fault(c, env, recovery);
    if fault.Some? then fault.value else Exc(Unlisted, Given(0))
  }

  function RoundSteps(c: Config, r: Round, end: RoundEnd, x: Exc): seq<Backoff.Step> {
    match end
    case Lost => []
    case NotDue => Opening(r)
    case Ran(Busy) => Opening(r)
    case Ran(Ended(ending)) => Opening(r) + ([Backoff.StartTick] + EndSteps(c, ending, x, r.env))
  }

  /** The state a tick of the round finds. */
  function Base(s: Backoff.State, r: Round, end: RoundEnd): Backoff.State { if end.Lost? then s else Opened(s, r) }

  /** The scheduler may play this round: it waits, time has not gone back, and a tick is
      tried only if no host failure is quarantined and the retry time has come. */
  predicate Playable(s: Backoff.State, r: Round, end: RoundEnd) {
    s.phase.Waiting? && s.clock <= r.now && InTime(r) && (end.Ran? ==> Backoff.MayTick(Opened(s, r)))
  }

  function FailuresAfter(c: Config, failures: Failures.Table, end: RoundEnd, x: Exc): Failures.Table {
    if end == Ran(Ended(Failed)) then Failures.Recorded(failures, c.fingerprint(x.message), ScopeOf(x), c.threshold)
    else failures
  }

  function RetryAfter(c: Config, before: Option<real>, r: Round, end: RoundEnd, x: Exc, failures: Failures.Table): Option<real> {
    if end.Ran? && end.outcome.Ended? then Postponed(before, r.env.closedAt, Penalty(c, end.outcome.ending, x, failures))
    else before
  }

  lemma RoundRefinesScheduler(c: Config, s: Backoff.State, r: Round, end: RoundEnd, x: Exc)
    requires Playable(s, r, end)
    ensures var b, steps, o := BackoffOf(c), RoundSteps(c, r, end, x), Base(s, r, end);
            var t := Backoff.Run(b, s, steps);
            && Backoff.LegalRun(b, s, steps) && t.clock <= r.env.closedAt && t.phase.Waiting?
            && t.failures == FailuresAfter(c, o.failures, end, x) && t.nextAllowed == RetryAfter(c, s.nextAllowed, r, end, x, t.failures)
            && Dated(o, t, end == Ran(Ended(Failed)), c.fingerprint(x.message), r.env.countedAt)
  {
    if !end.Lost? {
      OpeningRuns(BackoffOf(c), s, r);
    }
    if end.Ran? && end.outcome.Ended? {
      TickedRoundRefines(c, s, r, end.outcome.ending, x);
    }
  }

  lemma TickedRoundRefines(c: Config, s: Backoff.State, r: Round, ending: Ending, x: Exc)
    requires s.phase.Waiting? && s.clock <= r.now && InTime(r) && Backoff.MayTick(Opened(s, r))
    ensures var b, steps := BackoffOf(c), RoundSteps(c, r, Ran(Ended(ending)), x);
            var t, o := Backoff.Run(b, s, steps), Opened(s, r);
            && Backoff.LegalRun(b, s, steps) && t.clock <= r.env.closedAt && t.phase.Waiting?
            && t.failures == FailuresAfter(c, o.failures, Ran(Ended(ending)), x)
            && t.nextAllowed == Postponed(s.nextAllowed, r.env.closedAt, Penalty(c, ending, x, t.failures))
            && Dated(o, t, ending.Failed?, c.fingerprint(x.message), r.env.countedAt)
  {
    var b, o := BackoffOf(c), Opened(s, r);
    var ticking := Backoff.Apply(b, o, Backoff.StartTick);
    var end := EndSteps(c, ending, x, r.env);
    OpeningRuns(b, s, r);
    OneStep(b, o, Backoff.StartTick);
    TickRefinesScheduler(c, ending, x, r.env, ticking);
    Backoff.Continue(b, o, [Backoff.StartTick], end);
    Backoff.Continue(b, s, Opening(r), [Backoff.StartTick] + end);
  }

  // ---------- the story of a loop ----------

  /** One round as it was played: how it ended, the checkpoint its tick found, the fault of
      the tick, and the state of the scheduler before and after. */
  datatype Played = Played(round: Round, end: RoundEnd, found: Option<Checkpoint>, fault: Exc,
                           before: Backoff.State, after: Backoff.State)

  function StepsOf(c: Config, p: Played): seq<Backoff.Step> { RoundSteps(c, p.round, p.end, p.fault) }

  predicate Plays(c: Config, p: Played) {
    Playable(p.before, p.round, p.end) && p.after == Backoff.Run(BackoffOf(c), p.before, StepsOf(c, p))
  }

  /** Fault and ending are those of the tick's environment. */
  predicate Explained(c: Config, p: Played) {
    && p.fault == FaultOf(c, p.round.env, p.found)
    && (p.end.Ran? && p.end.outcome.Ended? ==> p.end.outcome.ending == EndingOf(c, p.round.env, p.found))
  }

  /** The rounds follow one another from the state `s` on. */
  predicate Story(c: Config, s: Backoff.State, story: seq<Played>) {
    && (story != [] ==> story[0].before == s)
    && (forall i :: 0 <= i < |story| ==> Plays(c, story[i]))
    && (forall i, j :: 0 <= i < |story| && j == i + 1 && j < |story| ==> story[i].after == story[j].before)
  }

  function EndOf(s: Backoff.State, story: seq<Played>): Backoff.State {
    if story == [] then s else story[|story| - 1].after
  }

  lemma StoryGoesOn(c: Config, s: Backoff.State, story: seq<Played>, p: Played)
    requires Story(c, s, story) && Plays(c, p) && p.before == EndOf(s, story)
    ensures Story(c, s, story + [p]) && EndOf(s, story + [p]) == p.after
  {
  }

  /** The story of these rounds, as far as it goes. */
  ghost predicate Told(c: Config, rounds: seq<Round>, s: Backoff.State, story: seq<Played>) {
    && |story| <= |rounds| && Story(c, s, story)
    && forall i :: 0 <= i < |story| ==> story[i].round == rounds[i] && Explained(c, story[i])
  }

  predicate NoEscape(story: seq<Played>) { forall i :: 0 <= i < |story| ==> !EscapesLoop(story[i].end) }

  /** Nothing escapes before the end of the story. */
  predicate Unbroken(story: seq<Played>) { forall i :: 0 <= i < |story| - 1 ==> !EscapesLoop(story[i].end) }

  lemma ToldGoesOn(c: Config, rounds: seq<Round>, s: Backoff.State, story: seq<Played>, p: Played)
    requires Told(c, rounds, s, story) && |story| < |rounds| && p.round == rounds[|story|]
    requires Plays(c, p) && Explained(c, p) && p.before == EndOf(s, story)
    ensures Told(c, rounds, s, story + [p]) && EndOf(s, story + [p]) == p.after
  {
    StoryGoesOn(c, s, story, p);
  }

  // ---------- the loop ----------

  /** The failures and the retry time of the supervisor are those of the state `s`, which
      the backoff machine reaches by `past`. */
  ghost predicate Tracks(sup: Supervisor, began: real, past: seq<Backoff.Step>, s: Backoff.State)
    reads sup, sup.failures
  {
    && Backoff.LegalRun(BackoffOf(sup.c), Backoff.Start(began), past)
    && s == Backoff.Run(BackoffOf(sup.c), Backoff.Start(began), past)
    && s.failures == sup.failures.rows && s.nextAllowed == sup.nextAllowed
  }

  /** It waits, at the latest since `until`. */
  ghost predicate Waits(sup: Supervisor, began: real, past: seq<Backoff.Step>, s: Backoff.State, until: real)
    reads sup, sup.failures
  {
    Tracks(sup, began, past, s) && s.phase.Waiting? && s.clock <= until
  }

  ghost predicate OthersHold(sup: Supervisor)
    reads sup.leases
  {
    forall r :: r in sup.leases.rows ==> sup.leases.rows[r].owner in sup.others
  }

  /** One round, with its entry in the story; the tick finds the checkpoint that recovery
      saved if it abandoned a run. */
  method RunRound(sup: Supervisor, timeout: int, r: Round, ghost began: real, ghost past: seq<Backoff.Step>, ghost s: Backoff.State)
    returns (end: RoundEnd, ghost p: Played)
    requires Waits(sup, began, past, s, r.now) && InTime(r)
    requires Usable(r, sup.runs.rows, sup.others) && OthersHold(sup)
    modifies sup, sup.leases, sup.failures, sup.runs
    ensures Plays(sup.c, p) && Explained(sup.c, p) && p.round == r && p.end == end && p.before == s
    ensures p.found == Found(old(sup.runs.rows), timeout, r.judgedAt, r.saw, old(sup.recovery))
    ensures end.Lost? <==> r.saw.Escapes? && Runs.StaleRuns(old(sup.runs.rows), timeout, r.judgedAt) != {}
    ensures Waits(sup, began, past + StepsOf(sup.c, p), p.after, r.env.closedAt)
    ensures OthersHold(sup) && sup.runs.rows.Keys <= old(sup.runs.rows).Keys + {r.ids.run, r.ids.review}
  {
    ghost var found := Found(sup.runs.rows, timeout, r.judgedAt, r.saw, sup.recovery);
    ghost var x := FaultOf(sup.c, r.env, found);
    var recovered, hung, ok := sup.Recover(r.reapAt, timeout, r.judgedAt, r.alive, r.saw);
    end := Lost;
    if ok {
      end := TickIfDue(sup, r, x);
    }
    p := Entry(sup.c, began, past, s, r, end, found, x);
  }

  /** The entry of a round in the story, which prolongs the run of the backoff machine. */
  lemma Entry(c: Config, began: real, past: seq<Backoff.Step>, s: Backoff.State, r: Round, end: RoundEnd,
              found: Option<Checkpoint>, x: Exc) returns (p: Played)
    requires Playable(s, r, end) && Backoff.LegalRun(BackoffOf(c), Backoff.Start(began), past)
    requires s == Backoff.Run(BackoffOf(c), Backoff.Start(began), past)
    ensures Plays(c, p) && p.round == r && p.end == end && p.before == s && p.found == found && p.fault == x
    ensures Backoff.LegalRun(BackoffOf(c), Backoff.Start(began), past + StepsOf(c, p))
    ensures p.after == Backoff.Run(BackoffOf(c), Backoff.Start(began), past + StepsOf(c, p))
    ensures p.after.phase.Waiting? && p.after.clock <= r.env.closedAt
    ensures p.after.failures == FailuresAfter(c, Base(s, r, end).failures, end, x)
    ensures p.after.nextAllowed == RetryAfter(c, s.nextAllowed, r, end, x, p.after.failures)
  {
    RoundRefinesScheduler(c, s, r, end, x);
    var steps := RoundSteps(c, r, end, x);
    Backoff.Continue(BackoffOf(c), Backoff.Start(began), past, steps);
    p := Played(r, end, found, x, s, Backoff.Run(BackoffOf(c), s, steps));
  }

  /** The round after recovery: an operator's reset, then the guarded tick. */
  method TickIfDue(sup: Supervisor, r: Round, ghost x: Exc) returns (end: RoundEnd)
    requires Usable(r, sup.runs.rows, sup.others) && OthersHold(sup) && x == FaultOf(sup.c, r.env, sup.recovery)
    modifies sup, sup.leases, sup.failures, sup.runs
    ensures !end.Lost? && OthersHold(sup) && sup.runs.rows.Keys <= old(sup.runs.rows).Keys + {r.ids.run, r.ids.review}
    ensures end.Ran? <==> !Failures.HostQuarantined(Reset(old(sup.failures.rows), r))
                          && (old(sup.nextAllowed).None? || old(sup.nextAllowed).value <= r.now)
    ensures end.Ran? <==>
              && (forall fp :: fp in old(sup.failures.rows) && old(sup.failures.rows)[fp].quarantined
                               ==> old(sup.failures.rows)[fp].scope == Failures.Work || r.cleared == Some(fp))
              && (old(sup.nextAllowed).None? || old(sup.nextAllowed).value <= r.now)
    ensures end.Ran? && end.outcome.Ended? ==> end.outcome.ending == EndingOf(sup.c, r.env, old(sup.recovery))
    ensures sup.failures.rows == FailuresAfter(sup.c, Reset(old(sup.failures.rows), r), end, x)
    ensures sup.nextAllowed == RetryAfter(sup.c, old(sup.nextAllowed), r, end, x, sup.failures.rows)
  {
    HeldUpBy(sup.failures.rows, r);
    if r.cleared.Some? {
      var changed := sup.failures.Unquarantine(r.cleared.value);
    }
    ghost var before := Memory(sup.recovery, sup.nextAllowed, sup.failures.rows);
    var outcome := sup.LoopOnce(r.now, r.env, r.ids);
    if outcome.None? {
      return NotDue;
    }
    end := Ran(outcome.value);
    if end.outcome.Ended? {
      MemoryIsEffect(sup, r, end.outcome.ending, x, before);
    }
  }

  lemma MemoryIsEffect(sup: Supervisor, r: Round, ending: Ending, x: Exc, before: Memory)
    requires sup.Remembered(r.env, ending, before) && ending == EndingOf(sup.c, r.env, before.recovery)
    requires x == FaultOf(sup.c, r.env, before.recovery)
    ensures sup.failures.rows == FailuresAfter(sup.c, before.failures, Ran(Ended(ending)), x)
    ensures sup.nextAllowed == RetryAfter(sup.c, before.nextAllowed, r, Ran(Ended(ending)), x, sup.failures.rows)
  {
  }

  /** `loop`, until an exception escapes or there are no more rounds: the story says how
      every round ended; failures and retry time are those of its last state, which a
      legal run of the backoff machine reaches. */
  method Loop(sup: Supervisor, timeout: int, rounds: seq<Round>,
              ghost began: real, ghost past: seq<Backoff.Step>, ghost s: Backoff.State, ghost from: real)
    returns (escaped: bool, ghost story: seq<Played>, ghost done: seq<Backoff.Step>)
    requires Waits(sup, began, past, s, from) && OthersHold(sup)
    requires forall i :: 0 <= i < |rounds| ==> from <= rounds[i].now && InTime(rounds[i]) && Usable(rounds[i], sup.runs.rows, sup.others)
    requires forall i, j :: 0 <= i < j < |rounds| ==> rounds[i].env.closedAt <= rounds[j].now && Disjoint(rounds[i], rounds[j])
    modifies sup, sup.leases, sup.failures, sup.runs
    ensures Told(sup.c, rounds, s, story) && Unbroken(story)
    ensures past <= done && Waits(sup, began, done, EndOf(s, story), if story == [] then from else story[|story| - 1].round.env.closedAt)
    ensures if escaped then story != [] && EscapesLoop(story[|story| - 1].end) else |story| == |rounds|
  {
    escaped, story, done := false, [], past;
    ghost var until := from;
    for i := 0 to |rounds|
      invariant !escaped && |story| == i && past <= done && OthersHold(sup)
      invariant Told(sup.c, rounds, s, story) && NoEscape(story)
      invariant Waits(sup, began, done, EndOf(s, story), until)
      invariant until == if i == 0 then from else rounds[i - 1].env.closedAt
      invariant forall j :: i <= j < |rounds| ==> until <= rounds[j].now && Usable(rounds[j], sup.runs.rows, sup.others)
    {
      var end;
      end, story, done := NextRound(sup, timeout, rounds, i, s, story, began, done, until);
      until := rounds[i].env.closedAt;
      if EscapesLoop(end) {
        return true, story, done;
      }
    }
  }

  /** One more round of the story. */
  method NextRound(sup: Supervisor, timeout: int, rounds: seq<Round>, i: nat, ghost s: Backoff.State, ghost story: seq<Played>,
                   ghost began: real, ghost past: seq<Backoff.Step>, ghost from: real)
    returns (end: RoundEnd, ghost longer: seq<Played>, ghost done: seq<Backoff.Step>)
    requires i == |story| < |rounds| && InTime(rounds[i]) && Told(sup.c, rounds, s, story) && NoEscape(story)
    requires Waits(sup, began, past, EndOf(s, story), from) && OthersHold(sup)
    requires forall j :: i <= j < |rounds| ==> from <= rounds[j].now && Usable(rounds[j], sup.runs.rows, sup.others)
    requires forall j :: i < j < |rounds| ==> rounds[i].env.closedAt <= rounds[j].now && Disjoint(rounds[i], rounds[j])
    modifies sup, sup.leases, sup.failures, sup.runs
    ensures |longer| == i + 1 && story <= longer && longer[i].end == end && Told(sup.c, rounds, s, longer)
    ensures Unbroken(longer) && (!EscapesLoop(end) ==> NoEscape(longer))
    ensures past <= done && Waits(sup, began, done, EndOf(s, longer), rounds[i].env.closedAt) && OthersHold(sup)
    ensures forall j :: i < j < |rounds| ==> rounds[i].env.closedAt <= rounds[j].now && Usable(rounds[j], sup.runs.rows, sup.others)
  {
    ghost var before := sup.runs.rows;
    ghost var p;
    end, p := RunRound(sup, timeout, rounds[i], began, past, EndOf(s, story));
    ToldGoesOn(sup.c, rounds, s, story, p);
    longer, done := story + [p], past + StepsOf(sup.c, p);
    StayUsable(rounds, i, before, sup.runs.rows, sup.others);
  }

  lemma StayUsable(rounds: seq<Round>, i: nat, before: Runs.Table, now: Runs.Table, others: iset<TickId>)
    requires i < |rounds| && forall j :: i < j < |rounds| ==> Disjoint(rounds[i], rounds[j])
    requires forall j :: i <= j < |rounds| ==> Usable(rounds[j], before, others)
    requires now.Keys <= before.Keys + {rounds[i].ids.run, rounds[i].ids.review}
    ensures forall j :: i < j < |rounds| ==> Usable(rounds[j], now, others)
  {
    forall j | i < j < |rounds|
      ensures Usable(rounds[j], now, others)
    {
      assert Disjoint(rounds[i], rounds[j]) && Usable(rounds[j], before, others);
    }
  }

  /** A new supervisor starts the empty run. */
  lemma NewSupervisorTracks(sup: Supervisor, began: real)
    requires sup.failures.rows == map[] && sup.nextAllowed.None?
    ensures Waits(sup, began, [], Backoff.Start(began), began)
  {
  }

  /** Whatever the supervisor did before, its state keeps the backoff invariant. */
  lemma TrackedIsLawful(sup: Supervisor, began: real, past: seq<Backoff.Step>, s: Backoff.State)
    requires Tracks(sup, began, past, s) && Backoff.ValidConfig(BackoffOf(sup.c))
    ensures Backoff.Inv(BackoffOf(sup.c), s)
  {
    Backoff.InvRun(BackoffOf(sup.c), Backoff.Start(began), past);
  }

  // ---------- the backoff laws, in the times of the rounds ----------

  lemma {:induction false} LawfulRounds(c: Config, s: Backoff.State, story: seq<Played>, i: nat)
    requires Backoff.ValidConfig(BackoffOf(c)) && Backoff.Inv(BackoffOf(c), s) && Story(c, s, story) && i < |story|
    ensures Backoff.Inv(BackoffOf(c), story[i].before) && Backoff.Inv(BackoffOf(c), story[i].after)
  {
    if i > 0 {
      LawfulRounds(c, s, story, i - 1);
    }
    var p := story[i];
    assert Plays(c, p);
    RoundRefinesScheduler(c, p.before, p.round, p.end, p.fault);
    Backoff.InvRun(BackoffOf(c), p.before, StepsOf(c, p));
  }

  /** From round to round the retry time never moves back. */
  lemma {:induction false} RetryTimeNeverMovesBack(c: Config, s: Backoff.State, story: seq<Played>, i: nat, j: nat)
    requires Backoff.ValidConfig(BackoffOf(c)) && Backoff.Inv(BackoffOf(c), s) && Story(c, s, story) && i < j < |story|
    requires story[i].after.nextAllowed.Some?
    ensures story[j].before.nextAllowed.Some? && story[i].after.nextAllowed.value <= story[j].before.nextAllowed.value
  {
    if i + 1 < j {
      RetryTimeNeverMovesBack(c, s, story, i, j - 1);
      LawfulRounds(c, s, story, j - 1);
      var p := story[j - 1];
      assert Plays(c, p);
      RoundRefinesScheduler(c, p.before, p.round, p.end, p.fault);
      Backoff.CheckpointNeverMovesBack(BackoffOf(c), p.before, StepsOf(c, p));
    }
  }

  /** After a tick that closed with a penalty no later round ticks before it is served. */
  lemma PenaltyIsServed(c: Config, s: Backoff.State, story: seq<Played>, i: nat, j: nat)
    requires Backoff.ValidConfig(BackoffOf(c)) && Backoff.Inv(BackoffOf(c), s) && Story(c, s, story) && i < j < |story|
    requires story[i].end.Ran? && story[i].end.outcome.Ended? && story[j].end.Ran?
    ensures var p := story[i];
            var penalty := Penalty(c, p.end.outcome.ending, p.fault, p.after.failures);
            penalty.Some? ==> p.round.env.closedAt + penalty.value as real <= story[j].round.now
    ensures var p := story[i];
            match p.end.outcome.ending
            case Finished => true
            case Escaped => true
            case Waiting => p.round.env.closedAt + c.retryBase as real <= story[j].round.now
            case Failed =>
              var count := Failures.CountOf(p.after.failures, c.fingerprint(p.fault.message));
              p.round.env.closedAt + Backoff.Delay(BackoffOf(c), count) as real <= story[j].round.now
            case _ =>
              && p.round.env.closedAt + c.retryBase as real <= story[j].round.now
              && p.round.env.closedAt + c.loopSeconds as real <= story[j].round.now
  {
    var p := story[i];
    assert Plays(c, p) && Plays(c, story[j]);
    RoundRefinesScheduler(c, p.before, p.round, p.end, p.fault);
    if Penalty(c, p.end.outcome.ending, p.fault, p.after.failures).Some? {
      RetryTimeNeverMovesBack(c, s, story, i, j);
    }
  }

  /** The round counted a failure of this fingerprint. */
  predicate Fails(c: Config, p: Played, fp: Failures.Fingerprint) {
    p.end == Ran(Ended(Failed)) && c.fingerprint(p.fault.message) == fp
  }

  /** How often `fp` had failed since its last reset when the round's tick was due. */
  function CountBefore(p: Played, fp: Failures.Fingerprint): nat {
    Failures.CountOf(Base(p.before, p.round, p.end).failures, fp)
  }

  /** Round `i` counts the first failure; it is not reset up to round `j`. */
  predicate CountsFrom(c: Config, story: seq<Played>, i: nat, j: nat, fp: Failures.Fingerprint)
    requires i <= j < |story|
  {
    Fails(c, story[i], fp) && CountBefore(story[i], fp) == 0 && forall m :: i < m <= j ==> CountBefore(story[m], fp) > 0
  }

  lemma {:induction false} FirstFailureIsKept(c: Config, s: Backoff.State, story: seq<Played>, i: nat, j: nat, fp: Failures.Fingerprint)
    requires Story(c, s, story) && i <= j < |story| && CountsFrom(c, story, i, j, fp)
    ensures fp in story[j].after.first && story[j].after.first[fp] == story[i].round.env.countedAt
    decreases j
  {
    var p := story[j];
    assert Plays(c, p);
    RoundRefinesScheduler(c, p.before, p.round, p.end, p.fault);
    if i < j {
      FirstFailureIsKept(c, s, story, i, j - 1, fp);
    }
  }

  /** If round `i` counts the first failure of a fingerprint and round `j` a later one, the
      k-th, without a reset in between, then at least the first k - 1 delays lie between the
      times at which they were counted. */
  lemma FailuresAreSpaced(c: Config, s: Backoff.State, story: seq<Played>, i: nat, j: nat, fp: Failures.Fingerprint)
    requires Backoff.ValidConfig(BackoffOf(c)) && Backoff.Inv(BackoffOf(c), s) && Story(c, s, story)
    requires i <= j < |story| && CountsFrom(c, story, i, j, fp) && Fails(c, story[j], fp)
    ensures story[j].round.env.countedAt - story[i].round.env.countedAt
         >= Backoff.TotalDelay(BackoffOf(c), CountBefore(story[j], fp)) as real
    ensures Failures.CountOf(story[j].after.failures, fp) == CountBefore(story[j], fp) + 1
  {
    var p := story[j];
    assert Plays(c, p);
    RoundRefinesScheduler(c, p.before, p.round, p.end, p.fault);
    FirstFailureIsKept(c, s, story, i, j, fp);
    LawfulRounds(c, s, story, j);
    assert Backoff.Backed(BackoffOf(c), p.after, fp);
  }
}
