/**
  The run table: the transitions that processes interleave, and crash recovery.

  Recovery selects the active rows once and then judges them one by one, each against
  the clock of that moment; terminating a hung process takes time in between.
 */
module Runs {
  import opened Prelude

  type RunId = nat
  type Pid = nat
  datatype Status = Starting | Running | Succeeded | Failed | Abandoned
  datatype Row = Row(status: Status, pid: Option<Pid>, heartbeat: int, exitCode: Option<int>)
  type Table = map<RunId, Row>

  predicate ActiveRow(r: Row) { r.status.Starting? || r.status.Running? }

  predicate Active(t: Table, id: RunId) { id in t && ActiveRow(t[id]) }

  predicate Terminal(t: Table, id: RunId) { id in t && !ActiveRow(t[id]) }

  // ---------- what one transaction does to the table ----------

  /** The primary key refuses a second row for the same run. */
  function Started(t: Table, id: RunId, now: int): Table {
    if id in t then t else t[id := Row(Starting, None, now, None)]
  }

  function Launched(t: Table, id: RunId, pid: Pid, now: int): Table {
    if id in t && t[id].status.Starting? then t[id := t[id].(status := Running, pid := Some(pid), heartbeat := now)] else t
  }

  function Beaten(t: Table, id: RunId, now: int): Table {
    if Active(t, id) then t[id := t[id].(heartbeat := now)] else t
  }

  /** `finish_run` has no guard on the status it replaces. */
  function Finished(t: Table, id: RunId, status: Status, code: int, now: int): Table {
    if id in t then t[id := t[id].(status := status, exitCode := Some(code), heartbeat := now)] else t
  }

  function FailedActive(t: Table, id: RunId, now: int): Table {
    if Active(t, id) then Finished(t, id, Failed, -1, now) else t
  }

  // ---------- recovery ----------

  predicate Stale(r: Row, timeout: int, now: int) { ActiveRow(r) && now - r.heartbeat > timeout }

  predicate StaleAt(t: Table, id: RunId, timeout: int, clock: RunId -> int) { id in t && Stale(t[id], timeout, clock(id)) }

  function StaleRuns(t: Table, timeout: int, clock: RunId -> int): set<RunId> {
    set id | id in t && StaleAt(t, id, timeout, clock)
  }

  /** The table after every selected run but those in `todo` was judged, `id` at the
      time `clock(id)`. */
  function RecoveredBut(t: Table, timeout: int, clock: RunId -> int, todo: set<RunId>): Table {
    map id | id in t ::
      if id !in todo && StaleAt(t, id, timeout, clock)
      then t[id].(status := Abandoned, exitCode := Some(-1), heartbeat := clock(id))
      else t[id]
  }

  function Recovered(t: Table, timeout: int, clock: RunId -> int): Table { RecoveredBut(t, timeout, clock, {}) }

  predicate ProcessAlive(r: Row, alive: set<Pid>) { r.pid.Some? && r.pid.value in alive }

  function HungRuns(t: Table, timeout: int, clock: RunId -> int, alive: set<Pid>): set<RunId> {
    set id | id in t && StaleAt(t, id, timeout, clock) && ProcessAlive(t[id], alive)
  }

  /** The list holds exactly the members of the set, each once. */
  ghost predicate Lists(ids: seq<RunId>, members: set<RunId>) {
    && (forall id :: id in ids <==> id in members)
    && (forall i, j :: 0 <= i < j < |ids| ==> ids[i] != ids[j])
  }

  /** One run less to judge: the list grows by it if it belongs to the set. */
  lemma ListsOneMore(ids: seq<RunId>, members: set<RunId>, todo: set<RunId>, id: RunId)
    requires Lists(ids, members - todo) && id in todo
    ensures Lists(if id in members then ids + [id] else ids, members - (todo - {id}))
  {
  }

  lemma JudgeOne(t: Table, timeout: int, clock: RunId -> int, todo: set<RunId>, id: RunId)
    requires id in t && id in todo
    ensures RecoveredBut(t, timeout, clock, todo - {id})
         == if StaleAt(t, id, timeout, clock)
            then RecoveredBut(t, timeout, clock, todo)[id := t[id].(status := Abandoned, exitCode := Some(-1), heartbeat := clock(id))]
            else RecoveredBut(t, timeout, clock, todo)
  {
  }

  class RunTable {
    var rows: Table

    constructor ()
      ensures rows == map[]
    {
      rows := map[];
    }

    method StartRun(id: RunId, now: int) returns (ok: bool)
      modifies this
      ensures ok == (id !in old(rows)) && rows == Started(old(rows), id, now)
      ensures rows == if ok then old(rows)[id := Row(Starting, None, now, None)] else old(rows)
    {
      ok := id !in rows;
      if ok {
        rows := rows[id := Row(Starting, None, now, None)];
      }
    }

    method SetRunRunning(id: RunId, pid: Pid, now: int)
      modifies this
      ensures rows == Launched(old(rows), id, pid, now)
      ensures rows == if id in old(rows) && old(rows)[id].status == Starting
                      then old(rows)[id := Row(Running, Some(pid), now, old(rows)[id].exitCode)] else old(rows)
    {
      if id in rows && rows[id].status.Starting? {
        rows := rows[id := rows[id].(status := Running, pid := Some(pid), heartbeat := now)];
      }
    }

    method HeartbeatRun(id: RunId, now: int)
      modifies this
      ensures rows == Beaten(old(rows), id, now)
      ensures rows == if id in old(rows) && old(rows)[id].status in {Starting, Running}
                      then old(rows)[id := old(rows)[id].(heartbeat := now)] else old(rows)
    {
      if id in rows && ActiveRow(rows[id]) {
        rows := rows[id := rows[id].(heartbeat := now)];
      }
    }

    method FinishRun(id: RunId, status: Status, code: int, now: int)
      modifies this
      ensures rows == Finished(old(rows), id, status, code, now)
      ensures rows == if id in old(rows) then old(rows)[id := Row(status, old(rows)[id].pid, now, Some(code))] else old(rows)
    {
      if id in rows {
        rows := rows[id := rows[id].(status := status, exitCode := Some(code), heartbeat := now)];
      }
    }

    method FailActiveRun(id: RunId, now: int)
      modifies this
      ensures rows == FailedActive(old(rows), id, now)
      ensures rows == if id in old(rows) && old(rows)[id].status in {Starting, Running}
                      then old(rows)[id := Row(Failed, old(rows)[id].pid, now, Some(-1))] else old(rows)
    {
      if id in rows && ActiveRow(rows[id]) {
        rows := rows[id := rows[id].(status := Failed, exitCode := Some(-1), heartbeat := now)];
      }
    }

    /** One selected row against the clock of now. */
    method JudgeRow(id: RunId, item: Row, timeout: int, now: int, alive: set<Pid>) returns (stale: bool, lively: bool)
      requires ActiveRow(item)
      modifies this
      ensures stale == Stale(item, timeout, now) && lively == (stale && ProcessAlive(item, alive))
      ensures rows == if stale then Finished(old(rows), id, Abandoned, -1, now) else old(rows)
      ensures stale <==> now - item.heartbeat > timeout
      ensures lively <==> stale && item.pid.Some? && item.pid.value in alive
    {
      stale, lively := now - item.heartbeat > timeout, false;
      if stale {
        lively := item.pid.Some? && item.pid.value in alive;
        FinishRun(id, Abandoned, -1, now);
      }
    }

    /** `recover`, undisturbed: exactly the stale active runs are abandoned, each
        reported once; those whose process still lived are reported as hung. */
    method Recover(timeout: int, clock: RunId -> int, alive: set<Pid>)
      returns (recovered: seq<RunId>, hung: seq<RunId>)
      modifies this
      ensures rows == Recovered(old(rows), timeout, clock)
      ensures Lists(recovered, StaleRuns(old(rows), timeout, clock))
      ensures Lists(hung, HungRuns(old(rows), timeout, clock, alive))
      ensures forall id :: id in recovered <==>
                id in old(rows) && old(rows)[id].status in {Starting, Running} && clock(id) - old(rows)[id].heartbeat > timeout
      ensures forall id :: id in hung <==> id in recovered && old(rows)[id].pid.Some? && old(rows)[id].pid.value in alive
      ensures rows.Keys == old(rows).Keys
      ensures forall id :: id in rows ==>
                rows[id] == if id in recovered then Row(Abandoned, old(rows)[id].pid, clock(id), Some(-1)) else old(rows)[id]
    {
      ghost var before := rows;
      var selected := map id | id in rows && ActiveRow(rows[id]) :: rows[id];
      var todo := selected.Keys;
      recovered, hung := [], [];
      NothingJudged(before, timeout, clock, alive, todo);
      while todo != {}
        invariant todo <= selected.Keys
        invariant Judged(before, rows, timeout, clock, alive, todo, recovered, hung)
        decreases |todo|
      {
        var id :| id in todo;
        JudgeOne(before, timeout, clock, todo, id);
        ListsOneMore(recovered, StaleRuns(before, timeout, clock), todo, id);
        ListsOneMore(hung, HungRuns(before, timeout, clock, alive), todo, id);
        var isStale, isLively := JudgeRow(id, selected[id], timeout, clock(id), alive);
        if isLively {
          hung := hung + [id];
        }
        if isStale {
          recovered := recovered + [id];
        }
        todo := todo - {id};
      }
      AllJudged(before, rows, timeout, clock, alive, recovered, hung);
    }
  }

  /** Every selected run but those in `todo` has been judged and reported. */
  ghost predicate Judged(before: Table, now: Table, timeout: int, clock: RunId -> int, alive: set<Pid>, todo: set<RunId>,
                         recovered: seq<RunId>, hung: seq<RunId>) {
    && now == RecoveredBut(before, timeout, clock, todo)
    && Lists(recovered, StaleRuns(before, timeout, clock) - todo)
    && Lists(hung, HungRuns(before, timeout, clock, alive) - todo)
  }

  lemma NothingJudged(t: Table, timeout: int, clock: RunId -> int, alive: set<Pid>, todo: set<RunId>)
    requires forall id :: id in t && ActiveRow(t[id]) ==> id in todo
    ensures Judged(t, t, timeout, clock, alive, todo, [], [])
  {
    assert StaleRuns(t, timeout, clock) - todo == {};
    assert HungRuns(t, timeout, clock, alive) - todo == {};
  }

  lemma AllJudged(before: Table, now: Table, timeout: int, clock: RunId -> int, alive: set<Pid>, recovered: seq<RunId>, hung: seq<RunId>)
    requires Judged(before, now, timeout, clock, alive, {}, recovered, hung)
    ensures now == Recovered(before, timeout, clock)
    ensures Lists(recovered, StaleRuns(before, timeout, clock)) && Lists(hung, HungRuns(before, timeout, clock, alive))
    ensures forall id :: id in recovered <==>
              id in before && before[id].status in {Starting, Running} && clock(id) - before[id].heartbeat > timeout
    ensures forall id :: id in hung <==> id in recovered && before[id].pid.Some? && before[id].pid.value in alive
    ensures now.Keys == before.Keys
    ensures forall id :: id in now ==>
              now[id] == if id in recovered then Row(Abandoned, before[id].pid, clock(id), Some(-1)) else before[id]
  {
    assert StaleRuns(before, timeout, clock) - {} == StaleRuns(before, timeout, clock);
    assert HungRuns(before, timeout, clock, alive) - {} == HungRuns(before, timeout, clock, alive);
  }

  /** A second recovery finds exactly what only became stale after the first. */
  lemma RecoverAgain(t: Table, timeout: int, first: RunId -> int, second: RunId -> int)
    ensures StaleRuns(Recovered(t, timeout, first), timeout, second)
         == StaleRuns(t, timeout, second) - StaleRuns(t, timeout, first)
    ensures (forall id :: id in t ==> second(id) <= first(id))
        ==> Recovered(Recovered(t, timeout, first), timeout, second) == Recovered(t, timeout, first)
  {
    var u := Recovered(t, timeout, first);
    forall id | id in t
      ensures StaleAt(u, id, timeout, second) <==> StaleAt(t, id, timeout, second) && !StaleAt(t, id, timeout, first)
    {
    }
  }

  // ---------- any interleaving with any number of recovering processes ----------

  type Proc = nat
  datatype Selection = Selection(rows: Table, at: int)
  datatype State = State(rows: Table, clock: int, selections: map<Proc, Selection>)

  datatype Step =
    | Advance(to: int)
    | Start(id: RunId)
    | Launch(id: RunId, pid: Pid)
    | Beat(id: RunId)
    | Finish(id: RunId, status: Status, code: int)
    | FailActive(id: RunId)
    | Select(p: Proc)
    | Judge(p: Proc, id: RunId)

  predicate Legal(s: State, e: Step) {
    match e
    case Advance(to) => s.clock <= to
    case Finish(_, status, _) => status.Succeeded? || status.Failed?
    case Judge(p, id) => p in s.selections && id in s.selections[p].rows
    case _ => true
  }

  /** The judgement compares the clock of now with the heartbeat of the selection. */
  predicate Condemns(s: State, e: Step, timeout: int) {
    e.Judge? && Legal(s, e) && Stale(s.selections[e.p].rows[e.id], timeout, s.clock)
  }

  function ActiveRows(t: Table): Table { map id | id in t && ActiveRow(t[id]) :: t[id] }

  function Apply(s: State, e: Step, timeout: int): State {
    match e
    case Advance(to) => s.(clock := to)
    case Start(id) => s.(rows := Started(s.rows, id, s.clock))
    case Launch(id, pid) => s.(rows := Launched(s.rows, id, pid, s.clock))
    case Beat(id) => s.(rows := Beaten(s.rows, id, s.clock))
    case Finish(id, status, code) => s.(rows := Finished(s.rows, id, status, code, s.clock))
    case FailActive(id) => s.(rows := FailedActive(s.rows, id, s.clock))
    case Select(p) => s.(selections := s.selections[p := Selection(ActiveRows(s.rows), s.clock)])
    case Judge(_, id) => if Condemns(s, e, timeout) then s.(rows := Finished(s.rows, id, Abandoned, -1, s.clock)) else s
  }

  predicate LegalRun(s: State, steps: seq<Step>, timeout: int)
    decreases |steps|
  {
    steps == [] || (Legal(s, steps[0]) && LegalRun(Apply(s, steps[0], timeout), steps[1..], timeout))
  }

  function Run(s: State, steps: seq<Step>, timeout: int): State
    decreases |steps|
  {
    if steps == [] then s else Run(Apply(s, steps[0], timeout), steps[1..], timeout)
  }

  predicate HasStatus(s: State, id: RunId, status: Status) { id in s.rows && s.rows[id].status == status }

  /** A terminal run is never active again. */
  lemma {:induction false} TerminalNeverActiveAgain(s: State, steps: seq<Step>, timeout: int, id: RunId)
    requires Terminal(s.rows, id) && LegalRun(s, steps, timeout)
    ensures Terminal(Run(s, steps, timeout).rows, id)
    decreases |steps|
  {
    if steps != [] {
      TerminalNeverActiveAgain(Apply(s, steps[0], timeout), steps[1..], timeout, id);
    }
  }

  /** Only its owner's unguarded finish, or a recovery that selected it while it was
      still active, rewrites a terminal row. */
  lemma TerminalRowChangesOnlyByFinish(s: State, e: Step, timeout: int, id: RunId)
    requires Terminal(s.rows, id) && Legal(s, e)
    ensures Apply(s, e, timeout).rows[id] != s.rows[id] ==> (e.Finish? || Condemns(s, e, timeout)) && e.id == id
  {
  }

  /** Recovery overwrites the success of a run that finished after the selection. */
  lemma RecoveryOverwritesASuccess(s: State, p: Proc, id: RunId, timeout: int)
    requires Active(s.rows, id) && s.clock - s.rows[id].heartbeat > timeout
    ensures var steps := [Select(p), Finish(id, Succeeded, 0), Judge(p, id)];
            && LegalRun(s, steps, timeout)
            && HasStatus(Run(s, steps[..2], timeout), id, Succeeded)
            && HasStatus(Run(s, steps, timeout), id, Abandoned)
  {
    var steps := [Select(p), Finish(id, Succeeded, 0), Judge(p, id)];
    var s1 := Apply(s, steps[0], timeout);
    var s2 := Apply(s1, steps[1], timeout);
    var s3 := Apply(s2, steps[2], timeout);
    assert steps[1..][0] == steps[1] && steps[1..][1..] == [steps[2]];
    assert Condemns(s2, steps[2], timeout);
    assert Run(s2, [steps[2]], timeout) == Run(s3, [], timeout) == s3;
    assert LegalRun(s3, [], timeout);
    assert LegalRun(s2, [steps[2]], timeout);
    var prefix := steps[..2];
    assert prefix[0] == steps[0] && prefix[1..] == [steps[1]];
    assert Run(s1, [steps[1]], timeout) == Run(s2, [], timeout) == s2;
  }

  // ---------- which live runs recovery spares ----------

  predicate Beating(s: State, id: RunId, gap: int) { Active(s.rows, id) ==> s.clock - s.rows[id].heartbeat <= gap }

  predicate Quick(s: State, e: Step, delay: int) { e.Judge? && Legal(s, e) ==> s.clock - s.selections[e.p].at <= delay }

  /** While it is active, `id` never lets more than `gap` pass without a heartbeat, and
      every judgement comes at most `delay` after its selection. */
  predicate Punctual(s: State, steps: seq<Step>, timeout: int, id: RunId, gap: int, delay: int)
    decreases |steps|
  {
    && Beating(s, id, gap)
    && (steps == [] || (Quick(s, steps[0], delay) && Punctual(Apply(s, steps[0], timeout), steps[1..], timeout, id, gap, delay)))
  }

  ghost predicate SelectedBeating(s: State, id: RunId, gap: int) {
    forall p :: p in s.selections && id in s.selections[p].rows ==>
      s.selections[p].at - s.selections[p].rows[id].heartbeat <= gap
  }

  function Init(clock: int): State { State(map[], clock, map[]) }

  lemma {:induction false} PunctualRunIsSpared(s: State, steps: seq<Step>, timeout: int, id: RunId, gap: int, delay: int)
    requires LegalRun(s, steps, timeout) && Punctual(s, steps, timeout, id, gap, delay) && gap + delay <= timeout
    requires SelectedBeating(s, id, gap) && !HasStatus(s, id, Abandoned)
    ensures !HasStatus(Run(s, steps, timeout), id, Abandoned)
    decreases |steps|
  {
    if steps != [] {
      var e := steps[0];
      if e.Judge? && e.id == id {
        assert !Condemns(s, e, timeout);
      }
      PunctualRunIsSpared(Apply(s, e, timeout), steps[1..], timeout, id, gap, delay);
    }
  }

  /** The heartbeats go on, but the judgement uses the selected one. */
  lemma {:induction false} SlowJudgementCondemns(s: State, p: Proc, timeout: int, id: RunId, gap: int, delay: int)
    returns (steps: seq<Step>)
    requires gap > 0 && Active(s.rows, id) && Beating(s, id, gap)
    requires p in s.selections && id in s.selections[p].rows && s.clock <= s.selections[p].at + delay
    requires Stale(s.selections[p].rows[id], timeout, s.selections[p].at + delay)
    ensures LegalRun(s, steps, timeout) && Punctual(s, steps, timeout, id, gap, delay)
    ensures HasStatus(Run(s, steps, timeout), id, Abandoned)
    decreases s.selections[p].at + delay - s.clock
  {
    var due := s.selections[p].at + delay;
    if s.clock == due {
      steps := [Judge(p, id)];
      assert Condemns(s, steps[0], timeout) && steps[1..] == [];
    } else {
      var beaten := Apply(s, Beat(id), timeout);
      var later := Advance(Min(s.clock + gap, due));
      var rest := SlowJudgementCondemns(Apply(beaten, later, timeout), p, timeout, id, gap, delay);
      Prepend(beaten, later, rest, timeout, id, gap, delay);
      Prepend(s, Beat(id), [later] + rest, timeout, id, gap, delay);
      steps := [Beat(id)] + ([later] + rest);
    }
  }

  ghost predicate AlwaysSpared(clock: int, timeout: int, id: RunId, gap: int, delay: int) {
    forall steps :: LegalRun(Init(clock), steps, timeout) && Punctual(Init(clock), steps, timeout, id, gap, delay)
                ==> !HasStatus(Run(Init(clock), steps, timeout), id, Abandoned)
  }

  /** A run that keeps beating is safe from recovery under every interleaving if and
      only if the silence timeout covers the heartbeat gap and the time recovery may
      take from selecting the rows to judging this one. */
  lemma SparedIff(clock: int, timeout: int, id: RunId, gap: int, delay: int)
    requires gap > 0 && delay >= 0
    ensures AlwaysSpared(clock, timeout, id, gap, delay) <==> gap + delay <= timeout
  {
    if gap + delay <= timeout {
      forall steps | LegalRun(Init(clock), steps, timeout) && Punctual(Init(clock), steps, timeout, id, gap, delay)
        ensures !HasStatus(Run(Init(clock), steps, timeout), id, Abandoned)
      {
        PunctualRunIsSpared(Init(clock), steps, timeout, id, gap, delay);
      }
    } else {
      var s0 := Init(clock);
      var s1 := Apply(s0, Start(id), timeout);
      var s2 := Apply(s1, Advance(clock + gap), timeout);
      var s3 := Apply(s2, Select(0), timeout);
      var rest := SlowJudgementCondemns(s3, 0, timeout, id, gap, delay);
      Prepend(s2, Select(0), rest, timeout, id, gap, delay);
      Prepend(s1, Advance(clock + gap), [Select(0)] + rest, timeout, id, gap, delay);
      Prepend(s0, Start(id), [Advance(clock + gap)] + ([Select(0)] + rest), timeout, id, gap, delay);
    }
  }

  lemma Prepend(s: State, e: Step, rest: seq<Step>, timeout: int, id: RunId, gap: int, delay: int)
    requires Legal(s, e) && Quick(s, e, delay) && Beating(s, id, gap)
    requires LegalRun(Apply(s, e, timeout), rest, timeout)
    requires Punctual(Apply(s, e, timeout), rest, timeout, id, gap, delay)
    ensures LegalRun(s, [e] + rest, timeout) && Punctual(s, [e] + rest, timeout, id, gap, delay)
    ensures Run(s, [e] + rest, timeout) == Run(Apply(s, e, timeout), rest, timeout)
  {
    var steps := [e] + rest;
    assert steps[0] == e && steps[1..] == rest;
  }
}
