/**
  Reconcile-before-mutate: `IdempotentOperationRunner.ensure` and the operation
  journal, for one operation key.

  Every ledger call and every callback is one step, and the process may die between
  any two steps.  Calls on one key are serialized; calls on other keys touch other
  rows and other events.
 */
module Operations {
  import opened Prelude

  type Id = nat
  type Evidence = nat
  datatype Status = Pending | Completed | Failed
  datatype Row = Row(status: Status, externalId: Option<Id>, evidence: Option<Evidence>)

  /** Where the running call stands; `id` is what its last reconcile reported. */
  datatype Point =
    | Idle
    | Looking
    | FoundBegin(id: Id)
    | FoundComplete(id: Id)
    | FoundAnnounce
    | NewBegin
    | Mutating
    | AfterEffect
    | Confirming
    | Completing(id: Id)
    | Announcing
    | Interrupting

  /** The journal row and keyed events of the operation, the remote side (`present`
      is the id of the effect if it exists) and how often `mutate` took effect. */
  datatype State = State(row: Option<Row>, present: Option<Id>, effects: nat,
                         reconciledEvent: bool, completedEvent: bool, interruptedEvent: bool, at: Point)

  datatype Mutation = TakesEffect(id: Id) | TakesEffectThenRaises(id: Id) | RaisesWithoutEffect | ReturnsWithoutEffect

  datatype Step =
    | Read
    | Look(raises: bool)
    | Insert
    | Complete(evidence: Evidence)
    | Announce
    | Mutate(m: Mutation)
    | After(raises: bool)
    | Confirm(raises: bool)
    | Interrupt
    | Crash
    | FailRow(evidence: Evidence)

  predicate IsCompleted(s: State) { s.row.Some? && s.row.value.status.Completed? }

  predicate Legal(s: State, e: Step) {
    match e
    case Read => s.at.Idle?
    case Look(_) => s.at.Looking?
    case Insert => s.at.FoundBegin? || s.at.NewBegin?
    case Complete(_) => s.at.FoundComplete? || s.at.Completing?
    case Announce => s.at.FoundAnnounce? || s.at.Announcing?
    case Mutate(_) => s.at.Mutating?
    case After(_) => s.at.AfterEffect?
    case Confirm(_) => s.at.Confirming?
    case Interrupt => s.at.Interrupting?
    case Crash => true
    case FailRow(_) => true
  }

  function Apply(s: State, e: Step): State {
    match e
    case Read => s.(at := if IsCompleted(s) then Idle else Looking)
    case Look(raises) =>
      s.(at := if raises then Idle else if s.present.Some? then FoundBegin(s.present.value) else NewBegin)
    case Insert =>
      s.(row := if s.row.None? then Some(Row(Pending, None, None)) else s.row,
         at := if s.at.FoundBegin? then FoundComplete(s.at.id) else Mutating)
    case Complete(evidence) =>
      if s.at.FoundComplete? then s.(row := Some(Row(Completed, Some(s.at.id), Some(evidence))), at := FoundAnnounce)
      else if s.at.Completing? then s.(row := Some(Row(Completed, Some(s.at.id), Some(evidence))), at := Announcing)
      else s
    case Announce =>
      if s.at.FoundAnnounce? then s.(reconciledEvent := true, at := Idle) else s.(completedEvent := true, at := Idle)
    case Mutate(m) =>
      (match m
       case TakesEffect(id) => s.(present := Some(id), effects := s.effects + 1, at := AfterEffect)
       case TakesEffectThenRaises(id) => s.(present := Some(id), effects := s.effects + 1, at := Interrupting)
       case RaisesWithoutEffect => s.(at := Interrupting)
       case ReturnsWithoutEffect => s.(at := AfterEffect))
    case After(raises) => s.(at := if raises then Interrupting else Confirming)
    case Confirm(raises) =>
      s.(at := if raises || s.present.None? then Interrupting else Completing(s.present.value))
    case Interrupt => s.(interruptedEvent := true, at := Idle)
    case Crash => s.(at := Idle)
    case FailRow(evidence) =>
      if s.row.Some? && !IsCompleted(s) then s.(row := Some(Row(Failed, s.row.value.externalId, Some(evidence)))) else s
  }

  predicate LegalRun(s: State, steps: seq<Step>) {
    steps == [] || (LegalRun(s, steps[..|steps| - 1]) && Legal(Run(s, steps[..|steps| - 1]), steps[|steps| - 1]))
  }

  function Run(s: State, steps: seq<Step>): State {
    if steps == [] then s else Apply(Run(s, steps[..|steps| - 1]), steps[|steps| - 1])
  }

  /** Nothing recorded yet; the remote side may already hold the effect. */
  predicate Fresh(s: State) {
    s.row.None? && s.effects == 0 && !s.reconciledEvent && !s.completedEvent && s.at.Idle?
  }

  lemma Extend(s: State, steps: seq<Step>, e: Step)
    requires LegalRun(s, steps) && Legal(Run(s, steps), e)
    ensures LegalRun(s, steps + [e]) && Run(s, steps + [e]) == Apply(Run(s, steps), e)
  {
    assert (steps + [e])[..|steps|] == steps;
  }

  // ---------- the invariant ----------

  predicate Absent(s: State) { s.present.None? && s.effects == 0 }

  predicate Inv(s: State) {
    && s.effects <= 1
    && (s.effects == 1 ==> s.present.Some? && s.row.Some?)
    && (IsCompleted(s) ==> s.present.Some? && s.row.value.externalId == s.present && s.row.value.evidence.Some?)
    && (s.reconciledEvent || s.completedEvent ==> IsCompleted(s))
    && !(s.reconciledEvent && s.completedEvent)
    && match s.at
       case Idle => true
       case Looking => !IsCompleted(s)
       case FoundBegin(id) => !IsCompleted(s) && s.present == Some(id)
       case FoundComplete(id) => !IsCompleted(s) && s.present == Some(id) && s.row.Some?
       case FoundAnnounce => IsCompleted(s) && !s.reconciledEvent && !s.completedEvent
       case NewBegin => !IsCompleted(s) && Absent(s)
       case Mutating => !IsCompleted(s) && Absent(s) && s.row.Some?
       case AfterEffect => !IsCompleted(s) && s.row.Some?
       case Confirming => !IsCompleted(s) && s.row.Some?
       case Completing(id) => !IsCompleted(s) && s.present == Some(id) && s.row.Some?
       case Announcing => IsCompleted(s) && !s.reconciledEvent && !s.completedEvent
       case Interrupting => !IsCompleted(s) && s.row.Some?
  }

  lemma InvStep(s: State, e: Step)
    requires Inv(s) && Legal(s, e)
    ensures Inv(Apply(s, e))
  {
  }

  lemma {:induction false} InvRun(s: State, steps: seq<Step>)
    requires Inv(s) && LegalRun(s, steps)
    ensures Inv(Run(s, steps))
  {
    if steps != [] {
      InvRun(s, steps[..|steps| - 1]);
      InvStep(Run(s, steps[..|steps| - 1]), steps[|steps| - 1]);
    }
  }

  // ---------- main results ----------

  /** However often calls crash, raise and are repeated, the remote effect happens at
      most once. */
  lemma AtMostOneEffect(s: State, steps: seq<Step>)
    requires Fresh(s) && LegalRun(s, steps)
    ensures Run(s, steps).effects <= 1
    ensures s.present.Some? ==> Run(s, steps).effects == 0
  {
    InvRun(s, steps);
    if s.present.Some? {
      ExistingEffectIsNotRepeated(s, steps);
    }
  }

  lemma {:induction false} ExistingEffectIsNotRepeated(s: State, steps: seq<Step>)
    requires Fresh(s) && s.present.Some? && LegalRun(s, steps)
    ensures Run(s, steps).effects == 0 && Run(s, steps).present == s.present && Inv(Run(s, steps))
  {
    if steps != [] {
      ExistingEffectIsNotRepeated(s, steps[..|steps| - 1]);
      InvStep(Run(s, steps[..|steps| - 1]), steps[|steps| - 1]);
    }
  }

  /** Journal and remote side agree in every crash state. */
  lemma JournalAgreement(s: State, steps: seq<Step>)
    requires Fresh(s) && LegalRun(s, steps)
    ensures var t := Run(s, steps);
            && (t.effects == 1 ==> t.row.Some?)
            && (IsCompleted(t) ==> t.present.Some? && t.row.value.externalId == t.present)
            && !(t.reconciledEvent && t.completedEvent)
            && (t.completedEvent ==> IsCompleted(t) && t.present.Some?)
  {
    InvRun(s, steps);
  }

  /** A completed row never changes again. */
  lemma {:induction false} CompletedRowIsFinal(s: State, more: seq<Step>)
    requires Inv(s) && IsCompleted(s) && LegalRun(s, more)
    ensures Run(s, more).row == s.row && Inv(Run(s, more))
  {
    if more != [] {
      CompletedRowIsFinal(s, more[..|more| - 1]);
      InvStep(Run(s, more[..|more| - 1]), more[|more| - 1]);
    }
  }

  // ---------- the runner itself ----------

  /** What the environment answers during one call, and after how many steps the
      process dies. */
  datatype Env = Env(lookRaises: bool, found: Evidence, mutation: Mutation, afterRaises: bool,
                     confirmRaises: bool, confirmed: Evidence, lifetime: nat)

  datatype Outcome = Returned(externalId: Option<Id>, reconciled: bool) | Raised | Died

  predicate Faultless(env: Env) {
    !env.lookRaises && env.mutation.TakesEffect? && !env.afterRaises && !env.confirmRaises && env.lifetime >= 8
  }

  class Runner {
    var state: State
    var left: nat
    ghost var history: seq<Step>
    ghost const origin: State

    ghost predicate Valid()
      reads this
    {
      Fresh(origin) && LegalRun(origin, history) && state == Run(origin, history) && Inv(state)
    }

    constructor (present: Option<Id>)
      ensures Valid() && history == [] && state.present == present
    {
      var s := State(None, present, 0, false, false, false, Idle);
      state, left, origin, history := s, 0, s, [];
    }

    /** One atomic step, unless the process dies before it. */
    method Do(e: Step) returns (alive: bool)
      requires Valid() && Legal(state, e)
      modifies this
      ensures Valid() && old(history) <= history
      ensures alive == (old(left) > 0) && left == (if alive then old(left) - 1 else 0)
      ensures state == Apply(old(state), if alive then e else Crash)
    {
      alive := left > 0;
      var taken := if alive then e else Crash;
      Extend(origin, history, taken);
      InvStep(state, taken);
      history := history + [taken];
      state := Apply(state, taken);
      left := if alive then left - 1 else 0;
    }

    /** `ensure`: each run of it, cut short anywhere, extends the history by legal
        steps of the protocol and leaves the key idle; a faultless one completes. */
    method Ensure(env: Env) returns (outcome: Outcome)
      requires Valid() && state.at.Idle?
      modifies this
      ensures Valid() && old(history) <= history && state.at.Idle?
      ensures outcome.Returned? ==> IsCompleted(state) && outcome.externalId == state.row.value.externalId
      ensures outcome.Returned? && !outcome.reconciled ==> state.effects == 1 && old(state).effects == 0
      ensures IsCompleted(old(state)) ==> state == old(state)
      ensures IsCompleted(old(state)) && env.lifetime > 0 ==> outcome == Returned(old(state).row.value.externalId, true)
      ensures !IsCompleted(old(state)) && env.lookRaises && env.lifetime > 1 ==> outcome.Raised? && state == old(state)
      // a failed attempt is journalled and leaves the row pending, or as it was
      ensures outcome.Raised? && !env.lookRaises ==>
                state.interruptedEvent && state.row == (if old(state).row.Some? then old(state).row else Some(Row(Pending, None, None)))
      // a success is announced by the event of its kind, with the evidence of the look that saw the effect
      ensures outcome.Returned? && !outcome.reconciled ==>
                && state.completedEvent && !state.reconciledEvent && state.row.value.evidence == Some(env.confirmed)
                && env.mutation == TakesEffect(state.row.value.externalId.value) && !env.afterRaises && !env.confirmRaises
      ensures outcome.Returned? && outcome.reconciled && !IsCompleted(old(state)) ==>
                && state.reconciledEvent && !state.completedEvent && state.row.value.evidence == Some(env.found)
                && state.effects == old(state).effects && outcome.externalId == old(state).present
      ensures env.lifetime >= 8 ==> !outcome.Died?
      ensures outcome.Raised? ==> !Faultless(env)
      ensures Faultless(env) ==> outcome.Returned?
    {
      left := env.lifetime;
      var previous := state.row;
      var alive := Do(Read);
      if !alive { return Died; }
      if previous.Some? && previous.value.status.Completed? {
        return Returned(previous.value.externalId, true);
      }
      alive := Do(Look(env.lookRaises));
      if !alive { return Died; }
      if env.lookRaises { return Raised; }
      outcome := AfterLook(env);
    }

    /** What follows a first look that did not raise. */
    method AfterLook(env: Env) returns (outcome: Outcome)
      requires Valid() && (state.at.FoundBegin? || state.at.NewBegin?)
      modifies this
      ensures Valid() && old(history) <= history && state.at.Idle?
      ensures outcome.Returned? ==>
                IsCompleted(state) && outcome == Returned(state.row.value.externalId, old(state).at.FoundBegin?)
      ensures outcome.Returned? && old(state).at.FoundBegin? ==>
                && state.reconciledEvent && !state.completedEvent && state.row.value.evidence == Some(env.found)
                && state.effects == old(state).effects && outcome.externalId == old(state).present
      ensures outcome.Returned? && old(state).at.NewBegin? ==>
                && state.completedEvent && !state.reconciledEvent && state.row.value.evidence == Some(env.confirmed)
                && state.effects == 1 && old(state).effects == 0
                && env.mutation == TakesEffect(state.row.value.externalId.value) && !env.afterRaises && !env.confirmRaises
      ensures outcome.Raised? ==>
                && state.interruptedEvent && !Faultless(env)
                && state.row == (if old(state).row.Some? then old(state).row else Some(Row(Pending, None, None)))
      ensures old(left) >= 6 ==> !outcome.Died?
      ensures Faultless(env) && old(left) >= 6 ==> outcome.Returned?
    {
      var alive := Do(Insert);
      if !alive { return Died; }
      if state.at.FoundComplete? {
        outcome := Record(env.found, true);
      } else {
        outcome := MutateAndConfirm(env);
      }
    }

    /** Complete the journal row and announce it. */
    method Record(evidence: Evidence, reconciled: bool) returns (outcome: Outcome)
      requires Valid() && (state.at.FoundComplete? || state.at.Completing?)
      modifies this
      ensures Valid() && old(history) <= history && state.at.Idle? && state.effects == old(state).effects
      ensures outcome.Died? || (outcome == Returned(Some(old(state).at.id), reconciled) && IsCompleted(state)
                                && state.row.value.externalId == outcome.externalId)
      ensures outcome.Returned? ==>
                && state.row.value.evidence == Some(evidence)
                && (if old(state).at.FoundComplete? then state.reconciledEvent else state.completedEvent)
      ensures old(left) >= 2 ==> outcome.Returned?
    {
      var id := state.at.id;
      var alive := Do(Complete(evidence));
      if !alive { return Died; }
      alive := Do(Announce);
      if !alive { return Died; }
      return Returned(Some(id), reconciled);
    }

    /** Mutate, then confirm by reconciling again; any exception is journalled and re-raised. */
    method MutateAndConfirm(env: Env) returns (outcome: Outcome)
      requires Valid() && state.at.Mutating?
      modifies this
      ensures Valid() && old(history) <= history && state.at.Idle?
      ensures outcome.Returned? ==> !outcome.reconciled && IsCompleted(state) && state.effects == 1
                                    && outcome.externalId == state.row.value.externalId
      ensures outcome.Returned? ==>
                && state.completedEvent && !state.reconciledEvent && state.row.value.evidence == Some(env.confirmed)
                && env.mutation == TakesEffect(state.row.value.externalId.value) && !env.afterRaises && !env.confirmRaises
      ensures outcome.Raised? ==> state.interruptedEvent && state.row == old(state).row && !Faultless(env)
      ensures old(left) >= 5 ==> !outcome.Died?
      ensures Faultless(env) && old(left) >= 5 ==> outcome.Returned?
    {
      var alive := Do(Mutate(env.mutation));
      if !alive { return Died; }
      if state.at.AfterEffect? {
        outcome := ConfirmEffect(env);
      } else {
        outcome := JournalInterruption();
      }
    }

    method ConfirmEffect(env: Env) returns (outcome: Outcome)
      requires Valid() && state.at.AfterEffect? && (state.present.Some? ==> state.effects == 1)
      modifies this
      ensures Valid() && old(history) <= history && state.at.Idle?
      ensures outcome.Returned? ==> !outcome.reconciled && IsCompleted(state) && state.effects == 1
                                    && outcome.externalId == state.row.value.externalId
      ensures outcome.Returned? ==>
                && state.completedEvent && !state.reconciledEvent && state.row.value.evidence == Some(env.confirmed)
                && old(state).present == state.row.value.externalId && !env.afterRaises && !env.confirmRaises
      ensures outcome.Raised? ==>
                && state.interruptedEvent && state.row == old(state).row
                && (env.afterRaises || env.confirmRaises || old(state).present.None?)
      ensures old(left) >= 4 ==> !outcome.Died?
      ensures Faultless(env) && old(state).present.Some? && old(left) >= 4 ==> outcome.Returned?
    {
      var alive := Do(After(env.afterRaises));
      if !alive { return Died; }
      if state.at.Confirming? {
        alive := Do(Confirm(env.confirmRaises));
        if !alive { return Died; }
      }
      if state.at.Completing? {
        outcome := Record(env.confirmed, false);
      } else {
        outcome := JournalInterruption();
      }
    }

    method JournalInterruption() returns (outcome: Outcome)
      requires Valid() && state.at.Interrupting?
      modifies this
      ensures Valid() && old(history) <= history && state.at.Idle? && !outcome.Returned?
      ensures outcome.Raised? <==> old(left) > 0
      ensures outcome.Raised? ==> state.interruptedEvent && state.row == old(state).row
      ensures state.present == old(state).present && state.effects == old(state).effects
    {
      var alive := Do(Interrupt);
      outcome := if alive then Raised else Died;
    }
  }
}
