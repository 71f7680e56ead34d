/**
  The scheduler loop and its backoff, over whole runs.

  Ticks start only through the loop, are serialized, and end in one of the three
  ways that write `next_allowed_epoch`, or succeed, or are cut short.  A failing tick
  first counts the failure, later reads the clock again and writes the checkpoint.
 */
module Backoff {
  import opened Prelude
  import opened Failures

  datatype Config = Config(base: int, maximum: int, pause: int, threshold: int)

  predicate ValidConfig(c: Config) { c.base > 0 && c.maximum > 0 && c.pause >= c.base && c.threshold >= 1 }

  function Pow2(n: nat): nat { if n == 0 then 1 else 2 * Pow2(n - 1) }

  /** Seconds to wait after the k-th identical failure. */
  function Delay(c: Config, k: nat): int {
    Min(c.maximum, c.base * Pow2(if k == 0 then 0 else k - 1))
  }

  function TotalDelay(c: Config, k: nat): int {
    if k == 0 then 0 else TotalDelay(c, k - 1) + Delay(c, k)
  }

  // ---------- the loop ----------

  datatype Phase = Waiting | Ticking | Counted(fp: Fingerprint, count: nat)

  /** `first` and `latest` are the times of the first and the latest failure of each
      fingerprint since its last reset. */
  datatype State = State(failures: Table, nextAllowed: Option<real>, clock: real, phase: Phase,
                         first: map<Fingerprint, real>, latest: map<Fingerprint, real>)

  datatype Step =
    | Advance(to: real)
    | StartTick
    | Succeed
    | Escape
    | Wait(delay: int)
    | CountFailure(fp: Fingerprint, scope: Scope)
    | WriteBackoff
    | Unquarantine(fp: Fingerprint)

  /** The guard of the loop body. */
  predicate MayTick(s: State) {
    !HostQuarantined(s.failures) && (s.nextAllowed.None? || s.nextAllowed.value <= s.clock)
  }

  predicate Legal(c: Config, s: State, e: Step) {
    match e
    case Advance(to) => s.clock <= to
    case StartTick => s.phase.Waiting? && MayTick(s)
    case Succeed => s.phase.Ticking?
    // an exception no handler catches, or a crash, before a failure is counted
    case Escape => s.phase.Ticking?
    // a safety pause waits `pause` seconds, a transient dependency `base`
    case Wait(delay) => s.phase.Ticking? && (delay == c.base || delay == c.pause)
    case CountFailure(_, _) => s.phase.Ticking?
    case WriteBackoff => s.phase.Counted?
    case Unquarantine(_) => true
  }

  function Apply(c: Config, s: State, e: Step): State {
    match e
    case Advance(to) => s.(clock := to)
    case StartTick => s.(phase := Ticking)
    case Succeed => s.(phase := Waiting)
    case Escape => s.(phase := Waiting)
    case Wait(delay) => s.(nextAllowed := Some(s.clock + delay as real), phase := Waiting)
    case CountFailure(fp, scope) =>
      var t := Recorded(s.failures, fp, scope, c.threshold);
      s.(failures := t, phase := Counted(fp, CountOf(t, fp)),
         first := if CountOf(s.failures, fp) == 0 then s.first[fp := s.clock] else s.first,
         latest := s.latest[fp := s.clock])
    case WriteBackoff =>
      if s.phase.Counted? then s.(nextAllowed := Some(s.clock + Delay(c, s.phase.count) as real), phase := Waiting) else s
    case Unquarantine(fp) => s.(failures := Failures.Cleared(s.failures, fp))
  }

  predicate LegalRun(c: Config, s: State, steps: seq<Step>)
    decreases |steps|
  {
    steps == [] || (Legal(c, s, steps[0]) && LegalRun(c, Apply(c, s, steps[0]), steps[1..]))
  }

  function Run(c: Config, s: State, steps: seq<Step>): State
    decreases |steps|
  {
    if steps == [] then s else Run(c, Apply(c, s, steps[0]), steps[1..])
  }

  lemma {:induction false} Continue(c: Config, s: State, steps: seq<Step>, more: seq<Step>)
    requires LegalRun(c, s, steps) && LegalRun(c, Run(c, s, steps), more)
    ensures LegalRun(c, s, steps + more) && Run(c, s, steps + more) == Run(c, Run(c, s, steps), more)
    decreases |steps|
  {
    if steps == [] {
      assert steps + more == more;
    } else {
      Continue(c, Apply(c, s, steps[0]), steps[1..], more);
      assert (steps + more)[1..] == steps[1..] + more;
    }
  }

  lemma {:induction false} Split(c: Config, s: State, steps: seq<Step>, more: seq<Step>)
    requires LegalRun(c, s, steps + more)
    ensures LegalRun(c, s, steps) && LegalRun(c, Run(c, s, steps), more)
    ensures Run(c, s, steps + more) == Run(c, Run(c, s, steps), more)
    decreases |steps|
  {
    if steps == [] {
      assert steps + more == more;
    } else {
      assert (steps + more)[1..] == steps[1..] + more;
      Split(c, Apply(c, s, steps[0]), steps[1..], more);
    }
  }

  function Start(clock: real): State { State(map[], None, clock, Waiting, map[], map[]) }

  // ---------- the invariant ----------

  predicate Allowed(s: State, at: real) { s.nextAllowed.Some? && at <= s.nextAllowed.value }

  /** A fingerprint counted k times has kept the loop waiting for its first k delays;
      the last of them is still to be written while the tick is being closed. */
  predicate Backed(c: Config, s: State, fp: Fingerprint) {
    var k := CountOf(s.failures, fp);
    k > 0 ==>
      && fp in s.first && fp in s.latest && s.latest[fp] <= s.clock
      && s.first[fp] + TotalDelay(c, k - 1) as real <= s.latest[fp]
      && (s.phase == Counted(fp, k) || Allowed(s, s.first[fp] + TotalDelay(c, k) as real))
  }

  ghost predicate Inv(c: Config, s: State) {
    && (forall fp :: Backed(c, s, fp))
    && (!s.phase.Waiting? && s.nextAllowed.Some? ==> s.nextAllowed.value <= s.clock)
    && (s.phase.Counted? ==> s.phase.count >= 1 && CountOf(s.failures, s.phase.fp) in {0, s.phase.count})
  }

  lemma DelayPositive(c: Config, k: nat)
    requires ValidConfig(c)
    ensures Delay(c, k) > 0
  {
    var n := if k == 0 then 0 else k - 1;
    Pow2Positive(n);
    ProductPositive(c.base, Pow2(n));
  }

  lemma ProductPositive(a: int, b: int)
    requires a > 0 && b > 0
    ensures a * b > 0
  {
  }

  lemma {:induction false} Pow2Positive(n: nat)
    ensures Pow2(n) >= 1
  {
    if n > 0 {
      Pow2Positive(n - 1);
    }
  }

  /** Every write moves the checkpoint forward, strictly. */
  lemma CheckpointIncreases(c: Config, s: State, e: Step)
    requires ValidConfig(c) && Inv(c, s) && Legal(c, s, e)
    requires s.nextAllowed.Some? && (e.Wait? || e.WriteBackoff?)
    ensures Apply(c, s, e).nextAllowed.Some? && s.nextAllowed.value < Apply(c, s, e).nextAllowed.value
  {
    if e.WriteBackoff? {
      DelayPositive(c, s.phase.count);
    }
  }

  lemma WriteKeeps(c: Config, s: State, e: Step)
    requires ValidConfig(c) && Inv(c, s) && Legal(c, s, e) && (e.Wait? || e.WriteBackoff?)
    ensures Inv(c, Apply(c, s, e))
  {
    var t := Apply(c, s, e);
    if s.nextAllowed.Some? {
      CheckpointIncreases(c, s, e);
    }
    forall fp
      ensures Backed(c, t, fp)
    {
      assert Backed(c, s, fp);
    }
  }

  lemma CountKeeps(c: Config, s: State, fp: Fingerprint, scope: Scope)
    requires ValidConfig(c) && Inv(c, s) && Legal(c, s, CountFailure(fp, scope))
    ensures Inv(c, Apply(c, s, CountFailure(fp, scope)))
  {
    var t := Apply(c, s, CountFailure(fp, scope));
    forall f
      ensures Backed(c, t, f)
    {
      assert Backed(c, s, f);
    }
  }

  lemma ClearKeeps(c: Config, s: State, fp: Fingerprint)
    requires Inv(c, s)
    ensures Inv(c, Apply(c, s, Unquarantine(fp)))
  {
    var t := Apply(c, s, Unquarantine(fp));
    forall f
      ensures Backed(c, t, f)
    {
      assert Backed(c, s, f);
    }
  }

  lemma QuietKeeps(c: Config, s: State, e: Step)
    requires Inv(c, s) && Legal(c, s, e) && (e.Advance? || e.StartTick? || e.Succeed? || e.Escape?)
    ensures Inv(c, Apply(c, s, e))
  {
    var t := Apply(c, s, e);
    forall f
      ensures Backed(c, t, f)
    {
      assert Backed(c, s, f);
    }
  }

  lemma InvStep(c: Config, s: State, e: Step)
    requires ValidConfig(c) && Inv(c, s) && Legal(c, s, e)
    ensures Inv(c, Apply(c, s, e))
  {
    match e
    case Wait(_) => WriteKeeps(c, s, e);
    case WriteBackoff => WriteKeeps(c, s, e);
    case CountFailure(fp, scope) => CountKeeps(c, s, fp, scope);
    case Unquarantine(fp) => ClearKeeps(c, s, fp);
    case _ => QuietKeeps(c, s, e);
  }

  lemma {:induction false} InvRun(c: Config, s: State, steps: seq<Step>)
    requires ValidConfig(c) && Inv(c, s) && LegalRun(c, s, steps)
    ensures Inv(c, Run(c, s, steps))
    decreases |steps|
  {
    if steps != [] {
      InvStep(c, s, steps[0]);
      InvRun(c, Apply(c, s, steps[0]), steps[1..]);
    }
  }

  // ---------- main results ----------

  /** The k-th failure of a fingerprint since its last reset comes at least the sum of
      the first k - 1 delays after the first one. */
  lemma KthFailureIsLate(c: Config, clock: real, steps: seq<Step>, fp: Fingerprint)
    requires ValidConfig(c) && LegalRun(c, Start(clock), steps)
    requires CountOf(Run(c, Start(clock), steps).failures, fp) > 0
    ensures var s := Run(c, Start(clock), steps);
            && fp in s.first && fp in s.latest
            && s.latest[fp] - s.first[fp] >= TotalDelay(c, CountOf(s.failures, fp) - 1) as real
  {
    InvRun(c, Start(clock), steps);
    assert Backed(c, Run(c, Start(clock), steps), fp);
  }

  /** Over a whole run the checkpoint never moves back. */
  lemma {:induction false} CheckpointNeverMovesBack(c: Config, s: State, steps: seq<Step>)
    requires ValidConfig(c) && Inv(c, s) && LegalRun(c, s, steps)
    ensures s.nextAllowed.Some? ==> Run(c, s, steps).nextAllowed.Some?
                                    && s.nextAllowed.value <= Run(c, s, steps).nextAllowed.value
    decreases |steps|
  {
    if steps != [] {
      var e := steps[0];
      InvStep(c, s, e);
      if s.nextAllowed.Some? && (e.Wait? || e.WriteBackoff?) {
        CheckpointIncreases(c, s, e);
      }
      CheckpointNeverMovesBack(c, Apply(c, s, e), steps[1..]);
    }
  }

  /** While a tick runs the checkpoint is not ahead of the clock: no tick starts early. */
  lemma NoTickStartsEarly(c: Config, clock: real, steps: seq<Step>)
    requires ValidConfig(c) && LegalRun(c, Start(clock), steps)
    ensures var s := Run(c, Start(clock), steps);
            s.phase.Ticking? && s.nextAllowed.Some? ==> s.nextAllowed.value <= s.clock
  {
    InvRun(c, Start(clock), steps);
  }

  /** How many of the first `k` delays the maximum does not cut. */
  function Uncapped(c: Config, k: nat): nat {
    if k == 0 then 0 else Uncapped(c, k - 1) + if c.base * Pow2(k - 1) <= c.maximum then 1 else 0
  }

  /** The uncut delays come first. */
  lemma {:induction false} UncappedComeFirst(c: Config, k: nat)
    requires ValidConfig(c)
    ensures Uncapped(c, k) <= k
    ensures Uncapped(c, k) > 0 ==> c.base * Pow2(Uncapped(c, k) - 1) <= c.maximum
    ensures Uncapped(c, k) < k ==> c.base * Pow2(Uncapped(c, k)) > c.maximum
  {
    if k > 0 {
      UncappedComeFirst(c, k - 1);
      if Uncapped(c, k - 1) < k - 1 {
        CappedFrom(c, Uncapped(c, k - 1), k - 1);
      }
    }
  }

  /** The sum in closed form: doubling delays while they are uncut, then the maximum. */
  lemma TotalDelayClosedForm(c: Config, k: nat)
    requires ValidConfig(c)
    ensures var u := Uncapped(c, k);
            u <= k && TotalDelay(c, k) == c.base * (Pow2(u) - 1) + (k - u) * c.maximum
  {
    UncappedComeFirst(c, k);
    TotalDelayFor(c, k, Uncapped(c, k));
  }

  lemma {:induction false} TotalDelayFor(c: Config, k: nat, u: nat)
    requires ValidConfig(c) && u <= k
    requires u > 0 ==> c.base * Pow2(u - 1) <= c.maximum
    requires u < k ==> c.base * Pow2(u) > c.maximum
    ensures TotalDelay(c, k) == c.base * (Pow2(u) - 1) + (k - u) * c.maximum
    decreases k
  {
    if k > u {
      TotalDelayCapped(c, k, u);
    } else if k > 0 {
      if u > 1 {
        UncappedBelow(c, u - 1);
      }
      TotalDelayFor(c, k - 1, u - 1);
      assert c.base * (Pow2(u) - 1) == c.base * (Pow2(u - 1) - 1) + c.base * Pow2(u - 1);
    }
  }

  lemma TotalDelayCapped(c: Config, k: nat, u: nat)
    requires ValidConfig(c) && u < k && c.base * Pow2(u) > c.maximum
    requires u > 0 ==> c.base * Pow2(u - 1) <= c.maximum
    ensures TotalDelay(c, k) == c.base * (Pow2(u) - 1) + (k - u) * c.maximum
    decreases k, 0
  {
    CappedFrom(c, u, k - 1);
    assert Delay(c, k) == c.maximum;
    TotalDelayFor(c, k - 1, u);
    assert (k - u) * c.maximum == (k - 1 - u) * c.maximum + c.maximum;
  }

  lemma UncappedBelow(c: Config, u: nat)
    requires ValidConfig(c) && u > 0 && c.base * Pow2(u) <= c.maximum
    ensures c.base * Pow2(u - 1) <= c.maximum
  {
    assert c.base * Pow2(u) == 2 * (c.base * Pow2(u - 1));
  }

  lemma {:induction false} CappedFrom(c: Config, u: nat, n: nat)
    requires ValidConfig(c) && u <= n && c.base * Pow2(u) > c.maximum
    ensures c.base * Pow2(n) > c.maximum
    decreases n
  {
    if u < n {
      CappedFrom(c, u, n - 1);
      assert c.base * Pow2(n) == 2 * (c.base * Pow2(n - 1));
    }
  }
}
