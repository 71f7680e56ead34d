/**
  The lease table and its protocol.

  Each ledger method is one SQLite transaction, so one atomic step.  The caller
  reads the clock before the transaction starts: the stamp a step carries may be
  arbitrarily older than the clock at the moment the step takes effect.
 */
module Leases {
  import opened Prelude

  type Resource = string
  type Owner = string
  datatype Row = Row(owner: Owner, expires: real)
  type Table = map<Resource, Row>

  // ---------- what one transaction does to the table ----------

  predicate Free(t: Table, r: Resource, stamp: real) {
    r in t ==> t[r].expires <= stamp
  }

  predicate Renewable(t: Table, r: Resource, o: Owner, stamp: real) {
    r in t && t[r].owner == o && stamp < t[r].expires
  }

  predicate Owned(t: Table, r: Resource, o: Owner) {
    r in t && t[r].owner == o
  }

  function Expired(t: Table, stamp: real): Table {
    map r | r in t && t[r].expires <= stamp :: t[r]
  }

  class LeaseTable {
    var rows: Table

    constructor ()
      ensures rows == map[]
    {
      rows := map[];
    }

    method AcquireLease(r: Resource, o: Owner, now: real, ttl: real) returns (ok: bool)
      modifies this
      ensures ok == Free(old(rows), r, now)
      ensures ok <==> r !in old(rows) || old(rows)[r].expires <= now
      ensures ok ==> rows == old(rows)[r := Row(o, now + ttl)]
      ensures !ok ==> rows == old(rows)
      ensures forall s: State :: s.rows == old(rows) ==> Apply(s, Acquire(r, o, now, ttl)).rows == rows
    {
      var before := rows;
      if r in rows && rows[r].expires <= now {
        rows := rows - {r};
      }
      if r in rows {
        // the primary key refuses the insert: roll back
        rows := before;
        return false;
      }
      rows := rows[r := Row(o, now + ttl)];
      return true;
    }

    method RenewLease(r: Resource, o: Owner, now: real, ttl: real) returns (ok: bool)
      modifies this
      ensures ok == Renewable(old(rows), r, o, now)
      ensures ok <==> r in old(rows) && old(rows)[r].owner == o && now < old(rows)[r].expires
      ensures rows == if ok then old(rows)[r := Row(o, now + ttl)] else old(rows)
      ensures forall s: State :: s.rows == old(rows) ==> Apply(s, Renew(r, o, now, ttl)).rows == rows
    {
      ok := r in rows && rows[r].owner == o && rows[r].expires > now;
      if ok {
        rows := rows[r := rows[r].(expires := now + ttl)];
      }
    }

    method ReleaseLease(r: Resource, o: Owner) returns (ok: bool)
      modifies this
      ensures ok == Owned(old(rows), r, o)
      ensures ok <==> r in old(rows) && old(rows)[r].owner == o
      ensures rows == if ok then old(rows) - {r} else old(rows)
      ensures forall s: State :: s.rows == old(rows) ==> Apply(s, Release(r, o)).rows == rows
    {
      ok := r in rows && rows[r].owner == o;
      if ok {
        rows := rows - {r};
      }
    }

    /** The reaped rows and the surviving rows partition the table by expiry. */
    method ReapExpiredLeases(now: real) returns (reaped: Table)
      modifies this
      ensures reaped == Expired(old(rows), now)
      ensures forall r :: r in reaped <==> r in old(rows) && old(rows)[r].expires <= now
      ensures rows == old(rows) - reaped.Keys
      ensures forall s: State :: s.rows == old(rows) ==> Apply(s, Reap(now)).rows == rows
    {
      reaped := map r | r in rows && rows[r].expires <= now :: rows[r];
      rows := map r | r in rows && rows[r].expires > now :: rows[r];
    }
  }

  // ---------- the protocol: any interleaving of any number of owners ----------

  datatype Step =
    | Acquire(r: Resource, o: Owner, stamp: real, ttl: real)
    | Renew(r: Resource, o: Owner, stamp: real, ttl: real)
    | Release(r: Resource, o: Owner)
    | Reap(stamp: real)
    | Advance(to: real)

  /** `until` is what each owner believes: the last stamp for which the ledger
      answered yes, plus the lease time; it is forgotten on release. */
  datatype State = State(rows: Table, clock: real, until: map<(Resource, Owner), real>)

  predicate Legal(s: State, e: Step) {
    match e
    case Acquire(_, _, stamp, _) => stamp <= s.clock
    case Renew(_, _, stamp, _) => stamp <= s.clock
    case Release(_, _) => true
    case Reap(stamp) => stamp <= s.clock
    case Advance(to) => s.clock <= to
  }

  predicate Succeeds(s: State, e: Step) {
    match e
    case Acquire(r, _, stamp, _) => Free(s.rows, r, stamp)
    case Renew(r, o, stamp, _) => Renewable(s.rows, r, o, stamp)
    case Release(r, o) => Owned(s.rows, r, o)
    case _ => true
  }

  function Apply(s: State, e: Step): State {
    match e
    case Acquire(r, o, stamp, ttl) => if Succeeds(s, e) then Granted(s, r, o, stamp + ttl) else s
    case Renew(r, o, stamp, ttl) => if Succeeds(s, e) then Granted(s, r, o, stamp + ttl) else s
    case Release(r, o) =>
      s.(rows := if Succeeds(s, e) then s.rows - {r} else s.rows, until := s.until - {(r, o)})
    case Reap(stamp) => s.(rows := s.rows - Expired(s.rows, stamp).Keys)
    case Advance(to) => s.(clock := to)
  }

  function Granted(s: State, r: Resource, o: Owner, expires: real): State {
    s.(rows := s.rows[r := Row(o, expires)], until := s.until[(r, o) := expires])
  }

  predicate LegalRun(s: State, steps: seq<Step>)
    decreases |steps|
  {
    steps == [] || (Legal(s, steps[0]) && LegalRun(Apply(s, steps[0]), steps[1..]))
  }

  function Run(s: State, steps: seq<Step>): State
    decreases |steps|
  {
    if steps == [] then s else Run(Apply(s, steps[0]), steps[1..])
  }

  function Start(clock: real): State { State(map[], clock, map[]) }

  /** Owner `o` may act as the holder of `r`: its last grant has not run out. */
  predicate Holds(s: State, r: Resource, o: Owner) {
    (r, o) in s.until && s.clock < s.until[(r, o)]
  }

  /** A belief that has not run out is backed by the row itself. */
  ghost predicate Inv(s: State) {
    forall r, o :: Holds(s, r, o) ==> r in s.rows && s.rows[r] == Row(o, s.until[(r, o)])
  }

  lemma InvStep(s: State, e: Step)
    requires Inv(s) && Legal(s, e)
    ensures Inv(Apply(s, e))
  {
    var t := Apply(s, e);
    forall r, o | Holds(t, r, o)
      ensures r in t.rows && t.rows[r] == Row(o, t.until[(r, o)])
    {
      if (r, o) in s.until && s.until[(r, o)] == t.until[(r, o)] {
        assert Holds(s, r, o);
      }
    }
  }

  lemma {:induction false} InvRun(s: State, steps: seq<Step>)
    requires Inv(s) && LegalRun(s, steps)
    ensures Inv(Run(s, steps))
    decreases |steps|
  {
    if steps != [] {
      InvStep(s, steps[0]);
      InvRun(Apply(s, steps[0]), steps[1..]);
    }
  }

  /** At every instant of every interleaving a resource has at most one holder,
      although stamps may be arbitrarily stale. */
  lemma MutualExclusion(clock: real, steps: seq<Step>, r: Resource, o1: Owner, o2: Owner)
    requires LegalRun(Start(clock), steps)
    requires Holds(Run(Start(clock), steps), r, o1) && Holds(Run(Start(clock), steps), r, o2)
    ensures o1 == o2
  {
    InvRun(Start(clock), steps);
  }

  /** A former owner's release takes nothing from the current holder. */
  lemma ForeignReleaseIsHarmless(clock: real, steps: seq<Step>, r: Resource, holder: Owner, other: Owner)
    requires LegalRun(Start(clock), steps) && holder != other
    requires Holds(Run(Start(clock), steps), r, holder)
    ensures var s := Run(Start(clock), steps);
            Apply(s, Release(r, other)).rows == s.rows && Holds(Apply(s, Release(r, other)), r, holder)
  {
    InvRun(Start(clock), steps);
  }

  /** Exclusion rests on stamps not running ahead of the clock: while one owner holds the
      resource, an acquisition by another, legal or not, makes both hold it exactly when its
      stamp has reached the end of the first one's lease and its own lease is still running. */
  lemma StampAheadOfClockBreaksExclusion(s: State, r: Resource, holder: Owner, other: Owner, stamp: real, ttl: real)
    requires Inv(s) && Holds(s, r, holder) && other != holder
    ensures var t := Apply(s, Acquire(r, other, stamp, ttl));
            Holds(t, r, holder) && Holds(t, r, other) <==> s.until[(r, holder)] <= stamp && s.clock < stamp + ttl
    ensures s.until[(r, holder)] <= stamp ==> !Legal(s, Acquire(r, other, stamp, ttl))
  {
    assert s.rows[r] == Row(holder, s.until[(r, holder)]);
    assert !Holds(s, r, other);
  }

  // ---------- continuity: a punctual holder is never displaced ----------

  /** Every renewal of (r, o) takes effect before the previous grant runs out, the
      grant is still good at the end, and `o` neither releases nor re-acquires. */
  predicate Punctual(s: State, steps: seq<Step>, r: Resource, o: Owner)
    decreases |steps|
  {
    if steps == [] then Holds(s, r, o)
    else
      && (steps[0].Renew? && steps[0].r == r && steps[0].o == o ==> Holds(s, r, o))
      && !(steps[0].Release? && steps[0].r == r && steps[0].o == o)
      && !(steps[0].Acquire? && steps[0].r == r && steps[0].o == o)
      && Punctual(Apply(s, steps[0]), steps[1..], r, o)
  }

  lemma {:induction false} PunctualHolds(s: State, steps: seq<Step>, r: Resource, o: Owner)
    requires LegalRun(s, steps) && Punctual(s, steps, r, o)
    ensures Holds(s, r, o)
    decreases |steps|
  {
    if steps != [] {
      PunctualHolds(Apply(s, steps[0]), steps[1..], r, o);
    }
  }

  /** Over any interleaving, each renewal by a punctual holder succeeds and each
      acquisition by anybody else fails. */
  lemma {:induction false} HolderContinuity(s: State, steps: seq<Step>, r: Resource, o: Owner, i: nat)
    requires Inv(s) && LegalRun(s, steps) && Punctual(s, steps, r, o)
    requires i < |steps| && !steps[i].Release? && !steps[i].Reap? && !steps[i].Advance? && steps[i].r == r
    ensures var at := Run(s, steps[..i]);
            if steps[i].Renew? && steps[i].o == o then Succeeds(at, steps[i]) else !Succeeds(at, steps[i])
    decreases |steps|
  {
    PunctualHolds(s, steps, r, o);
    if i == 0 {
      assert steps[..0] == [];
    } else {
      InvStep(s, steps[0]);
      HolderContinuity(Apply(s, steps[0]), steps[1..], r, o, i - 1);
      assert steps[..i][1..] == steps[1..][..i - 1];
    }
  }

  // ---------- a lease that has run out stays lost ----------

  /** Each row is the last grant to its owner. */
  predicate Backed(s: State) {
    forall r | r in s.rows ::
      (r, s.rows[r].owner) in s.until && s.until[(r, s.rows[r].owner)] == s.rows[r].expires
  }

  /** `o` does not acquire `r` again, and renews it with the clock of the moment. */
  predicate RenewsOnly(s: State, steps: seq<Step>, r: Resource, o: Owner)
    decreases |steps|
  {
    if steps == [] then true
    else
      && !(steps[0].Acquire? && steps[0].r == r && steps[0].o == o)
      && (steps[0].Renew? && steps[0].r == r && steps[0].o == o ==> steps[0].stamp == s.clock)
      && RenewsOnly(Apply(s, steps[0]), steps[1..], r, o)
  }

  lemma {:induction false} LostStaysLost(s: State, steps: seq<Step>, r: Resource, o: Owner)
    requires Backed(s) && LegalRun(s, steps) && RenewsOnly(s, steps, r, o) && !Holds(s, r, o)
    ensures !Holds(Run(s, steps), r, o)
    decreases |steps|
  {
    if steps != [] {
      LostStaysLost(Apply(s, steps[0]), steps[1..], r, o);
    }
  }

  lemma {:induction false} BackedRun(s: State, steps: seq<Step>)
    requires Backed(s) && LegalRun(s, steps)
    ensures Backed(Run(s, steps))
    decreases |steps|
  {
    if steps != [] {
      BackedRun(Apply(s, steps[0]), steps[1..]);
    }
  }

  /** Once the clock has reached the end of a lease, no renewal brings it back, whoever acts
      meanwhile and whether or not anybody took the resource over: an owner that only renews
      never holds it again. */
  lemma LateRenewalsAreLost(clock: real, steps: seq<Step>, more: seq<Step>, r: Resource, o: Owner)
    requires LegalRun(Start(clock), steps)
    requires LegalRun(Run(Start(clock), steps), more) && RenewsOnly(Run(Start(clock), steps), more, r, o)
    requires var s := Run(Start(clock), steps); (r, o) in s.until ==> s.until[(r, o)] <= s.clock
    ensures !Holds(Run(Run(Start(clock), steps), more), r, o)
  {
    BackedRun(Start(clock), steps);
    LostStaysLost(Run(Start(clock), steps), more, r, o);
  }

  /** A holder that died blocks nobody once its lease has run out. */
  lemma ExpiredLeaseIsTakenOver(s: State, r: Resource, o: Owner, ttl: real)
    requires Inv(s) && ttl > 0.0
    requires r in s.rows ==> s.rows[r].expires <= s.clock
    ensures var e := Acquire(r, o, s.clock, ttl);
            Legal(s, e) && Succeeds(s, e) && Holds(Apply(s, e), r, o)
            && forall p :: p != o ==> !Holds(Apply(s, e), r, p)
  {
    InvStep(s, Acquire(r, o, s.clock, ttl));
  }
}
