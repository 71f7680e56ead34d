/**
  The failure table: counting identical failures, quarantine, and its explicit reset.
 */
module Failures {
  import opened Prelude

  type Fingerprint = nat
  datatype Scope = Host | Work
  datatype Row = Row(count: nat, quarantined: bool, scope: Scope)
  type Table = map<Fingerprint, Row>

  function CountOf(t: Table, fp: Fingerprint): nat { if fp in t then t[fp].count else 0 }

  /** `record_failure`: insert, or overwrite count, quarantine and scope. */
  function Recorded(t: Table, fp: Fingerprint, scope: Scope, threshold: int): Table {
    var count := CountOf(t, fp) + 1;
    t[fp := Row(count, count >= threshold, scope)]
  }

  /** `unquarantine`: only a quarantined row is reset. */
  function Cleared(t: Table, fp: Fingerprint): Table {
    if Quarantined(t, fp) then t[fp := t[fp].(count := 0, quarantined := false)] else t
  }

  predicate Quarantined(t: Table, fp: Fingerprint) { fp in t && t[fp].quarantined }

  predicate HostQuarantined(t: Table) { exists fp :: fp in t && t[fp].quarantined && t[fp].scope.Host? }

  class FailureTable {
    var rows: Table

    constructor ()
      ensures rows == map[]
    {
      rows := map[];
    }

    method RecordFailure(fp: Fingerprint, threshold: int, scope: Scope) returns (count: nat, quarantined: bool)
      modifies this
      ensures rows == Recorded(old(rows), fp, scope, threshold)
      ensures rows == old(rows)[fp := Row(count, count >= threshold, scope)]
      ensures count == CountOf(rows, fp) == CountOf(old(rows), fp) + 1
      ensures quarantined == Quarantined(rows, fp)
    {
      count := (if fp in rows then rows[fp].count else 0) + 1;
      quarantined := count >= threshold;
      rows := rows[fp := Row(count, quarantined, scope)];
    }

    method Unquarantine(fp: Fingerprint) returns (changed: bool)
      modifies this
      ensures changed == Quarantined(old(rows), fp)
      ensures rows == Cleared(old(rows), fp)
      ensures rows == if fp in old(rows) && old(rows)[fp].quarantined then old(rows)[fp := Row(0, false, old(rows)[fp].scope)]
                      else old(rows)
    {
      changed := fp in rows && rows[fp].quarantined;
      if changed {
        rows := rows[fp := rows[fp].(quarantined := false, count := 0)];
      }
    }
  }

  // ---------- any sequence of failures and resets ----------

  datatype Op = Fail(fp: Fingerprint, scope: Scope) | Clear(fp: Fingerprint)

  function Do(t: Table, op: Op, threshold: int): Table {
    match op
    case Fail(fp, scope) => Recorded(t, fp, scope, threshold)
    case Clear(fp) => Cleared(t, fp)
  }

  function DoAll(ops: seq<Op>, threshold: int): Table {
    if ops == [] then map[] else Do(DoAll(ops[..|ops| - 1], threshold), ops[|ops| - 1], threshold)
  }

  /** Failures of `fp` since its last reset that took hold; a reset takes hold once
      `threshold` failures have been counted. */
  function SinceReset(ops: seq<Op>, fp: Fingerprint, threshold: int): nat {
    if ops == [] then 0
    else
      var before := SinceReset(ops[..|ops| - 1], fp, threshold);
      match ops[|ops| - 1]
      case Fail(f, _) => if f == fp then before + 1 else before
      case Clear(f) => if f == fp && before >= threshold then 0 else before
  }

  /** For a constant threshold, the count is the number of failures since the last
      effective reset, and the row is quarantined exactly from the threshold on. */
  lemma {:induction false} CountsAndQuarantine(ops: seq<Op>, threshold: int, fp: Fingerprint)
    requires threshold >= 1
    ensures CountOf(DoAll(ops, threshold), fp) == SinceReset(ops, fp, threshold)
    ensures Quarantined(DoAll(ops, threshold), fp) <==> SinceReset(ops, fp, threshold) >= threshold
  {
    if ops != [] {
      CountsAndQuarantine(ops[..|ops| - 1], threshold, fp);
    }
  }

  /** The scope of the latest failure of `fp`. */
  function LatestScope(ops: seq<Op>, fp: Fingerprint): Option<Scope> {
    if ops == [] then None
    else
      match ops[|ops| - 1]
      case Fail(f, scope) => if f == fp then Some(scope) else LatestScope(ops[..|ops| - 1], fp)
      case Clear(_) => LatestScope(ops[..|ops| - 1], fp)
  }

  lemma {:induction false} ScopeIsLatest(ops: seq<Op>, threshold: int, fp: Fingerprint)
    ensures LatestScope(ops, fp) == if fp in DoAll(ops, threshold) then Some(DoAll(ops, threshold)[fp].scope) else None
  {
    if ops != [] {
      ScopeIsLatest(ops[..|ops| - 1], threshold, fp);
    }
  }

  /** After any sequence of failures and resets the loop is held up exactly by a failure
      that has reached the threshold since its last reset and was last one of the host. */
  lemma LoopIsHeldUpIff(ops: seq<Op>, threshold: int)
    requires threshold >= 1
    ensures HostQuarantined(DoAll(ops, threshold))
       <==> exists fp :: SinceReset(ops, fp, threshold) >= threshold && LatestScope(ops, fp) == Some(Host)
  {
    var t := DoAll(ops, threshold);
    if HostQuarantined(t) {
      var fp :| fp in t && t[fp].quarantined && t[fp].scope.Host?;
      CountsAndQuarantine(ops, threshold, fp);
      ScopeIsLatest(ops, threshold, fp);
    }
    if fp :| SinceReset(ops, fp, threshold) >= threshold && LatestScope(ops, fp) == Some(Host) {
      CountsAndQuarantine(ops, threshold, fp);
      ScopeIsLatest(ops, threshold, fp);
    }
  }
}
