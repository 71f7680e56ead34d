/**
  The size-bounded JSONL log of a child process: `_rotate_output` and the
  `write_log` closure.  Name 0 is the open log, name i its i-th backup.
 */
module RotatingLog {
  import opened Prelude

  type Record = seq<bv8>
  type File = seq<Record>
  type Directory = map<nat, File>

  /** The open log and its backups, newest first. */
  datatype Chain = Chain(open: File, backups: seq<File>)

  function Size(f: File): nat {
    if f == [] then 0 else Size(f[..|f| - 1]) + |f[|f| - 1]|
  }

  // ---------- specification ----------

  predicate NeedsRotation(c: Chain, r: Record, limit: nat) {
    Size(c.open) > 0 && Size(c.open) + |r| > limit
  }

  predicate Full(c: Chain, count: nat) { |c.backups| == count }

  /** The backups after a rotation: a full chain loses its oldest file. */
  function Pushed(c: Chain, count: nat): seq<File>
    requires count >= 1
  {
    [c.open] + if |c.backups| < count then c.backups else c.backups[..count - 1]
  }

  function Written(c: Chain, r: Record, limit: nat, count: nat): Chain
    requires count >= 1
  {
    if NeedsRotation(c, r, limit) then Chain([r], Pushed(c, count)) else Chain(c.open + [r], c.backups)
  }

  function WriteAll(records: seq<Record>, limit: nat, count: nat): Chain
    requires count >= 1
  {
    if records == [] then Chain([], [])
    else Written(WriteAll(records[..|records| - 1], limit, count), records[|records| - 1], limit, count)
  }

  /** The concatenation of the backups, oldest first. */
  function Backlog(backups: seq<File>): File {
    if backups == [] then [] else Backlog(backups[1..]) + backups[0]
  }

  /** What a reader of path.N, ..., path.1, path sees. */
  function Chronicle(c: Chain): File { Backlog(c.backups) + c.open }

  function At(d: Directory, k: nat): Option<File> { if k in d then Some(d[k]) else None }

  function Named(c: Chain, k: nat): Option<File> {
    if k == 0 then Some(c.open) else if k <= |c.backups| then Some(c.backups[k - 1]) else None
  }

  ghost predicate Holds(d: Directory, c: Chain) {
    forall k: nat :: At(d, k) == Named(c, k)
  }

  /** The file found under name k once the names `from` .. count-1 have moved up by
      one over name `count`; the name `from` is left free. */
  function Shifted(was: Directory, from: nat, count: nat, k: nat): Option<File> {
    if k < from || k > count then At(was, k) else if k == from then None else At(was, k - 1)
  }

  ghost predicate ShiftedUp(was: Directory, now: Directory, from: nat, count: nat) {
    forall k: nat :: At(now, k) == Shifted(was, from, count, k)
  }

  /** Moving name `i` to the free name above it. */
  lemma MoveOne(orig: Directory, was: Directory, now: Directory, i: nat, count: nat)
    requires i < count && ShiftedUp(orig, was, i + 1, count)
    requires now == if i in was then (was - {i})[i + 1 := was[i]] else was
    ensures ShiftedUp(orig, now, i, count)
  {
    assert At(was, i) == Shifted(orig, i + 1, count, i);
    assert At(was, i + 1) == Shifted(orig, i + 1, count, i + 1);
    forall k: nat
      ensures At(now, k) == Shifted(orig, i, count, k)
    {
      assert At(was, k) == Shifted(orig, i + 1, count, k);
    }
  }

  lemma ShiftedNames(was: Directory, now: Directory, count: nat)
    requires ShiftedUp(was, now, 0, count)
    ensures 0 !in now
    ensures forall k: nat :: k < count ==> (k in was <==> k + 1 in now) && (k in was ==> now[k + 1] == was[k])
    ensures forall k: nat :: k > count ==> (k in was <==> k in now) && (k in now ==> now[k] == was[k])
  {
    assert At(now, 0) == None;
    forall k: nat | k < count
      ensures (k in was <==> k + 1 in now) && (k in was ==> now[k + 1] == was[k])
    {
      assert At(now, k + 1) == At(was, k);
    }
    forall k: nat | k > count
      ensures (k in was <==> k in now) && (k in now ==> now[k] == was[k])
    {
      assert At(now, k) == At(was, k);
    }
  }

  lemma ShiftHolds(was: Directory, now: Directory, c: Chain, count: nat)
    requires count >= 1 && |c.backups| <= count && Holds(was, c) && ShiftedUp(was, now, 0, count)
    ensures Holds(now[0 := []], Chain([], Pushed(c, count)))
  {
    forall k: nat
      ensures At(now[0 := []], k) == Named(Chain([], Pushed(c, count)), k)
    {
      assert At(now, k) == Shifted(was, 0, count, k);
      assert k > 0 ==> At(was, k - 1) == Named(c, k - 1);
      assert At(was, k) == Named(c, k);
    }
  }

  lemma AppendHolds(d: Directory, c: Chain, r: Record)
    requires Holds(d, c)
    ensures 0 in d && Holds(d[0 := d[0] + [r]], Chain(c.open + [r], c.backups))
  {
    var next := Chain(c.open + [r], c.backups);
    assert At(d, 0) == Named(c, 0);
    forall k: nat
      ensures At(d[0 := d[0] + [r]], k) == Named(next, k)
    {
      assert At(d, k) == Named(c, k);
    }
  }

  /** The files and the byte counter are those of the chain. */
  ghost predicate Matches(d: Directory, bytes: nat, c: Chain) { Holds(d, c) && bytes == Size(c.open) }

  lemma AppendMatches(d: Directory, bytes: nat, c: Chain, r: Record)
    requires Matches(d, bytes, c)
    ensures 0 in d && Matches(d[0 := d[0] + [r]], bytes + |r|, Chain(c.open + [r], c.backups))
  {
    AppendHolds(d, c, r);
    SizeAppend(c.open, r);
  }

  // ---------- the files on disk ----------

  class RotatingFile {
    var files: Directory
    var logBytes: nat
    const limit: nat
    const count: nat
    ghost var chain: Chain

    ghost predicate Valid()
      reads this
    {
      count >= 1 && |chain.backups| <= count && Matches(files, logBytes, chain)
    }

    constructor (limit: nat, count: nat)
      requires count >= 1
      ensures Valid() && chain == Chain([], []) && this.limit == limit && this.count == count
    {
      this.limit, this.count := limit, count;
      files, logBytes, chain := map[0 := []], 0, Chain([], []);
    }

    /** `_rotate_output`: unlink the oldest backup, then rename the files from the
        back.  On any directory every name up to the count moves up by one. */
    method RotateOutput()
      requires count >= 1
      modifies this`files
      ensures ShiftedUp(old(files), files, 0, count)
      ensures 0 !in files
      ensures forall k: nat :: k < count ==>
                (k in old(files) <==> k + 1 in files) && (k in old(files) ==> files[k + 1] == old(files)[k])
      ensures forall k :: k > count ==> (k in old(files) <==> k in files) && (k in files ==> files[k] == old(files)[k])
    {
      if count in files {
        files := files - {count};
      }
      var index := count - 1;
      while index > 0
        invariant 0 <= index < count
        invariant ShiftedUp(old(files), files, index + 1, count)
      {
        ghost var was := files;
        if index in files {
          files := (files - {index})[index + 1 := files[index]];
        }
        MoveOne(old(files), was, files, index, count);
        index := index - 1;
      }
      ghost var was := files;
      if 0 in files {
        files := (files - {0})[1 := files[0]];
      }
      MoveOne(old(files), was, files, 0, count);
      ShiftedNames(old(files), files, count);
    }

    /** Rotate and reopen an empty log. */
    method Reopen()
      requires Valid()
      modifies this
      ensures Valid() && chain == Chain([], Pushed(old(chain), count))
    {
      RotateOutput();
      ShiftHolds(old(files), files, chain, count);
      chain := Chain([], Pushed(chain, count));
      files := files[0 := []];
      logBytes := 0;
    }

    method WriteRecord(r: Record)
      requires Valid()
      modifies this
      ensures Valid() && chain == Chain(old(chain).open + [r], old(chain).backups)
    {
      AppendMatches(files, logBytes, chain, r);
      files := files[0 := files[0] + [r]];
      chain := Chain(chain.open + [r], chain.backups);
      logBytes := logBytes + |r|;
    }

    method WriteLog(r: Record)
      requires Valid()
      modifies this
      ensures Valid() && chain == Written(old(chain), r, limit, count)
      ensures if 0 < Size(old(chain).open) && limit < Size(old(chain).open) + |r|
              then chain.open == [r] && chain.backups != [] && chain.backups[0] == old(chain).open
              else chain == Chain(old(chain).open + [r], old(chain).backups)
    {
      if logBytes != 0 && logBytes + |r| > limit {
        Reopen();
        assert [] + [r] == [r];
      }
      WriteRecord(r);
    }
  }

  // ---------- what every sequence of writes keeps ----------

  lemma SizeAppend(f: File, r: Record)
    ensures Size(f + [r]) == Size(f) + |r|
  {
    assert (f + [r])[..|f|] == f;
  }

  predicate Fits(f: File, limit: nat) { Size(f) <= limit || |f| == 1 }

  /** Every file is within the limit, or is a single oversized record. */
  predicate Bounded(c: Chain, limit: nat) {
    Fits(c.open, limit) && forall f :: f in c.backups ==> Fits(f, limit)
  }

  /** `older` was closed because the first record of `newer` did not fit. */
  predicate RotatedForCause(older: File, newer: File, limit: nat) {
    newer != [] && Size(older) + |newer[0]| > limit
  }

  /** No rotation was early. */
  ghost predicate Tight(c: Chain, limit: nat) {
    && (c.backups != [] ==> RotatedForCause(c.backups[0], c.open, limit))
    && (forall i, j :: 0 <= i < |c.backups| && j == i + 1 && j < |c.backups| ==> RotatedForCause(c.backups[j], c.backups[i], limit))
  }

  lemma {:induction false} BacklogDropsOldest(b: seq<File>)
    requires b != []
    ensures Backlog(b) == b[|b| - 1] + Backlog(b[..|b| - 1])
  {
    if |b| > 1 {
      BacklogDropsOldest(b[1..]);
      assert b[1..][..|b| - 2] == b[..|b| - 1][1..];
    }
  }

  /** One write appends one record; a rotation of a full chain drops the oldest
      backup and nothing else, any other write drops nothing. */
  lemma WriteAppends(c: Chain, r: Record, limit: nat, count: nat)
    requires count >= 1 && |c.backups| <= count
    ensures var dropped := NeedsRotation(c, r, limit) && Full(c, count);
            var kept := if dropped then c.backups[..count - 1] else c.backups;
            && Chronicle(Written(c, r, limit, count)) == Chronicle(Chain(c.open, kept)) + [r]
            && Chronicle(c) == (if dropped then c.backups[count - 1] else []) + Chronicle(Chain(c.open, kept))
  {
    if NeedsRotation(c, r, limit) {
      assert Pushed(c, count)[1..] == if Full(c, count) then c.backups[..count - 1] else c.backups;
      if Full(c, count) {
        BacklogDropsOldest(c.backups);
      }
    }
  }

  lemma WriteKeepsBounded(c: Chain, r: Record, limit: nat, count: nat)
    requires count >= 1 && Bounded(c, limit) && (c.open != [] ==> Size(c.open) > 0)
    ensures Bounded(Written(c, r, limit, count), limit)
  {
    SizeAppend(c.open, r);
  }

  lemma WriteKeepsTight(c: Chain, r: Record, limit: nat, count: nat)
    requires count >= 1 && |c.backups| <= count && Tight(c, limit) && (c.open == [] ==> c.backups == [])
    ensures Tight(Written(c, r, limit, count), limit)
  {
    var n := Written(c, r, limit, count);
    if NeedsRotation(c, r, limit) {
      assert n.backups[0] == c.open && RotatedForCause(c.open, [r], limit);
      forall i, j | 0 <= i < |n.backups| && j == i + 1 && j < |n.backups|
        ensures RotatedForCause(n.backups[j], n.backups[i], limit)
      {
        assert n.backups[j] == c.backups[i] && (i > 0 ==> n.backups[i] == c.backups[i - 1]);
      }
    } else if c.open != [] {
      assert (c.open + [r])[0] == c.open[0];
    }
  }

  ghost predicate Sound(c: Chain, limit: nat, count: nat) {
    && |c.backups| <= count && Bounded(c, limit) && Tight(c, limit)
    && (c.open == [] ==> c.backups == []) && (c.open != [] ==> Size(c.open) > 0)
  }

  lemma WriteKeepsSound(c: Chain, r: Record, limit: nat, count: nat)
    requires count >= 1 && Sound(c, limit, count) && |r| > 0
    ensures Sound(Written(c, r, limit, count), limit, count)
  {
    WriteKeepsBounded(c, r, limit, count);
    WriteKeepsTight(c, r, limit, count);
    SizeAppend(c.open, r);
    SizeAppend([], r);
    assert [] + [r] == [r];
  }

  /** Whatever is written: contiguous names, at most count + 1 files, each within the
      limit or a single record, and never rotated early. */
  lemma {:induction false} WriteAllSound(records: seq<Record>, limit: nat, count: nat)
    requires count >= 1 && forall r :: r in records ==> |r| > 0
    ensures Sound(WriteAll(records, limit, count), limit, count)
  {
    if records != [] {
      var n := |records| - 1;
      WriteAllSound(records[..n], limit, count);
      WriteKeepsSound(WriteAll(records[..n], limit, count), records[n], limit, count);
    }
  }

  /** Read oldest first, the files are a record-aligned, order-preserving suffix of
      everything written; records are lost only when all backups are in use. */
  lemma {:induction false} LogIsSuffixOfStream(records: seq<Record>, limit: nat, count: nat) returns (lost: nat)
    requires count >= 1 && forall r :: r in records ==> |r| > 0
    ensures lost <= |records| && Chronicle(WriteAll(records, limit, count)) == records[lost..]
    ensures lost > 0 ==> Full(WriteAll(records, limit, count), count)
  {
    if records == [] {
      lost := 0;
    } else {
      var n := |records| - 1;
      var front, r := records[..n], records[n];
      var c := WriteAll(front, limit, count);
      var before := LogIsSuffixOfStream(front, limit, count);
      WriteAllSound(front, limit, count);
      WriteAppends(c, r, limit, count);
      var dropped := NeedsRotation(c, r, limit) && Full(c, count);
      var gone := if dropped then c.backups[count - 1] else [];
      var kept := Chronicle(Chain(c.open, if dropped then c.backups[..count - 1] else c.backups));
      lost := before + |gone|;
      DropPrefix(records, before, gone, kept);
    }
  }

  lemma DropPrefix(records: seq<Record>, before: nat, gone: File, kept: File)
    requires records != [] && before <= |records| - 1 && records[..|records| - 1][before..] == gone + kept
    ensures before + |gone| <= |records| && kept + [records[|records| - 1]] == records[before + |gone|..]
  {
    var n := |records| - 1;
    assert records[..n][before..] == records[before..n];
    assert kept == records[before..n][|gone|..];
  }
}
