/** The startup reconcile: instead of scanning a large gap, queue it as backfill jobs for all
    replicas and jump the cursor of the scope over it. */
module Reconcile {
  import opened Base
  import opened CursorLease
  import opened JobQueue

  datatype Attempt = Attempt(from: int, to: int, ok: bool)

  datatype Outcome = Skipped | GapTooSmall | NotClaimed | LeaseLost | JumpFailed | Jumped

  /** Consecutive non-empty ranges of at most `size` blocks that start after `lo` and end at `hi`. */
  ghost predicate Tiling(ts: seq<Attempt>, lo: int, hi: int, size: int)
    decreases |ts|
  {
    if ts == [] then lo == hi
    else
      var last := ts[|ts| - 1];
      last.from <= last.to < last.from + size && hi == last.to && Tiling(ts[..|ts| - 1], lo, last.from - 1, size)
  }

  /** The first ranges of a tiling, short of `hi`. */
  ghost predicate TilesBelow(ts: seq<Attempt>, lo: int, hi: int, size: int) {
    exists mid :: mid < hi && Tiling(ts, lo, mid, size)
  }

  predicate Contains(t: Attempt, b: int) {
    t.from <= b <= t.to
  }

  /** The blocks for which a job was queued. */
  ghost predicate Queued(ts: seq<Attempt>, b: int) {
    exists i :: 0 <= i < |ts| && ts[i].ok && Contains(ts[i], b)
  }

  lemma {:induction false} TilesInside(ts: seq<Attempt>, lo: int, hi: int, size: int, i: nat)
    requires Tiling(ts, lo, hi, size) && i <= |ts|
    ensures lo <= hi
    ensures i < |ts| ==> lo < ts[i].from <= ts[i].to <= hi
    decreases |ts|
  {
    if ts == [] {
    } else {
      TilesInside(ts[..|ts| - 1], lo, ts[|ts| - 1].from - 1, size, Min(i, |ts| - 1));
    }
  }

  /** The ranges of a tiling partition (lo, hi]: each block lies in exactly one of them. */
  lemma {:induction false} TilingPartitions(ts: seq<Attempt>, lo: int, hi: int, size: int, b: int)
    requires Tiling(ts, lo, hi, size)
    ensures lo < b <= hi <==> exists i :: 0 <= i < |ts| && Contains(ts[i], b)
    ensures forall i, j :: 0 <= i < j < |ts| ==> !(Contains(ts[i], b) && Contains(ts[j], b))
    decreases |ts|
  {
    forall i | 0 <= i < |ts|
      ensures lo < ts[i].from <= ts[i].to <= hi
    {
      TilesInside(ts, lo, hi, size, i);
    }
    TilesInside(ts, lo, hi, size, |ts|);
    if ts != [] {
      var front, last := ts[..|ts| - 1], ts[|ts| - 1];
      TilingPartitions(front, lo, last.from - 1, size, b);
      forall i | 0 <= i < |front|
        ensures ts[i] == front[i] && ts[i].to < last.from
      {
        TilesInside(front, lo, last.from - 1, size, i);
      }
      if lo < b <= hi {
        if b < last.from {
          var i :| 0 <= i < |front| && Contains(front[i], b);
          assert Contains(ts[i], b);
        } else {
          assert Contains(ts[|ts| - 1], b);
        }
      }
    }
  }

  /** A reconcile that jumps over (lo, hi] leaves no hole if and only if none of its enqueues failed. */
  lemma HoleIffEnqueueFailed(ts: seq<Attempt>, lo: int, hi: int, size: int)
    requires Tiling(ts, lo, hi, size)
    ensures (forall b :: lo < b <= hi ==> Queued(ts, b)) <==> (forall i :: 0 <= i < |ts| ==> ts[i].ok)
  {
    if forall i :: 0 <= i < |ts| ==> ts[i].ok {
      forall b | lo < b <= hi
        ensures Queued(ts, b)
      {
        TilingPartitions(ts, lo, hi, size, b);
        var i :| 0 <= i < |ts| && Contains(ts[i], b);
        assert ts[i].ok;
      }
    }
    if forall b :: lo < b <= hi ==> Queued(ts, b) {
      forall i | 0 <= i < |ts|
        ensures ts[i].ok
      {
        var b := ts[i].from;
        TilesInside(ts, lo, hi, size, i);
        assert Contains(ts[i], b);
        TilingPartitions(ts, lo, hi, size, b);
        assert Queued(ts, b);
      }
    }
  }

  /** The job table after the successful attempts, the i-th under the i-th generated id. */
  function JobsAfter(before: Jobs, attempts: seq<Attempt>, ids: nat -> JobId, now: int): Jobs
    decreases |attempts|
  {
    if attempts == [] then before
    else
      var n := |attempts| - 1;
      var jobs := JobsAfter(before, attempts[..n], ids, now);
      if attempts[n].ok then jobs[ids(n) := NewJob(attempts[n].from, attempts[n].to, 10, now)] else jobs
  }

  /** Every successful attempt has its job in the table. */
  ghost predicate EachQueued(jobs: Jobs, ts: seq<Attempt>, ids: nat -> JobId, now: int) {
    forall i :: 0 <= i < |ts| && ts[i].ok ==> ids(i) in jobs && jobs[ids(i)] == NewJob(ts[i].from, ts[i].to, 10, now)
  }

  /** Every range but the last has its full length. */
  ghost predicate FullRanges(ts: seq<Attempt>, size: int)
    decreases |ts|
  {
    |ts| <= 1 || (ts[|ts| - 2].to == ts[|ts| - 2].from + size - 1 && FullRanges(ts[..|ts| - 1], size))
  }

  /** An attempt succeeds if and only if its insert does and its id is not taken. */
  ghost predicate AsInserted(before: Jobs, ts: seq<Attempt>, a: Answers, now: int)
    decreases |ts|
  {
    ts == [] || (var n := |ts| - 1;
                 && AsInserted(before, ts[..n], a, now)
                 && (ts[n].ok <==> a.insert(n) && a.ids(n) !in JobsAfter(before, ts[..n], a.ids, now)))
  }

  /** What the first ranges have left in the table. */
  ghost predicate RangesDone(before: Jobs, jobs: Jobs, ts: seq<Attempt>, a: Answers, size: int, now: int) {
    FullRanges(ts, size) && AsInserted(before, ts, a, now) && jobs == JobsAfter(before, ts, a.ids, now)
  }

  lemma OneMoreAttempt(before: Jobs, jobs: Jobs, ts: seq<Attempt>, t: Attempt, a: Answers, size: int, now: int)
    requires RangesDone(before, jobs, ts, a, size, now)
    requires ts != [] ==> ts[|ts| - 1].to == ts[|ts| - 1].from + size - 1
    requires t.ok <==> a.insert(|ts|) && a.ids(|ts|) !in jobs
    ensures RangesDone(before, if t.ok then jobs[a.ids(|ts|) := NewJob(t.from, t.to, 10, now)] else jobs, ts + [t], a, size, now)
  {
    OneMoreFull(ts, t, size);
    OneMoreInserted(before, ts, t, a, now);
  }

  lemma OneMoreFull(ts: seq<Attempt>, t: Attempt, size: int)
    requires FullRanges(ts, size) && (ts != [] ==> ts[|ts| - 1].to == ts[|ts| - 1].from + size - 1)
    ensures FullRanges(ts + [t], size)
  {
    assert (ts + [t])[..|ts|] == ts;
  }

  lemma OneMoreInserted(before: Jobs, ts: seq<Attempt>, t: Attempt, a: Answers, now: int)
    requires AsInserted(before, ts, a, now)
    requires t.ok <==> a.insert(|ts|) && a.ids(|ts|) !in JobsAfter(before, ts, a.ids, now)
    ensures AsInserted(before, ts + [t], a, now)
    ensures var jobs := JobsAfter(before, ts, a.ids, now);
            JobsAfter(before, ts + [t], a.ids, now) == if t.ok then jobs[a.ids(|ts|) := NewJob(t.from, t.to, 10, now)] else jobs
  {
    assert (ts + [t])[..|ts|] == ts;
  }

  lemma OneMoreQueued(jobs: Jobs, ts: seq<Attempt>, t: Attempt, ids: nat -> JobId, now: int)
    requires EachQueued(jobs, ts, ids, now) && (t.ok ==> ids(|ts|) !in jobs)
    ensures EachQueued(if t.ok then jobs[ids(|ts|) := NewJob(t.from, t.to, 10, now)] else jobs, ts + [t], ids, now)
  {
  }

  /** No job that was queued is replaced by a later one. */
  lemma {:induction false} InsertedAreQueued(before: Jobs, ts: seq<Attempt>, a: Answers, now: int)
    requires AsInserted(before, ts, a, now)
    ensures EachQueued(JobsAfter(before, ts, a.ids, now), ts, a.ids, now)
    decreases |ts|
  {
    if ts == [] {
    } else {
      var n := |ts| - 1;
      InsertedAreQueued(before, ts[..n], a, now);
      OneMoreQueued(JobsAfter(before, ts[..n], a.ids, now), ts[..n], ts[n], a.ids, now);
      assert ts == ts[..n] + [ts[n]];
    }
  }

  lemma OneMoreRange(ts: seq<Attempt>, t: Attempt, lo: int, size: int)
    requires Tiling(ts, lo, t.from - 1, size) && t.from <= t.to < t.from + size
    ensures Tiling(ts + [t], lo, t.to, size)
  {
    assert (ts + [t])[..|ts|] == ts;
  }

  /** What the database answers while one scope is reconciled: `renew` and `insert` per range. */
  datatype Answers = Answers(read: bool, claim: bool, renew: nat -> bool, insert: nat -> bool, jump: bool, ids: nat -> JobId)

  /** The rows differ in the deadline of a scope that `worker` holds, at most. */
  ghost predicate OnlyRenewed(before: Cursors, rows: Cursors, scope: string, worker: string) {
    && rows.Keys == before.Keys && scope in rows
    && Holds(rows, scope, worker) && rows[scope].highest == before[scope].highest
    && forall s :: s in rows && s != scope ==> rows[s] == before[s]
  }

  lemma RenewsOnly(before: Cursors, rows: Cursors, scope: string, worker: string, now: int, lease: int)
    requires OnlyRenewed(before, rows, scope, worker)
    ensures OnlyRenewed(before, Renew(rows, scope, worker, now, lease), scope, worker)
  {
  }

  /** Queues one more range; a failed insert is only logged. */
  method EnqueueRange(queue: JobTable, attempts: seq<Attempt>, start: int, end: int, size: int, now: int, a: Answers, ghost before: Jobs)
    returns (attempt: Attempt)
    requires RangesDone(before, queue.jobs, attempts, a, size, now)
    requires attempts != [] ==> attempts[|attempts| - 1].to == attempts[|attempts| - 1].from + size - 1
    modifies queue
    ensures attempt.from == start && attempt.to == end
    ensures RangesDone(before, queue.jobs, attempts + [attempt], a, size, now)
  {
    ghost var jobs := queue.jobs;
    var ok := false;
    if a.insert(|attempts|) {
      ok := queue.EnqueueBlockRangeJob(a.ids(|attempts|), start, end, 10, now);
    }
    attempt := Attempt(start, end, ok);
    OneMoreAttempt(before, jobs, attempts, attempt, a, size, now);
  }

  /** Queues (cursor, safe] range by range; stops without an error when the lease is lost. */
  method EnqueueRanges(db: CursorTable, queue: JobTable, scope: string, worker: string, cursor: int, safe: int,
                       size: int, now: int, a: Answers)
    returns (attempts: seq<Attempt>, lost: bool)
    requires size > 0 && cursor < safe && Holds(db.rows, scope, worker)
    modifies db, queue
    ensures OnlyRenewed(old(db.rows), db.rows, scope, worker)
    ensures !lost ==> Tiling(attempts, cursor, safe, size)
    ensures lost ==> !a.renew(|attempts|) && TilesBelow(attempts, cursor, safe, size)
    ensures forall i :: 0 <= i < |attempts| ==> a.renew(i)
    ensures RangesDone(old(queue.jobs), queue.jobs, attempts, a, size, now)
  {
    attempts := [];
    lost := false;
    var start := cursor + 1;
    while start <= safe
      invariant OnlyRenewed(old(db.rows), db.rows, scope, worker)
      invariant cursor < start
      invariant Tiling(attempts, cursor, Min(start - 1, safe), size)
      invariant attempts != [] && start <= safe ==> attempts[|attempts| - 1].to == attempts[|attempts| - 1].from + size - 1
      invariant forall i :: 0 <= i < |attempts| ==> a.renew(i)
      invariant RangesDone(old(queue.jobs), queue.jobs, attempts, a, size, now)
      decreases safe - start
    {
      RenewsOnly(old(db.rows), db.rows, scope, worker, now, DEFAULT_LEASE);
      var held := db.RenewScannerScopeLease(scope, worker, now, DEFAULT_LEASE);
      if !held || !a.renew(|attempts|) {
        assert start - 1 < safe && Tiling(attempts, cursor, start - 1, size);
        return attempts, true;
      }
      var end := start + size - 1;
      if end > safe {
        end := safe;
      }
      var attempt := EnqueueRange(queue, attempts, start, end, size, now, a, old(queue.jobs));
      OneMoreRange(attempts, attempt, cursor, size);
      attempts := attempts + [attempt];
      start := start + size;
    }
  }

  /** One scope of the startup reconcile. The cursor is read before the scope is claimed. */
  method ReconcileScope(db: CursorTable, queue: JobTable, scope: string, worker: string, safe: int,
                        batchSize: int, now: int, a: Answers)
    returns (outcome: Outcome, attempts: seq<Attempt>)
    requires worker != ""
    modifies db, queue
    ensures var cursor := HighestBlock(old(db.rows), scope);
            var size := if batchSize <= 0 then 1000 else batchSize;
            && (outcome.Skipped? <==> !a.read || cursor <= 0 || safe <= cursor)
            && (outcome.GapTooSmall? <==> a.read && 0 < cursor && 0 < safe - cursor < size)
            && (outcome.NotClaimed? <==> a.read && 0 < cursor && safe - cursor >= size && !(a.claim && CanClaim(old(db.rows), scope, worker, now)))
            && (outcome.LeaseLost? ==> !a.renew(|attempts|) && TilesBelow(attempts, cursor, safe, size))
            && (outcome.JumpFailed? ==> !a.jump)
            && (outcome.Jumped? || outcome.JumpFailed? ==> Tiling(attempts, cursor, safe, size) && safe - cursor >= size)
            && (outcome.Jumped? ==> HighestBlock(db.rows, scope) == safe)
            && (!outcome.Jumped? ==> HighestBlock(db.rows, scope) == cursor)
    ensures !outcome.Jumped? && !outcome.JumpFailed? && !outcome.LeaseLost? ==> db.rows == old(db.rows) && queue.jobs == old(queue.jobs)
    ensures outcome.Jumped? || outcome.JumpFailed? || outcome.LeaseLost? ==> !Holds(db.rows, scope, worker)
    ensures forall s :: s in old(db.rows) && s != scope ==> s in db.rows && db.rows[s] == old(db.rows)[s]
    ensures forall s :: s in db.rows && s != scope ==> s in old(db.rows)
    ensures forall i :: 0 <= i < |attempts| ==> a.renew(i)
    ensures EachQueued(queue.jobs, attempts, a.ids, now)
    ensures RangesDone(old(queue.jobs), queue.jobs, attempts, a, if batchSize <= 0 then 1000 else batchSize, now)
  {
    attempts := [];
    if !a.read {
      return Skipped, attempts;
    }
    var cursor := db.GetScannedBlock(scope);
    if cursor <= 0 || cursor >= safe {
      return Skipped, attempts;
    }
    var blocksBehind := safe - cursor;
    var size := batchSize;
    if size <= 0 {
      size := 1000;
    }
    if blocksBehind < size {
      return GapTooSmall, attempts;
    }
    if !a.claim {
      return NotClaimed, attempts;
    }
    var highest, claimed := db.TryClaimScannerScope(scope, worker, now, DEFAULT_LEASE);
    if !claimed {
      return NotClaimed, attempts;
    }
    var lost;
    attempts, lost := EnqueueRanges(db, queue, scope, worker, cursor, safe, size, now, a);
    InsertedAreQueued(old(queue.jobs), attempts, a, now);
    if lost {
      var released := db.ReleaseScannerScope(scope, worker);
      return LeaseLost, attempts;
    }
    var saved := false;
    if a.jump {
      saved := db.SetScannedBlock(scope, safe, worker, now);
    }
    var released := db.ReleaseScannerScope(scope, worker);
    outcome := if saved then Jumped else JumpFailed;
  }
}
