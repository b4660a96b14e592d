/** Reconciles get done. Left alone and answered without errors, a reconcile of the interleaved protocol queues the
    tiling of its gap that `Reconcile` describes, and moves the cursor over it. */
module CompleteReconciles {
  import opened Base
  import opened ScanProtocol
  import L = CursorLease
  import Q = JobQueue
  import R = Reconcile

  // ----- Starting and stopping

  /** A reconcile starts if and only if its scope has a cursor that is a whole batch or more behind, 1000 blocks when the
      batch size is not set. */
  lemma ReconcileStartsIff(cfg: Config, st: State, p: nat, worker: string, scope: string, safe: int, batchSize: int)
    requires p !in st.procs
    ensures var st' := Apply(cfg, st, StartReconcile(p, worker, scope, safe, batchSize));
            var cursor := L.HighestBlock(st.rows, scope);
            && (p in st'.procs <==> scope in cfg.scopes && 0 < cursor && safe - cursor >= if batchSize <= 0 then 1000 else batchSize)
            && (p !in st'.procs ==> st' == st)
            && (p in st'.procs ==> st'.procs[p] == Reconcile(worker, scope, safe, if batchSize <= 0 then 1000 else batchSize, cursor + 1, Claim))
  {
  }

  /** A reconcile goes on from its claim if and only if it gets the lease and is told so; without it, it ends with no job
      queued. */
  lemma ClaimGoesOnIff(cfg: Config, st: State, p: nat, proc: Proc, input: Input)
    requires p in st.procs && st.procs[p] == proc && proc.Reconcile? && proc.rpc.Claim?
    ensures var st' := Apply(cfg, st, Act(p, input));
            && st'.jobs == st.jobs && (p in st'.procs <==> input.reply.Ok? && L.CanClaim(st.rows, proc.scope, proc.worker, st.now))
            && (p in st'.procs ==> L.Holds(st'.rows, proc.scope, proc.worker) && st'.procs[p] == proc.(rpc := NextRange))
            && L.HighestBlock(st'.rows, proc.scope) == L.HighestBlock(st.rows, proc.scope)
  {
  }

  /** It goes on from a renewal if and only if it still has the lease and is told so; otherwise it leaves its scope, and
      its cursor stays. */
  lemma RenewalGoesOnIff(cfg: Config, st: State, p: nat, proc: Proc, input: Input)
    requires p in st.procs && st.procs[p] == proc && proc.Reconcile? && proc.rpc.NextRange? && proc.start <= proc.safe
    ensures var st' := Apply(cfg, st, Act(p, input));
            && p in st'.procs && st'.jobs == st.jobs
            && st'.procs[p] == proc.(rpc := if input.reply.Ok? && L.Holds(st.rows, proc.scope, proc.worker) then Enqueue else LeaveScope)
            && (input.reply.Ok? && L.Holds(st.rows, proc.scope, proc.worker) ==>
                  proc.scope in st'.rows && st'.rows[proc.scope] == st.rows[proc.scope].(lockedUntil := Some(st.now + 600 * L.SECOND)))
            && L.HighestBlock(st'.rows, proc.scope) == L.HighestBlock(st.rows, proc.scope)
  {
  }

  // ----- One range after the other

  function Answer(ids: nat -> Q.JobId, i: nat): Input {
    Input(Ok, {}, [], ids(i), 0)
  }

  /** The generated ids are new, and all different. */
  ghost predicate Fresh(jobs: Q.Jobs, ids: nat -> Q.JobId) {
    (forall i: nat :: ids(i) !in jobs) && forall i: nat, j: nat :: i < j ==> ids(i) != ids(j)
  }

  lemma {:induction false} JobsAfterKeys(before: Q.Jobs, ts: seq<R.Attempt>, ids: nat -> Q.JobId, now: int, id: Q.JobId)
    requires id in R.JobsAfter(before, ts, ids, now)
    ensures id in before || exists j: nat :: j < |ts| && ids(j) == id
    decreases |ts|
  {
    if ts == [] {
    } else {
      var n := |ts| - 1;
      if id in R.JobsAfter(before, ts[..n], ids, now) {
        JobsAfterKeys(before, ts[..n], ids, now, id);
      } else {
        assert ids(n) == id;
      }
    }
  }

  lemma NextIsFresh(before: Q.Jobs, ts: seq<R.Attempt>, ids: nat -> Q.JobId, now: int)
    requires Fresh(before, ids)
    ensures ids(|ts|) !in R.JobsAfter(before, ts, ids, now)
  {
    if ids(|ts|) in R.JobsAfter(before, ts, ids, now) {
      JobsAfterKeys(before, ts, ids, now, ids(|ts|));
    }
  }

  /** What a reconcile leaves alone. */
  ghost predicate Undisturbed(st: State, st': State, p: nat, scope: string) {
    && st'.lost == st.lost && st'.visited == st.visited && st'.outbox == st.outbox && st'.now == st.now
    && st'.procs - {p} == st.procs - {p} && scope in st.rows && scope in st'.rows
    && forall s :: s != scope ==> (s in st'.rows <==> s in st.rows) && (s in st.rows ==> st'.rows[s] == st.rows[s])
  }

  lemma StaysUndisturbed(st: State, s1: State, s2: State, p: nat, scope: string)
    requires Undisturbed(st, s1, p, scope) && Undisturbed(s1, s2, p, scope)
    ensures Undisturbed(st, s2, p, scope)
  {
  }

  /** The reconcile is before its next range, and has queued `ts`. */
  ghost predicate Tiled(before: Q.Jobs, st: State, p: nat, proc: Proc, cursor: int, ids: nat -> Q.JobId, ts: seq<R.Attempt>) {
    && proc.Reconcile? && proc.worker != "" && p in st.procs && st.procs[p] == proc && L.Holds(st.rows, proc.scope, proc.worker)
    && proc.rpc.NextRange? && Ranges(ts, cursor, proc.start, proc.safe, proc.size) && st.jobs == R.JobsAfter(before, ts, ids, st.now)
  }

  /** The ranges tile what lies between the cursor and the next start, all queued, all full but the last. */
  ghost predicate Ranges(ts: seq<R.Attempt>, cursor: int, start: int, safe: int, size: int) {
    && size > 0 && cursor < start && R.Tiling(ts, cursor, Min(start - 1, safe), size) && R.FullRanges(ts, size)
    && (forall i :: 0 <= i < |ts| ==> ts[i].ok)
    && (ts != [] && start <= safe ==> ts[|ts| - 1].to == ts[|ts| - 1].from + size - 1)
  }

  lemma OneMore(ts: seq<R.Attempt>, t: R.Attempt, cursor: int, start: int, safe: int, size: int)
    requires Ranges(ts, cursor, start, safe, size) && start <= safe && t == R.Attempt(start, Min(start + size - 1, safe), true)
    ensures Ranges(ts + [t], cursor, start + size, safe, size)
  {
    R.OneMoreRange(ts, t, cursor, size);
    R.OneMoreFull(ts, t, size);
  }

  /** The renewal before a range. */
  lemma RenewsForRange(cfg: Config, st: State, p: nat, proc: Proc, input: Input)
    requires proc.Reconcile? && p in st.procs && st.procs[p] == proc && L.Holds(st.rows, proc.scope, proc.worker)
    requires proc.rpc.NextRange? && proc.start <= proc.safe && input.reply.Ok?
    ensures var st' := Apply(cfg, st, Act(p, input));
            && p in st'.procs && st'.procs[p] == proc.(rpc := Enqueue) && st'.jobs == st.jobs && Undisturbed(st, st', p, proc.scope)
            && L.Holds(st'.rows, proc.scope, proc.worker) && st'.rows[proc.scope].highest == st.rows[proc.scope].highest
  {
  }

  /** The insert of its job. */
  lemma InsertsRange(cfg: Config, st: State, p: nat, proc: Proc, input: Input)
    requires proc.Reconcile? && p in st.procs && st.procs[p] == proc && L.Holds(st.rows, proc.scope, proc.worker)
    requires proc.rpc.Enqueue? && input.reply.Ok? && input.newId !in st.jobs
    ensures var st' := Apply(cfg, st, Act(p, input));
            && p in st'.procs && st'.procs[p] == proc.(start := proc.start + proc.size, rpc := NextRange) && Undisturbed(st, st', p, proc.scope)
            && st'.jobs == st.jobs[input.newId := Q.NewJob(proc.start, Min(proc.start + proc.size - 1, proc.safe), 10, st.now)] && st'.rows == st.rows
  {
  }

  lemma OneMoreTile(before: Q.Jobs, ts: seq<R.Attempt>, t: R.Attempt, ids: nat -> Q.JobId, now: int)
    requires t.ok
    ensures R.JobsAfter(before, ts + [t], ids, now) == R.JobsAfter(before, ts, ids, now)[ids(|ts|) := Q.NewJob(t.from, t.to, 10, now)]
  {
    assert (ts + [t])[..|ts|] == ts;
  }

  /** The renewal and the insert of one range. */
  ghost predicate OneRangeOn(st: State, st': State, p: nat, proc: Proc, next: Proc, id: Q.JobId)
    requires proc.Reconcile?
  {
    && p in st'.procs && st'.procs[p] == next && Undisturbed(st, st', p, proc.scope)
    && st'.jobs == st.jobs[id := Q.NewJob(proc.start, Min(proc.start + proc.size - 1, proc.safe), 10, st.now)]
    && L.Holds(st'.rows, proc.scope, proc.worker) && st'.rows[proc.scope].highest == st.rows[proc.scope].highest
  }

  lemma OneRange(cfg: Config, st: State, p: nat, proc: Proc, next: Proc, input: Input)
    requires proc.Reconcile? && p in st.procs && st.procs[p] == proc && L.Holds(st.rows, proc.scope, proc.worker)
    requires proc.rpc.NextRange? && proc.start <= proc.safe && input.reply.Ok? && input.newId !in st.jobs
    requires next == proc.(start := proc.start + proc.size)
    ensures OneRangeOn(st, Apply(cfg, Apply(cfg, st, Act(p, input)), Act(p, input)), p, proc, next, input.newId)
  {
    RenewsForRange(cfg, st, p, proc, input);
    var s1 := Apply(cfg, st, Act(p, input));
    InsertsRange(cfg, s1, p, proc.(rpc := Enqueue), input);
    StaysUndisturbed(st, s1, Apply(cfg, s1, Act(p, input)), p, proc.scope);
  }

  lemma TiledOn(before: Q.Jobs, st: State, st': State, p: nat, proc: Proc, next: Proc, cursor: int, ids: nat -> Q.JobId, ts: seq<R.Attempt>, t: R.Attempt)
    requires Tiled(before, st, p, proc, cursor, ids, ts) && proc.start <= proc.safe && next == proc.(start := proc.start + proc.size)
    requires OneRangeOn(st, st', p, proc, next, ids(|ts|)) && t == R.Attempt(proc.start, Min(proc.start + proc.size - 1, proc.safe), true)
    ensures Tiled(before, st', p, next, cursor, ids, ts + [t])
  {
    OneMore(ts, t, cursor, proc.start, proc.safe, proc.size);
    OneMoreTile(before, ts, t, ids, st.now);
  }

  lemma QueuesRange(cfg: Config, before: Q.Jobs, st: State, p: nat, proc: Proc, next: Proc, cursor: int, ids: nat -> Q.JobId, ts: seq<R.Attempt>, t: R.Attempt)
    requires Tiled(before, st, p, proc, cursor, ids, ts) && Fresh(before, ids) && proc.start <= proc.safe
    requires next == proc.(start := proc.start + proc.size) && t == R.Attempt(proc.start, Min(proc.start + proc.size - 1, proc.safe), true)
    ensures var st' := Apply(cfg, Apply(cfg, st, Act(p, Answer(ids, |ts|))), Act(p, Answer(ids, |ts|)));
            && Tiled(before, st', p, next, cursor, ids, ts + [t]) && Undisturbed(st, st', p, proc.scope)
            && st'.rows[proc.scope].highest == st.rows[proc.scope].highest
  {
    var input := Answer(ids, |ts|);
    NextIsFresh(before, ts, ids, st.now);
    OneRange(cfg, st, p, proc, next, input);
    TiledOn(before, st, Apply(cfg, Apply(cfg, st, Act(p, input)), Act(p, input)), p, proc, next, cursor, ids, ts, t);
  }

  /** The actions of the loop from range `i` on, until `n` ranges are queued. */
  function LoopSteps(p: nat, ids: nat -> Q.JobId, i: nat, n: nat): seq<Step>
    decreases n - i
  {
    if i >= n then [] else [Act(p, Answer(ids, i)), Act(p, Answer(ids, i))] + LoopSteps(p, ids, i + 1, n)
  }

  lemma RunTwoSteps(cfg: Config, st: State, a: Step, b: Step, rest: seq<Step>)
    ensures Run(cfg, st, [a, b] + rest) == Run(cfg, Apply(cfg, Apply(cfg, st, a), b), rest)
  {
    assert ([a, b] + rest)[0] == a && ([a, b] + rest)[1..] == [b] + rest;
    assert ([b] + rest)[0] == b && ([b] + rest)[1..] == rest;
  }

  /** From `st` to `end` the ranges of the gap were queued. */
  ghost predicate Queued(before: Q.Jobs, st: State, end: State, p: nat, proc: Proc, last: Proc, cursor: int, ids: nat -> Q.JobId, all: seq<R.Attempt>)
    requires proc.Reconcile?
  {
    && last.Reconcile? && last == proc.(start := last.start) && last.start > last.safe
    && Tiled(before, end, p, last, cursor, ids, all) && Undisturbed(st, end, p, proc.scope)
    && end.rows[proc.scope].highest == st.rows[proc.scope].highest
  }

  lemma QueuedFirst(before: Q.Jobs, st: State, mid: State, end: State, p: nat, proc: Proc, next: Proc, last: Proc, cursor: int, ids: nat -> Q.JobId, all: seq<R.Attempt>)
    requires proc.Reconcile? && next == proc.(start := proc.start + proc.size) && Undisturbed(st, mid, p, proc.scope)
    requires mid.rows[proc.scope].highest == st.rows[proc.scope].highest && Queued(before, mid, end, p, next, last, cursor, ids, all)
    ensures Queued(before, st, end, p, proc, last, cursor, ids, all)
  {
    StaysUndisturbed(st, mid, end, p, proc.scope);
  }

  lemma LoopUnrolls(cfg: Config, st: State, p: nat, ids: nat -> Q.JobId, i: nat, n: nat)
    requires i < n
    ensures var step := Act(p, Answer(ids, i));
            Run(cfg, st, LoopSteps(p, ids, i, n)) == Run(cfg, Apply(cfg, Apply(cfg, st, step), step), LoopSteps(p, ids, i + 1, n))
  {
    var step := Act(p, Answer(ids, i));
    RunTwoSteps(cfg, st, step, step, LoopSteps(p, ids, i + 1, n));
  }

  lemma LoopOnce(cfg: Config, before: Q.Jobs, st: State, p: nat, proc: Proc, next: Proc, cursor: int, ids: nat -> Q.JobId, ts: seq<R.Attempt>, t: R.Attempt)
    returns (mid: State)
    requires Tiled(before, st, p, proc, cursor, ids, ts) && Fresh(before, ids) && proc.start <= proc.safe
    requires next == proc.(start := proc.start + proc.size) && t == R.Attempt(proc.start, Min(proc.start + proc.size - 1, proc.safe), true)
    ensures Tiled(before, mid, p, next, cursor, ids, ts + [t]) && Undisturbed(st, mid, p, proc.scope)
    ensures mid.rows[proc.scope].highest == st.rows[proc.scope].highest
    ensures forall n: nat :: n > |ts| ==> Run(cfg, st, LoopSteps(p, ids, |ts|, n)) == Run(cfg, mid, LoopSteps(p, ids, |ts| + 1, n))
  {
    QueuesRange(cfg, before, st, p, proc, next, cursor, ids, ts, t);
    var step := Act(p, Answer(ids, |ts|));
    mid := Apply(cfg, Apply(cfg, st, step), step);
    forall n: nat | n > |ts|
      ensures Run(cfg, st, LoopSteps(p, ids, |ts|, n)) == Run(cfg, mid, LoopSteps(p, ids, |ts| + 1, n))
    {
      LoopUnrolls(cfg, st, p, ids, |ts|, n);
    }
  }

  /** All ranges that are left are queued. */
  lemma {:induction false} QueuesAll(cfg: Config, before: Q.Jobs, st: State, p: nat, proc: Proc, cursor: int, ids: nat -> Q.JobId, ts: seq<R.Attempt>)
    returns (all: seq<R.Attempt>, last: Proc)
    requires Tiled(before, st, p, proc, cursor, ids, ts) && Fresh(before, ids) && proc.scope in st.rows
    ensures |all| >= |ts| && Queued(before, st, Run(cfg, st, LoopSteps(p, ids, |ts|, |all|)), p, proc, last, cursor, ids, all)
    decreases proc.safe - proc.start
  {
    if proc.start > proc.safe {
      all, last := ts, proc;
    } else {
      var next, t := proc.(start := proc.start + proc.size), R.Attempt(proc.start, Min(proc.start + proc.size - 1, proc.safe), true);
      var mid := LoopOnce(cfg, before, st, p, proc, next, cursor, ids, ts, t);
      all, last := QueuesAll(cfg, before, mid, p, next, cursor, ids, ts + [t]);
      QueuedFirst(before, st, mid, Run(cfg, mid, LoopSteps(p, ids, |ts| + 1, |all|)), p, proc, next, last, cursor, ids, all);
    }
  }

  // ----- A whole reconcile

  lemma ToJump(cfg: Config, st: State, p: nat, proc: Proc, input: Input)
    requires proc.Reconcile? && p in st.procs && st.procs[p] == proc && proc.rpc.NextRange? && proc.start > proc.safe
    ensures Apply(cfg, st, Act(p, input)) == Put(st, p, proc.(rpc := Jump))
  {
  }

  lemma Jumps(cfg: Config, st: State, p: nat, proc: Proc, input: Input)
    requires proc.Reconcile? && p in st.procs && st.procs[p] == proc && proc.rpc.Jump? && input.reply.Ok? && L.Holds(st.rows, proc.scope, proc.worker)
    ensures var st' := Apply(cfg, st, Act(p, input));
            && p in st'.procs && st'.procs[p] == proc.(rpc := LeaveScope) && st'.jobs == st.jobs && Undisturbed(st, st', p, proc.scope)
            && st'.rows[proc.scope].highest == Max(proc.safe, st.rows[proc.scope].highest)
  {
  }

  lemma Leaves(cfg: Config, st: State, p: nat, proc: Proc, input: Input)
    requires proc.Reconcile? && p in st.procs && st.procs[p] == proc && proc.rpc.LeaveScope? && input.reply.Ok? && proc.scope in st.rows
    ensures var st' := Apply(cfg, st, Act(p, input));
            && p !in st'.procs && st'.jobs == st.jobs && Undisturbed(st, st', p, proc.scope) && !L.Holds(st'.rows, proc.scope, proc.worker)
            && st'.rows[proc.scope].highest == st.rows[proc.scope].highest
  {
  }

  /** The jump, and the release. */
  lemma JumpsAndLeaves(cfg: Config, st: State, p: nat, proc: Proc, input: Input)
    requires proc.Reconcile? && p in st.procs && st.procs[p] == proc && L.Holds(st.rows, proc.scope, proc.worker)
    requires proc.rpc.NextRange? && proc.start > proc.safe && input.reply.Ok?
    ensures var end := Apply(cfg, Apply(cfg, Apply(cfg, st, Act(p, input)), Act(p, input)), Act(p, input));
            && p !in end.procs && end.jobs == st.jobs && Undisturbed(st, end, p, proc.scope) && !L.Holds(end.rows, proc.scope, proc.worker)
            && end.rows[proc.scope].highest == Max(proc.safe, st.rows[proc.scope].highest)
  {
    var s1 := Apply(cfg, st, Act(p, input));
    ToJump(cfg, st, p, proc, input);
    var s2 := Apply(cfg, s1, Act(p, input));
    Jumps(cfg, s1, p, proc.(rpc := Jump), input);
    var s3 := Apply(cfg, s2, Act(p, input));
    Leaves(cfg, s2, p, proc.(rpc := LeaveScope), input);
    StaysUndisturbed(st, s1, s2, p, proc.scope);
    StaysUndisturbed(st, s2, s3, p, proc.scope);
  }

  /** The claim. */
  lemma Claims(cfg: Config, st: State, p: nat, proc: Proc, input: Input)
    requires proc.Reconcile? && p in st.procs && st.procs[p] == proc && proc.rpc.Claim? && input.reply.Ok?
    requires proc.scope in st.rows && L.CanClaim(st.rows, proc.scope, proc.worker, st.now)
    ensures var st' := Apply(cfg, st, Act(p, input));
            && p in st'.procs && st'.procs[p] == proc.(rpc := NextRange) && st'.jobs == st.jobs && Undisturbed(st, st', p, proc.scope)
            && L.Holds(st'.rows, proc.scope, proc.worker) && st'.rows[proc.scope].highest == st.rows[proc.scope].highest
  {
  }

  /** Everything after the claim: the ranges, the jump and the release. */
  function AfterClaim(cfg: Config, claimed: State, p: nat, ids: nat -> Q.JobId, n: nat): State {
    var queued, step := Run(cfg, claimed, LoopSteps(p, ids, 0, n)), Act(p, Answer(ids, n));
    Apply(cfg, Apply(cfg, Apply(cfg, queued, step), step), step)
  }

  lemma ClaimedCompletes(cfg: Config, st: State, p: nat, proc: Proc, ids: nat -> Q.JobId) returns (all: seq<R.Attempt>)
    requires proc.Reconcile? && proc.worker != "" && p in st.procs && st.procs[p] == proc && L.Holds(st.rows, proc.scope, proc.worker)
    requires proc.rpc.NextRange? && proc.size > 0 && proc.start <= proc.safe && st.rows[proc.scope].highest == proc.start - 1 && Fresh(st.jobs, ids)
    ensures R.Tiling(all, proc.start - 1, proc.safe, proc.size) && R.FullRanges(all, proc.size) && forall i :: 0 <= i < |all| ==> all[i].ok
    ensures var end := AfterClaim(cfg, st, p, ids, |all|);
            && p !in end.procs && Undisturbed(st, end, p, proc.scope) && !L.Holds(end.rows, proc.scope, proc.worker)
            && end.jobs == R.JobsAfter(st.jobs, all, ids, st.now) && end.rows[proc.scope].highest == proc.safe
  {
    var last;
    all, last := QueuesAll(cfg, st.jobs, st, p, proc, proc.start - 1, ids, []);
    var queued := Run(cfg, st, LoopSteps(p, ids, 0, |all|));
    JumpsAndLeaves(cfg, queued, p, last, Answer(ids, |all|));
    StaysUndisturbed(st, queued, AfterClaim(cfg, st, p, ids, |all|), p, proc.scope);
  }

  /** Whatever state any run has led to: a reconcile that can have its lease, gets no error and is left alone queues a job
      for each range of the gap, full ranges of the batch size and what is left, and moves the cursor to the safe block. With
      `Reconcile.TilingPartitions` each block of the gap is in exactly one of these jobs. */
  lemma ReconcileCompletes(cfg: Config, st: State, p: nat, worker: string, scope: string, safe: int, batchSize: int, ids: nat -> Q.JobId)
    returns (all: seq<R.Attempt>)
    requires p !in st.procs && worker != "" && scope in cfg.scopes && scope in st.rows && Fresh(st.jobs, ids)
    requires 0 < st.rows[scope].highest && safe - st.rows[scope].highest >= if batchSize <= 0 then 1000 else batchSize
    requires L.CanClaim(st.rows, scope, worker, st.now)
    ensures R.Tiling(all, st.rows[scope].highest, safe, if batchSize <= 0 then 1000 else batchSize)
    ensures R.FullRanges(all, if batchSize <= 0 then 1000 else batchSize) && forall i :: 0 <= i < |all| ==> all[i].ok
    ensures var claimed := Apply(cfg, Apply(cfg, st, StartReconcile(p, worker, scope, safe, batchSize)), Act(p, Answer(ids, 0)));
            var end := AfterClaim(cfg, claimed, p, ids, |all|);
            && p !in end.procs && Undisturbed(st, end, p, scope) && !L.Holds(end.rows, scope, worker)
            && end.jobs == R.JobsAfter(st.jobs, all, ids, st.now) && end.rows[scope].highest == safe
  {
    var cursor, size := st.rows[scope].highest, if batchSize <= 0 then 1000 else batchSize;
    var started := Apply(cfg, st, StartReconcile(p, worker, scope, safe, batchSize));
    var proc := Reconcile(worker, scope, safe, size, cursor + 1, Claim);
    ReconcileStartsIff(cfg, st, p, worker, scope, safe, batchSize);
    Claims(cfg, started, p, proc, Answer(ids, 0));
    var claimed := Apply(cfg, started, Act(p, Answer(ids, 0)));
    all := ClaimedCompletes(cfg, claimed, p, proc.(rpc := NextRange), ids);
    StaysUndisturbed(started, claimed, AfterClaim(cfg, claimed, p, ids, |all|), p, scope);
  }
}
