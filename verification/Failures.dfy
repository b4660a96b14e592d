/** What failures do to a process of the interleaved protocol: an error without effect changes nothing but its
    process, a scan ends at the first error or lost lease, and a renewed lease shields its scope from everybody else. */
module Failures {
  import opened Base
  import opened ScanProtocol
  import L = CursorLease
  import W = ScanLoops
  import Q = JobQueue

  // ----- Errors

  /** An action that fails without effect leaves cursors, leases, jobs and outbox as they are. */
  lemma FailedActionHasNoEffect(cfg: Config, st: State, p: nat, input: Input)
    requires input.reply.Err?
    ensures var st' := Apply(cfg, st, Act(p, input)); st'.rows == st.rows && st'.jobs == st.jobs && st'.outbox == st.outbox && st'.now == st.now
  {
    if p in st.procs && st.procs[p].Scan? {
      FailedScanActionHasNoEffect(cfg, st, p, st.procs[p], input);
    }
  }

  lemma FailedScanActionHasNoEffect(cfg: Config, st: State, p: nat, proc: Proc, input: Input)
    requires input.reply.Err? && proc.Scan?
    ensures var st' := ScanAct(cfg, st, p, proc, input); st'.rows == st.rows && st'.jobs == st.jobs && st'.outbox == st.outbox && st'.now == st.now
  {
  }

  /** What ends a scan before its target: an error of a fetch, a read, a renewal or a cursor write, a renewal without the
      lease, a write against another's lease, or no blocks for a contract. */
  predicate Stops(st: State, proc: Proc, input: Input)
    requires proc.Scan?
  {
    match proc.pc
    case Read(_) => !input.reply.Ok?
    case Top => !(input.reply.Ok? && L.Holds(st.rows, proc.scope, proc.worker))
    case Fetch => W.IsError(input.reply)
    case Fetched => !(input.reply.Ok? && L.Holds(st.rows, proc.scope, proc.worker)) || (proc.scope != TRX && proc.returned == {})
    case Events => W.IsError(input.reply)
    case EventsFetched(_) => !(input.reply.Ok? && L.Holds(st.rows, proc.scope, proc.worker))
    case Save(_, _) => !(input.reply.Ok? && L.CanWrite(st.rows, proc.scope, proc.worker, st.now))
    case BatchDone => !(input.reply.Ok? && L.Holds(st.rows, proc.scope, proc.worker))
    case _ => false
  }

  /** A scan that is not at its end goes on to leave if and only if one of these happens. Errors while events are
      enqueued never end it. */
  lemma ScanStopsIff(cfg: Config, st: State, p: nat, input: Input)
    requires p in st.procs && st.procs[p].Scan? && !st.procs[p].pc.ColdSave? && !st.procs[p].pc.Leave?
    requires st.procs[p].pc.Top? ==> st.procs[p].batchStart <= st.procs[p].latest
    requires st.procs[p].pc.Read? ==>
               L.HighestBlock(st.rows, st.procs[p].scope) > 0 && Max(st.procs[p].pc.atClaim, L.HighestBlock(st.rows, st.procs[p].scope)) < st.procs[p].latest
    ensures var st' := Apply(cfg, st, Act(p, input));
            && p in st'.procs && st'.procs[p].Scan? && (st'.procs[p].pc.Leave? <==> Stops(st, st.procs[p], input))
  {
  }

  /** Leaving takes one action, and then the worker does not hold the scope unless that action failed. */
  lemma LeaveReleases(cfg: Config, st: State, p: nat, input: Input)
    requires p in st.procs && st.procs[p].Scan? && st.procs[p].pc.Leave?
    ensures var st' := Apply(cfg, st, Act(p, input));
            && p !in st'.procs && (!input.reply.Err? ==> !L.Holds(st'.rows, st.procs[p].scope, st.procs[p].worker))
            && (st.procs[p].scope in st.rows ==> st'.rows[st.procs[p].scope].highest == st.rows[st.procs[p].scope].highest)
  {
  }

  // ----- Starting

  /** A scan starts if and only if its scope is known and its claim succeeds and is answered. If only the answer is lost
      the lease is taken and nobody scans. */
  lemma ScanStartsIff(cfg: Config, st: State, p: nat, worker: string, scope: string, latest: int, reply: Reply)
    requires p !in st.procs
    ensures var st' := Apply(cfg, st, StartScan(p, worker, scope, latest, reply));
            var granted := scope in cfg.scopes && L.CanClaim(st.rows, scope, worker, st.now) && !reply.Err?;
            && (p in st'.procs <==> granted && reply.Ok?)
            && (granted ==> L.Holds(st'.rows, scope, worker))
            && (!granted ==> st' == st)
            && (p in st'.procs ==> st'.procs[p] == Scan(worker, scope, latest, 0, 0, {}, Read(L.HighestBlock(st.rows, scope))))
  {
  }

  /** A replay starts if and only if its job waits and is due, and the claim is answered. If only the answer is lost the
      job runs for nobody, and what it leaves behind is recorded. */
  lemma ReplayStartsIff(cfg: Config, st: State, p: nat, id: Q.JobId, reply: Reply)
    requires p !in st.procs
    ensures var st' := Apply(cfg, st, StartReplay(p, id, reply));
            var taken := id in st.jobs && Q.Eligible(st.jobs[id], st.now) && !reply.Err?;
            && (p in st'.procs <==> taken && reply.Ok?)
            && (taken ==> st'.jobs == st.jobs[id := st.jobs[id].(status := Q.Running, attempts := st.jobs[id].attempts + 1, lockedAt := Some(st.now))])
            && (!taken ==> st' == st)
            && (taken && !reply.Ok? ==> st'.procs == st.procs && forall s, b :: s in cfg.scopes && st.jobs[id].from <= b <= st.jobs[id].to ==> Passed(st', s, b))
            && (p in st'.procs ==> st'.procs[p].Replay? && st'.procs[p].id == id && st'.procs[p].lo == st.jobs[id].from && st'.procs[p].hi == st.jobs[id].to)
  {
    if id in st.jobs && Q.Eligible(st.jobs[id], st.now) && !reply.Err? && !reply.Ok? {
      var st' := Apply(cfg, st, StartReplay(p, id, reply));
      forall s, b | s in cfg.scopes && st.jobs[id].from <= b <= st.jobs[id].to
        ensures Passed(st', s, b)
      {
        AbandonedPasses(cfg, st, st', st.jobs[id].from, st.jobs[id].to, Orphaned, s, b);
      }
    }
  }

  /** A job whose range is reversed cannot be replayed: its replay ends at once in a failure. */
  lemma ReversedJobFails(cfg: Config, st: State, p: nat, id: Q.JobId)
    requires p !in st.procs && id in st.jobs && Q.Eligible(st.jobs[id], st.now) && st.jobs[id].from > st.jobs[id].to && cfg.scopes != {}
    ensures var end := Apply(cfg, Apply(cfg, st, StartReplay(p, id, Ok)), ReplayEnd(p, Ok));
            && p !in end.procs && id in end.jobs && end.visited == st.visited && end.rows == st.rows
            && (end.jobs[id].status.Failed? || end.jobs[id].status.Dead?)
  {
  }

  /** A mark that fails changes no job. */
  lemma FailedMarkHasNoEffect(cfg: Config, st: State, p: nat)
    ensures var st' := Apply(cfg, st, ReplayEnd(p, Err)); st'.jobs == st.jobs && st'.rows == st.rows && st'.outbox == st.outbox && st'.visited == st.visited
  {
  }

  /** A range that an administrator queues waits in its job from then on, if it is a range; otherwise nothing happens. */
  lemma AdminJobWaits(cfg: Config, st: State, id: Q.JobId, lo: int, hi: int)
    requires id !in st.jobs
    ensures var st' := Apply(cfg, st, AdminJob(id, lo, hi));
            && (0 < lo <= hi ==> id in st'.jobs && st'.jobs[id].from == lo && st'.jobs[id].to == hi && Q.Eligible(st'.jobs[id], st.now)
                                 && st'.jobs[id].attempts == 0 && st'.jobs[id].maxAttempts == 10 && forall b :: lo <= b <= hi ==> InOpenJob(st', b))
            && (!(0 < lo <= hi) ==> st' == st)
  {
    var st' := Apply(cfg, st, AdminJob(id, lo, hi));
    if 0 < lo <= hi {
      assert Open(st', id);
    }
  }

  // ----- Replays keep to their range

  predicate TaskInRange(t: Task, lo: int, hi: int) {
    match t
    case Due(next) => lo <= next <= hi + 1
    case Busy(batch) => lo <= batch.lo <= batch.hi <= hi
  }

  /** What the replay does in each scope lies inside the range of its job. */
  ghost predicate InRange(proc: Proc) {
    proc.Replay? && forall s :: s in proc.tasks ==> TaskInRange(proc.tasks[s], proc.lo, proc.hi)
  }

  /** Blocks are visited and passed over in this range only. */
  ghost predicate OnlyIn(st: State, st': State, scope: string, lo: int, hi: int) {
    && (forall v :: v in st'.visited && v !in st.visited ==> v.0 == scope && lo <= v.1 <= hi)
    && (forall l :: l in st'.lost && l !in st.lost ==> l.scope == scope && lo <= l.block <= hi)
  }

  lemma SettledOnlyIn(cfg: Config, st: State, scope: string, batch: Batch)
    ensures OnlyIn(st, Settled(cfg, st, scope, batch), scope, batch.lo, batch.hi)
  {
  }

  lemma LostOnlyIn(st: State, cause: Cause, scope: string, lo: int, hi: int)
    ensures OnlyIn(st, st.(lost := st.lost + Lost(cause, scope, Range(lo, hi))), scope, lo, hi)
  {
  }

  lemma TaskKeepsRange(proc: Proc, scope: string, t: Task)
    requires InRange(proc) && TaskInRange(t, proc.lo, proc.hi)
    ensures InRange(proc.(tasks := proc.tasks[scope := t]))
  {
  }

  lemma FetchKeepsToRange(cfg: Config, st: State, p: nat, proc: Proc, scope: string, next: int, input: Input)
    requires InRange(proc) && scope in proc.tasks && proc.tasks[scope] == Due(next) && p in st.procs && st.procs[p] == proc
    ensures var st' := ReplayFetch(cfg, st, p, proc, scope, next, input);
            p in st'.procs && InRange(st'.procs[p]) && OnlyIn(st, st', scope, proc.lo, proc.hi)
  {
    var end := W.BatchEnd(next, proc.hi);
    assert TaskInRange(proc.tasks[scope], proc.lo, proc.hi);
    if next <= proc.hi && !W.IsError(input.reply) {
      TaskKeepsRange(proc, scope, NextTask(cfg, scope, next, end, input));
      LostOnlyIn(st, EmptyReplay, scope, next, end);
    }
  }

  lemma PublishKeepsToRange(cfg: Config, st: State, p: nat, proc: Proc, scope: string, batch: Batch, reply: Reply)
    requires InRange(proc) && scope in proc.tasks && proc.tasks[scope] == Busy(batch)
    ensures var st' := ReplayPublish(cfg, st, p, proc, scope, batch, reply);
            p in st'.procs && InRange(st'.procs[p]) && OnlyIn(st, st', scope, proc.lo, proc.hi)
  {
    assert TaskInRange(proc.tasks[scope], proc.lo, proc.hi);
    if batch.queue != [] {
      TaskKeepsRange(proc, scope, Busy(Remaining(batch, reply)));
    } else {
      TaskKeepsRange(proc, scope, Due(batch.hi + 1));
      SettledOnlyIn(cfg, st, scope, batch);
    }
  }

  /** An action of a replay stays in the range of its job, and visits and passes over only blocks in it. */
  lemma ReplayKeepsToRange(cfg: Config, st: State, p: nat, scope: string, input: Input)
    requires p in st.procs && InRange(st.procs[p])
    ensures var st' := Apply(cfg, st, ReplayAct(p, scope, input));
            p in st'.procs && InRange(st'.procs[p]) && OnlyIn(st, st', scope, st.procs[p].lo, st.procs[p].hi)
  {
    var proc := st.procs[p];
    if scope in proc.tasks && scope !in proc.failed {
      match proc.tasks[scope]
      case Due(next) => FetchKeepsToRange(cfg, st, p, proc, scope, next, input);
      case Busy(batch) => PublishKeepsToRange(cfg, st, p, proc, scope, batch, input.reply);
    }
  }

  // ----- A renewed lease

  /** The row is held by the worker to that time, and the process is the only one with the name of the worker. */
  ghost predicate Shielded(st: State, scope: string, worker: string, p: nat, until: int) {
    && worker != "" && scope in st.rows && st.rows[scope].lockedBy == Some(worker) && st.rows[scope].lockedUntil == Some(until)
    && forall q :: q in st.procs && q != p && !st.procs[q].Replay? ==> st.procs[q].worker != worker
  }

  /** An action of anybody else. */
  predicate ByOthers(step: Step, p: nat, worker: string) {
    match step
    case Act(q, _) => q != p
    case StartScan(q, k, _, _, _) => q != p && k != worker && k != ""
    case StartReconcile(q, k, _, _, _) => q != p && k != worker && k != ""
    case StartReplay(q, _, _) => q != p
    case Crash(q) => q != p
    case _ => true
  }

  ghost predicate NamedProcs(st: State) {
    forall q :: q in st.procs && !st.procs[q].Replay? ==> st.procs[q].worker != ""
  }

  /** A renewal that goes through holds the scope for ten minutes from its time. */
  lemma RenewalHolds(cfg: Config, st: State, p: nat, input: Input)
    requires p in st.procs && st.procs[p].Scan? && input.reply.Ok? && L.Holds(st.rows, st.procs[p].scope, st.procs[p].worker)
    requires (st.procs[p].pc.Top? && st.procs[p].batchStart <= st.procs[p].latest) || st.procs[p].pc.Fetched? || st.procs[p].pc.EventsFetched? || st.procs[p].pc.BatchDone?
    ensures var st' := Apply(cfg, st, Act(p, input));
            var scope := st.procs[p].scope;
            && scope in st'.rows && st'.rows[scope] == st.rows[scope].(lockedUntil := Some(st.now + 600 * L.SECOND))
  {
  }

  /** The row is the worker's until then. */
  predicate RowHeld(rows: L.Cursors, scope: string, worker: string, until: int) {
    worker != "" && scope in rows && rows[scope].lockedBy == Some(worker) && rows[scope].lockedUntil == Some(until)
  }

  /** No statement of another worker touches a row before the deadline of its lease. */
  lemma StatementsLeaveRow(rows: L.Cursors, scope: string, worker: string, until: int, s: string, other: string, block: int, now: int)
    requires RowHeld(rows, scope, worker, until) && other != worker && other != "" && now < until
    ensures scope in L.Claim(rows, s, other, now, 0) && L.Claim(rows, s, other, now, 0)[scope] == rows[scope]
    ensures scope in L.Renew(rows, s, other, now, 0) && L.Renew(rows, s, other, now, 0)[scope] == rows[scope]
    ensures scope in L.Release(rows, s, other) && L.Release(rows, s, other)[scope] == rows[scope]
    ensures scope in L.SetBlock(rows, s, block, other, now) && L.SetBlock(rows, s, block, other, now)[scope] == rows[scope]
  {
  }

  /** What an action of process `q` leaves alone. */
  ghost predicate LeavesRow(st: State, st': State, q: nat, scope: string, worker: string) {
    && scope in st.rows && scope in st'.rows && st'.rows[scope] == st.rows[scope] && st'.now == st.now
    && (forall r :: r in st'.procs && r != q ==> r in st.procs && st'.procs[r] == st.procs[r])
    && (forall r :: r in st.procs && r != q ==> r in st'.procs)
    && (q in st'.procs && !st'.procs[q].Replay? ==> st'.procs[q].worker != worker && st'.procs[q].worker != "")
  }

  lemma ReadLeavesRow(cfg: Config, st: State, q: nat, proc: Proc, input: Input, scope: string, worker: string, until: int)
    requires proc.Scan? && proc.worker != worker && proc.worker != "" && RowHeld(st.rows, scope, worker, until) && st.now < until
    requires proc.pc.Read? || proc.pc.Fetch? || proc.pc.Events? || proc.pc.Publish?
    ensures LeavesRow(st, ScanAct(cfg, st, q, proc, input), q, scope, worker)
  {
  }

  lemma RenewalLeavesRow(cfg: Config, st: State, q: nat, proc: Proc, input: Input, scope: string, worker: string, until: int)
    requires proc.Scan? && proc.worker != worker && proc.worker != "" && RowHeld(st.rows, scope, worker, until) && st.now < until
    requires proc.pc.Top? || proc.pc.Fetched? || proc.pc.EventsFetched? || proc.pc.BatchDone?
    ensures LeavesRow(st, ScanAct(cfg, st, q, proc, input), q, scope, worker)
  {
    StatementsLeaveRow(st.rows, scope, worker, until, proc.scope, proc.worker, 0, st.now);
  }

  lemma SaveLeavesRow(cfg: Config, st: State, q: nat, proc: Proc, input: Input, scope: string, worker: string, until: int)
    requires proc.Scan? && proc.worker != worker && proc.worker != "" && RowHeld(st.rows, scope, worker, until) && st.now < until
    requires proc.pc.Save? || proc.pc.ColdSave? || proc.pc.Leave?
    ensures LeavesRow(st, ScanAct(cfg, st, q, proc, input), q, scope, worker)
  {
    StatementsLeaveRow(st.rows, scope, worker, until, proc.scope, proc.worker, if proc.pc.Save? then proc.pc.cursor else proc.latest, st.now);
  }

  lemma ScanLeavesRow(cfg: Config, st: State, q: nat, proc: Proc, input: Input, scope: string, worker: string, until: int)
    requires proc.Scan? && proc.worker != worker && proc.worker != "" && RowHeld(st.rows, scope, worker, until) && st.now < until
    ensures LeavesRow(st, ScanAct(cfg, st, q, proc, input), q, scope, worker)
  {
    if proc.pc.Read? || proc.pc.Fetch? || proc.pc.Events? || proc.pc.Publish? {
      ReadLeavesRow(cfg, st, q, proc, input, scope, worker, until);
    } else if proc.pc.Save? || proc.pc.ColdSave? || proc.pc.Leave? {
      SaveLeavesRow(cfg, st, q, proc, input, scope, worker, until);
    } else {
      RenewalLeavesRow(cfg, st, q, proc, input, scope, worker, until);
    }
  }

  lemma ReconcileLeavesRow(cfg: Config, st: State, q: nat, proc: Proc, input: Input, scope: string, worker: string, until: int)
    requires proc.Reconcile? && proc.worker != worker && proc.worker != "" && RowHeld(st.rows, scope, worker, until) && st.now < until
    ensures LeavesRow(st, ReconcileAct(cfg, st, q, proc, input.reply, input.newId), q, scope, worker)
  {
    StatementsLeaveRow(st.rows, scope, worker, until, proc.scope, proc.worker, proc.safe, st.now);
    match proc.rpc
    case Claim =>
    case NextRange =>
    case Enqueue =>
    case Jump =>
    case LeaveScope =>
  }

  lemma StartLeavesRow(cfg: Config, st: State, step: Step, scope: string, worker: string, p: nat, until: int)
    requires RowHeld(st.rows, scope, worker, until) && st.now < until && ByOthers(step, p, worker) && p in st.procs
    requires step.StartScan? || step.StartReconcile? || step.StartReplay?
    ensures var st' := Apply(cfg, st, step);
            || (st'.procs == st.procs && scope in st'.rows && st'.rows[scope] == st.rows[scope] && st'.now == st.now)
            || (step.p != p && LeavesRow(st, st', step.p, scope, worker))
  {
    if step.StartScan? {
      StatementsLeaveRow(st.rows, scope, worker, until, step.scope, step.worker, 0, st.now);
    }
  }

  lemma EndLeavesRow(cfg: Config, st: State, step: Step, scope: string, worker: string, p: nat)
    requires scope in st.rows && ByOthers(step, p, worker) && (step.Crash? || step.ReplayEnd? || step.ReplayAct?)
    requires p in st.procs && !st.procs[p].Replay?
    requires forall q :: q in st.procs && q != p && !st.procs[q].Replay? ==> st.procs[q].worker != worker && st.procs[q].worker != ""
    ensures if step.p == p then Apply(cfg, st, step) == st else LeavesRow(st, Apply(cfg, st, step), step.p, scope, worker)
  {
    match step
    case Crash(q) => CrashLeavesRow(cfg, st, q, scope, worker);
    case ReplayEnd(q, reply) =>
      if q in st.procs && st.procs[q].Replay? {
        FinishLeavesRow(cfg, st, q, reply, scope, worker);
      }
    case ReplayAct(q, s, input) =>
      if q in st.procs && st.procs[q].Replay? && s in st.procs[q].tasks && s !in st.procs[q].failed {
        TaskLeavesRow(cfg, st, q, s, input, scope, worker);
      }
  }

  lemma CrashLeavesRow(cfg: Config, st: State, q: nat, scope: string, worker: string)
    requires scope in st.rows
    ensures LeavesRow(st, Apply(cfg, st, Crash(q)), q, scope, worker)
  {
  }

  lemma FinishLeavesRow(cfg: Config, st: State, q: nat, reply: Reply, scope: string, worker: string)
    requires scope in st.rows && q in st.procs && st.procs[q].Replay?
    ensures LeavesRow(st, ReplayFinish(cfg, st, q, st.procs[q], reply), q, scope, worker)
  {
  }

  lemma TaskLeavesRow(cfg: Config, st: State, q: nat, s: string, input: Input, scope: string, worker: string)
    requires scope in st.rows && q in st.procs && st.procs[q].Replay? && s in st.procs[q].tasks
    ensures LeavesRow(st, ReplayTask(cfg, st, q, st.procs[q], s, input), q, scope, worker)
  {
  }

  lemma RowStaysShielded(st: State, st': State, scope: string, worker: string, p: nat, until: int, q: nat)
    requires Shielded(st, scope, worker, p, until) && NamedProcs(st) && q != p && LeavesRow(st, st', q, scope, worker)
    ensures StillShielded(st, st', scope, worker, p, until)
  {
  }

  ghost predicate StillShielded(st: State, st': State, scope: string, worker: string, p: nat, until: int) {
    && Shielded(st', scope, worker, p, until) && NamedProcs(st') && scope in st.rows && st'.rows[scope] == st.rows[scope]
    && (p in st.procs ==> p in st'.procs && st'.procs[p] == st.procs[p])
  }

  lemma OtherStepShielded(cfg: Config, st: State, step: Step, scope: string, worker: string, p: nat, until: int)
    requires Shielded(st, scope, worker, p, until) && NamedProcs(st) && ByOthers(step, p, worker) && st.now < until
    requires p in st.procs && !st.procs[p].Replay?
    ensures StillShielded(st, Apply(cfg, st, step), scope, worker, p, until)
  {
    var st' := Apply(cfg, st, step);
    if step.StartScan? || step.StartReconcile? || step.StartReplay? {
      StartLeavesRow(cfg, st, step, scope, worker, p, until);
      if step.p != p && LeavesRow(st, st', step.p, scope, worker) {
        RowStaysShielded(st, st', scope, worker, p, until, step.p);
      }
    } else if step.Act? && step.p in st.procs {
      if st.procs[step.p].Scan? {
        ScanLeavesRow(cfg, st, step.p, st.procs[step.p], step.input, scope, worker, until);
        RowStaysShielded(st, st', scope, worker, p, until, step.p);
      } else if st.procs[step.p].Reconcile? {
        ReconcileLeavesRow(cfg, st, step.p, st.procs[step.p], step.input, scope, worker, until);
        RowStaysShielded(st, st', scope, worker, p, until, step.p);
      }
    } else if step.Crash? || step.ReplayEnd? || step.ReplayAct? {
      EndLeavesRow(cfg, st, step, scope, worker, p);
      if step.p != p {
        RowStaysShielded(st, st', scope, worker, p, until, step.p);
      }
    }
  }

  predicate AllByOthers(steps: seq<Step>, p: nat, worker: string) {
    forall i :: 0 <= i < |steps| ==> ByOthers(steps[i], p, worker)
  }

  lemma {:induction false} TimeNeverRewinds(cfg: Config, st: State, steps: seq<Step>)
    ensures st.now <= Run(cfg, st, steps).now
    decreases |steps|
  {
    if steps == [] {
    } else {
      StepNeverRewinds(cfg, st, steps[0]);
      TimeNeverRewinds(cfg, Apply(cfg, st, steps[0]), steps[1..]);
    }
  }

  lemma StepNeverRewinds(cfg: Config, st: State, step: Step)
    ensures st.now <= Apply(cfg, st, step).now
  {
    if step.Act? && step.p in st.procs && st.procs[step.p].Scan? {
      ScanNeverRewinds(cfg, st, step.p, st.procs[step.p], step.input);
    }
  }

  lemma ScanNeverRewinds(cfg: Config, st: State, p: nat, proc: Proc, input: Input)
    requires proc.Scan?
    ensures ScanAct(cfg, st, p, proc, input).now == st.now
  {
  }

  /** Until the deadline of a lease, whatever all other processes do, crashes included, neither cursor nor lease of the scope
      changes, and the scan that holds it finds everything as it left it. */
  lemma {:induction false} LeaseShields(cfg: Config, st: State, steps: seq<Step>, scope: string, worker: string, p: nat, until: int)
    requires Shielded(st, scope, worker, p, until) && NamedProcs(st) && AllByOthers(steps, p, worker)
    requires p in st.procs && !st.procs[p].Replay? && Run(cfg, st, steps).now < until
    ensures var end := Run(cfg, st, steps);
            scope in end.rows && end.rows[scope] == st.rows[scope] && p in end.procs && end.procs[p] == st.procs[p]
    decreases |steps|
  {
    TimeNeverRewinds(cfg, st, steps);
    if steps == [] {
    } else {
      OtherStepShielded(cfg, st, steps[0], scope, worker, p, until);
      LeaseShields(cfg, Apply(cfg, st, steps[0]), steps[1..], scope, worker, p, until);
    }
  }

  /** So a scan that renews in time keeps its scope: for ten minutes from a renewal that went through nobody else moves
      the cursor, takes the lease or stops the scan. */
  lemma RenewedScanKeepsScope(cfg: Config, st: State, p: nat, input: Input, steps: seq<Step>)
    requires p in st.procs && st.procs[p].Scan? && input.reply.Ok? && st.procs[p].worker != ""
    requires L.Holds(st.rows, st.procs[p].scope, st.procs[p].worker) && NamedProcs(st)
    requires forall q :: q in st.procs && q != p && !st.procs[q].Replay? ==> st.procs[q].worker != st.procs[p].worker
    requires (st.procs[p].pc.Top? && st.procs[p].batchStart <= st.procs[p].latest) || st.procs[p].pc.Fetched? || st.procs[p].pc.EventsFetched? || st.procs[p].pc.BatchDone?
    requires AllByOthers(steps, p, st.procs[p].worker)
    requires Run(cfg, Apply(cfg, st, Act(p, input)), steps).now < st.now + 600 * L.SECOND
    ensures var scope := st.procs[p].scope;
            var renewed := Apply(cfg, st, Act(p, input));
            var end := Run(cfg, renewed, steps);
            && p in renewed.procs && p in end.procs && end.procs[p] == renewed.procs[p]
            && scope in end.rows && end.rows[scope] == st.rows[scope].(lockedUntil := Some(st.now + 600 * L.SECOND))
  {
    var renewed, worker := Apply(cfg, st, Act(p, input)), st.procs[p].worker;
    RenewalHolds(cfg, st, p, input);
    RenewalMovesOnly(cfg, st, p, input);
    LeaseShields(cfg, renewed, steps, st.procs[p].scope, worker, p, st.now + 600 * L.SECOND);
  }

  lemma RenewalMovesOnly(cfg: Config, st: State, p: nat, input: Input)
    requires p in st.procs && st.procs[p].Scan?
    requires st.procs[p].pc.Top? || st.procs[p].pc.Fetched? || st.procs[p].pc.EventsFetched? || st.procs[p].pc.BatchDone?
    ensures var st' := Apply(cfg, st, Act(p, input));
            && p in st'.procs && st'.procs == st.procs[p := st'.procs[p]] && st'.procs[p].Scan? && st'.procs[p].worker == st.procs[p].worker && st'.now == st.now
  {
  }
}
