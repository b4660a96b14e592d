/** When nothing is lost. The causes in `ScanProtocol` are recorded only after an incomplete answer, a failed
    enqueue, or a job that nobody finishes: runs in which none of these happens lose nothing, whatever else fails. */
module HarmlessRuns {
  import opened Base
  import opened ScanProtocol
  import opened TransferKeys
  import O = Outbox
  import Q = JobQueue
  import W = ScanLoops
  import B = BatchWindow
  import E = EndToEnd

  // ----- What must not happen

  /** The blocks returned for [lo, hi] leave none of it out: all native blocks, or both ends for a contract. */
  predicate HoldsAll(scope: string, returned: set<int>, lo: int, hi: int) {
    forall b :: lo <= b <= hi ==> if scope == TRX then b in returned else InSpan(returned, b)
  }

  predicate AllIndexed(cfg: Config, scope: string, fetched: seq<B.ChainEvent>, lo: int, hi: int) {
    forall b :: lo <= b <= hi ==> Indexed(cfg.world, scope, fetched, b)
  }

  /** An action of a scan does no harm: responses are whole, or for a contract empty, and no enqueue fails. Errors of
      fetches, renewals and cursor writes do no harm. */
  predicate ScanHarmless(cfg: Config, proc: Proc, input: Input)
    requires proc.Scan?
  {
    match proc.pc
    case Fetch =>
      || W.IsError(input.reply) || HoldsAll(proc.scope, input.blocks, proc.batchStart, BatchEnd(proc))
      || (proc.scope != TRX && input.blocks == {})
    case Events =>
      W.IsError(input.reply) || AllIndexed(cfg, proc.scope, Answer(cfg, proc.scope, proc.returned, input.events), proc.batchStart, BatchEnd(proc))
    case Publish(batch) => batch.queue != [] ==> input.reply.Ok?
    case _ => true
  }

  predicate TaskHarmless(cfg: Config, proc: Proc, scope: string, input: Input)
    requires proc.Replay? && scope in proc.tasks
  {
    match proc.tasks[scope]
    case Due(next) =>
      var end := W.BatchEnd(next, proc.hi);
      || W.IsError(input.reply)
      || (HoldsAll(scope, input.blocks, next, end)
          && (scope != TRX ==> AllIndexed(cfg, scope, Answer(cfg, scope, input.blocks, input.events), next, end)))
    case Busy(batch) => batch.queue != [] ==> input.reply.Ok?
  }

  /** Every job that is taken is marked, and no job fails for the last time. */
  predicate Harmless(cfg: Config, st: State, step: Step) {
    match step
    case Crash(p) => p in st.procs ==> !st.procs[p].Replay?
    case StartReplay(_, _, reply) => reply.Ok? || reply.Err?
    case ReplayEnd(p, reply) =>
      p in st.procs && st.procs[p].Replay? && st.procs[p].id in st.jobs ==>
        !reply.Err? && (st.procs[p].failed == {} || st.jobs[st.procs[p].id].attempts < st.jobs[st.procs[p].id].maxAttempts)
    case Act(p, input) =>
      && (p in st.procs && st.procs[p].Scan? ==> ScanHarmless(cfg, st.procs[p], input))
      && (p in st.procs && st.procs[p].Reconcile? && st.procs[p].rpc.Enqueue? ==> !input.reply.Err? && input.newId !in st.jobs)
    case ReplayAct(p, scope, input) =>
      p in st.procs && st.procs[p].Replay? && scope in st.procs[p].tasks ==> TaskHarmless(cfg, st.procs[p], scope, input)
    case _ => true
  }

  ghost predicate AllHarmless(cfg: Config, st: State, steps: seq<Step>)
    decreases |steps|
  {
    steps == [] || (Harmless(cfg, st, steps[0]) && AllHarmless(cfg, Apply(cfg, st, steps[0]), steps[1..]))
  }

  // ----- The invariant: every batch under way is whole

  ghost predicate Whole(cfg: Config, scope: string, batch: Batch) {
    && HoldsAll(scope, batch.returned, batch.lo, batch.hi) && batch.cut == {}
    && (scope != TRX ==> AllIndexed(cfg, scope, batch.fetched, batch.lo, batch.hi))
  }

  ghost predicate ProcWhole(cfg: Config, proc: Proc) {
    match proc
    case Scan(_, scope, _, _, batchStart, returned, pc) =>
      var rest := HoldsAll(scope, returned, batchStart, BatchEnd(proc));
      (match pc
       case Fetch => batchStart <= BatchEnd(proc)
       case Fetched => batchStart <= BatchEnd(proc) && (rest || (scope != TRX && returned == {}))
       case Events => rest && scope != TRX
       case EventsFetched(fetched) => rest && scope != TRX && AllIndexed(cfg, scope, fetched, batchStart, BatchEnd(proc))
       case Publish(batch) => Whole(cfg, scope, batch) && (scope == TRX ==> rest && batchStart <= batch.hi)
       case Save(_, done) => scope == TRX ==> rest && batchStart <= done
       case _ => true)
    case Reconcile(_, _, _, _, _, _) => true
    case Replay(_, _, _, tasks, _) => forall s :: s in tasks && tasks[s].Busy? ==> Whole(cfg, s, tasks[s].batch)
  }

  ghost predicate Clean(cfg: Config, st: State) {
    forall p :: p in st.procs ==> ProcWhole(cfg, st.procs[p])
  }

  /** An action of process `p` that loses nothing. */
  ghost predicate Lossless(cfg: Config, st: State, st': State, p: nat) {
    && st'.lost == st.lost && (p in st'.procs ==> ProcWhole(cfg, st'.procs[p]))
    && forall q :: q in st'.procs && q != p ==> q in st.procs && st'.procs[q] == st.procs[q]
  }

  lemma LosslessKeepsClean(cfg: Config, st: State, st': State, p: nat)
    requires Clean(cfg, st) && Lossless(cfg, st, st', p)
    ensures Clean(cfg, st')
  {
  }

  lemma SettledWhole(cfg: Config, st: State, scope: string, batch: Batch)
    requires Whole(cfg, scope, batch)
    ensures Settled(cfg, st, scope, batch).lost == st.lost
  {
    forall b | batch.lo <= b <= batch.hi
      ensures Fate(cfg.world, scope, batch, b).None?
    {
      assert !CutShort(cfg.world, scope, batch.cut, b);
    }
  }

  // ----- Scans

  lemma ReadLossless(cfg: Config, st: State, p: nat, proc: Proc, input: Input)
    requires proc.Scan? && proc.pc.Read?
    ensures Lossless(cfg, st, ScanAct(cfg, st, p, proc, input), p)
  {
  }

  lemma LeaveLossless(cfg: Config, st: State, p: nat, proc: Proc, input: Input)
    requires proc.Scan? && (proc.pc.ColdSave? || proc.pc.Leave?)
    ensures Lossless(cfg, st, ScanAct(cfg, st, p, proc, input), p)
  {
  }

  lemma LoopLossless(cfg: Config, st: State, p: nat, proc: Proc, input: Input)
    requires proc.Scan? && (proc.pc.Top? || proc.pc.BatchDone?)
    ensures Lossless(cfg, st, ScanAct(cfg, st, p, proc, input), p)
  {
  }

  lemma FetchLossless(cfg: Config, st: State, p: nat, proc: Proc, input: Input)
    requires proc.Scan? && proc.pc.Fetch? && ProcWhole(cfg, proc) && ScanHarmless(cfg, proc, input)
    ensures Lossless(cfg, st, ScanAct(cfg, st, p, proc, input), p)
  {
  }

  lemma FetchedLossless(cfg: Config, st: State, p: nat, proc: Proc, input: Input)
    requires proc.Scan? && proc.pc.Fetched? && ProcWhole(cfg, proc)
    ensures Lossless(cfg, st, ScanAct(cfg, st, p, proc, input), p)
  {
  }

  lemma EventsLossless(cfg: Config, st: State, p: nat, proc: Proc, input: Input)
    requires proc.Scan? && (proc.pc.Events? || proc.pc.EventsFetched?)
    requires ProcWhole(cfg, proc) && ScanHarmless(cfg, proc, input)
    ensures Lossless(cfg, st, ScanAct(cfg, st, p, proc, input), p)
  {
  }

  lemma PublishLossless(cfg: Config, st: State, p: nat, proc: Proc, input: Input)
    requires proc.Scan? && proc.pc.Publish? && ProcWhole(cfg, proc) && ScanHarmless(cfg, proc, input)
    ensures Lossless(cfg, st, ScanAct(cfg, st, p, proc, input), p)
  {
    if proc.pc.batch.queue == [] {
      SettledWhole(cfg, st, proc.scope, proc.pc.batch);
    }
  }

  lemma SaveLossless(cfg: Config, st: State, p: nat, proc: Proc, input: Input)
    requires proc.Scan? && proc.pc.Save? && ProcWhole(cfg, proc)
    ensures Lossless(cfg, st, ScanAct(cfg, st, p, proc, input), p)
  {
  }

  lemma ScanLossless(cfg: Config, st: State, p: nat, proc: Proc, input: Input)
    requires proc.Scan? && ProcWhole(cfg, proc) && ScanHarmless(cfg, proc, input)
    ensures Lossless(cfg, st, ScanAct(cfg, st, p, proc, input), p)
  {
    match proc.pc
    case Read(_) => ReadLossless(cfg, st, p, proc, input);
    case ColdSave => LeaveLossless(cfg, st, p, proc, input);
    case Leave => LeaveLossless(cfg, st, p, proc, input);
    case Top => LoopLossless(cfg, st, p, proc, input);
    case BatchDone => LoopLossless(cfg, st, p, proc, input);
    case Fetch => FetchLossless(cfg, st, p, proc, input);
    case Fetched => FetchedLossless(cfg, st, p, proc, input);
    case Events => EventsLossless(cfg, st, p, proc, input);
    case EventsFetched(_) => EventsLossless(cfg, st, p, proc, input);
    case Publish(_) => PublishLossless(cfg, st, p, proc, input);
    case Save(_, _) => SaveLossless(cfg, st, p, proc, input);
  }

  // ----- Everything else

  lemma ReconcileLossless(cfg: Config, st: State, p: nat, proc: Proc, input: Input)
    requires proc.Reconcile? && (proc.rpc.Enqueue? ==> !input.reply.Err? && input.newId !in st.jobs)
    ensures Lossless(cfg, st, ReconcileAct(cfg, st, p, proc, input.reply, input.newId), p)
  {
  }

  lemma TaskLossless(cfg: Config, st: State, p: nat, proc: Proc, scope: string, input: Input)
    requires proc.Replay? && scope in proc.tasks && p in st.procs && ProcWhole(cfg, st.procs[p]) && proc == st.procs[p]
    requires TaskHarmless(cfg, proc, scope, input)
    ensures Lossless(cfg, st, ReplayTask(cfg, st, p, proc, scope, input), p)
  {
    match proc.tasks[scope]
    case Due(next) =>
      if next <= proc.hi && !W.IsError(input.reply) {
        assert scope != TRX ==> InSpan(input.blocks, next);
      }
    case Busy(batch) =>
      if batch.queue == [] {
        SettledWhole(cfg, st, scope, batch);
      }
  }

  lemma StartLossless(cfg: Config, st: State, step: Step)
    requires Clean(cfg, st) && Harmless(cfg, st, step) && (step.StartScan? || step.StartReconcile? || step.StartReplay?)
    ensures Lossless(cfg, st, Apply(cfg, st, step), step.p)
  {
    if step.p in st.procs {
      assert ProcWhole(cfg, st.procs[step.p]);
    }
  }

  lemma EndLossless(cfg: Config, st: State, step: Step)
    requires Clean(cfg, st) && Harmless(cfg, st, step) && (step.Crash? || step.ReplayEnd?)
    ensures Lossless(cfg, st, Apply(cfg, st, step), step.p)
  {
    if step.p in st.procs {
      assert ProcWhole(cfg, st.procs[step.p]);
    }
  }

  lemma OtherLossless(cfg: Config, st: State, step: Step)
    requires Clean(cfg, st) && (step.Tick? || step.AdminJob?)
    ensures Apply(cfg, st, step).lost == st.lost && Clean(cfg, Apply(cfg, st, step))
  {
  }

  lemma ActLossless(cfg: Config, st: State, p: nat, input: Input)
    requires Clean(cfg, st) && Harmless(cfg, st, Act(p, input)) && p in st.procs
    ensures Lossless(cfg, st, Apply(cfg, st, Act(p, input)), p)
  {
    assert ProcWhole(cfg, st.procs[p]);
    if st.procs[p].Scan? {
      ScanLossless(cfg, st, p, st.procs[p], input);
    } else if st.procs[p].Reconcile? {
      ReconcileLossless(cfg, st, p, st.procs[p], input);
    }
  }

  /** A harmless action records no loss. */
  lemma StepLosesNothing(cfg: Config, st: State, step: Step)
    requires Clean(cfg, st) && Harmless(cfg, st, step)
    ensures Apply(cfg, st, step).lost == st.lost && Clean(cfg, Apply(cfg, st, step))
  {
    var st' := Apply(cfg, st, step);
    match step
    case Tick(_) => OtherLossless(cfg, st, step);
    case AdminJob(_, _, _) => OtherLossless(cfg, st, step);
    case StartScan(p, _, _, _, _) => StartLossless(cfg, st, step); LosslessKeepsClean(cfg, st, st', p);
    case StartReconcile(p, _, _, _, _) => StartLossless(cfg, st, step); LosslessKeepsClean(cfg, st, st', p);
    case StartReplay(p, _, _) => StartLossless(cfg, st, step); LosslessKeepsClean(cfg, st, st', p);
    case Crash(p) => EndLossless(cfg, st, step); LosslessKeepsClean(cfg, st, st', p);
    case ReplayEnd(p, _) => EndLossless(cfg, st, step); LosslessKeepsClean(cfg, st, st', p);
    case Act(p, input) =>
      if p in st.procs {
        ActLossless(cfg, st, p, input);
        LosslessKeepsClean(cfg, st, st', p);
      }
    case ReplayAct(p, scope, input) =>
      if p in st.procs && st.procs[p].Replay? && scope in st.procs[p].tasks && scope !in st.procs[p].failed {
        assert ProcWhole(cfg, st.procs[p]);
        TaskLossless(cfg, st, p, st.procs[p], scope, input);
        LosslessKeepsClean(cfg, st, st', p);
      }
  }

  lemma {:induction false} RunLosesNothing(cfg: Config, st: State, steps: seq<Step>)
    requires Clean(cfg, st) && AllHarmless(cfg, st, steps)
    ensures Run(cfg, st, steps).lost == st.lost && Clean(cfg, Run(cfg, st, steps))
    decreases |steps|
  {
    if steps == [] {
    } else {
      StepLosesNothing(cfg, st, steps[0]);
      RunLosesNothing(cfg, Apply(cfg, st, steps[0]), steps[1..]);
    }
  }

  /** In every harmless run, with any interleaving, failed fetches, renewals and cursor writes, takeovers, crashes of
      scans and reconciles, and failed replays that are tried again: each block that a cursor has passed was published in
      full, its keys being in the outbox, or waits in a job that will be handed out or that a process is replaying. */
  lemma HarmlessRunIsComplete(cfg: Config, st: State, steps: seq<Step>, scope: string, b: int)
    requires E.Setting(cfg) && Start(cfg, st) && O.Current(st.outbox) && scope in cfg.scopes && AllHarmless(cfg, st, steps)
    requires var end := Run(cfg, st, steps);
             scope in end.rows && st.rows[scope].highest < b <= end.rows[scope].highest
    ensures var end := Run(cfg, st, steps);
            || ((scope, b) in end.visited && O.BlockKeys(cfg.world, scope, b) <= end.outbox.Keys)
            || InOpenJob(end, b)
  {
    RunLosesNothing(cfg, st, steps);
    NoGap(cfg, st, steps, scope, b);
    E.RunKeepsRows(cfg, st.outbox, st, steps);
  }
}
