/** Jobs whose taker is gone. The queue hands out waiting jobs only, so a running job that no process has
    stays as it is for good. */
module OrphanedJobs {
  import opened Base
  import opened ScanProtocol
  import Q = JobQueue

  /** The job is running, and no process has it. */
  ghost predicate RunsForNobody(st: State, id: Q.JobId) {
    id in st.jobs && st.jobs[id].status.Running? && !Held(st, id)
  }

  lemma ActLeavesOrphan(cfg: Config, st: State, p: nat, input: Input, id: Q.JobId)
    requires RunsForNobody(st, id) && p in st.procs
    ensures var st' := Apply(cfg, st, Act(p, input)); RunsForNobody(st', id) && st'.jobs[id] == st.jobs[id]
  {
    var st' := Apply(cfg, st, Act(p, input));
    if st.procs[p].Scan? {
      ScanLeavesJobs(cfg, st, p, st.procs[p], input);
    } else if st.procs[p].Reconcile? {
      ReconcileAddsJobs(cfg, st, p, st.procs[p], input.reply, input.newId);
    }
    NoNewHolder(st, st', p, id);
  }

  /** A scan changes no job and no other process. */
  ghost predicate LeavesJobs(st: State, st': State, p: nat) {
    st'.jobs == st.jobs && OthersSame(st, st', p) && (p in st'.procs ==> st'.procs[p].Scan?)
  }

  lemma ReadLeavesJobs(cfg: Config, st: State, p: nat, proc: Proc, input: Input)
    requires proc.Scan? && proc.pc.Read?
    ensures LeavesJobs(st, ScanAct(cfg, st, p, proc, input), p)
  {
  }

  lemma LoopLeavesJobs(cfg: Config, st: State, p: nat, proc: Proc, input: Input)
    requires proc.Scan? && (proc.pc.ColdSave? || proc.pc.Top? || proc.pc.BatchDone?)
    ensures LeavesJobs(st, ScanAct(cfg, st, p, proc, input), p)
  {
  }

  lemma FetchLeavesJobs(cfg: Config, st: State, p: nat, proc: Proc, input: Input)
    requires proc.Scan? && (proc.pc.Fetch? || proc.pc.Fetched?)
    ensures LeavesJobs(st, ScanAct(cfg, st, p, proc, input), p)
  {
  }

  lemma EventsLeaveJobs(cfg: Config, st: State, p: nat, proc: Proc, input: Input)
    requires proc.Scan? && (proc.pc.Events? || proc.pc.EventsFetched?)
    ensures LeavesJobs(st, ScanAct(cfg, st, p, proc, input), p)
  {
  }

  lemma PublishLeavesJobs(cfg: Config, st: State, p: nat, proc: Proc, input: Input)
    requires proc.Scan? && proc.pc.Publish?
    ensures LeavesJobs(st, ScanAct(cfg, st, p, proc, input), p)
  {
  }

  lemma SaveLeavesJobs(cfg: Config, st: State, p: nat, proc: Proc, input: Input)
    requires proc.Scan? && proc.pc.Save?
    ensures LeavesJobs(st, ScanAct(cfg, st, p, proc, input), p)
  {
  }

  lemma LeaveLeavesJobs(cfg: Config, st: State, p: nat, proc: Proc, input: Input)
    requires proc.Scan? && proc.pc.Leave?
    ensures LeavesJobs(st, ScanAct(cfg, st, p, proc, input), p)
  {
  }

  lemma ScanLeavesJobs(cfg: Config, st: State, p: nat, proc: Proc, input: Input)
    requires proc.Scan?
    ensures LeavesJobs(st, ScanAct(cfg, st, p, proc, input), p)
  {
    match proc.pc
    case Read(_) => ReadLeavesJobs(cfg, st, p, proc, input);
    case ColdSave => LoopLeavesJobs(cfg, st, p, proc, input);
    case Top => LoopLeavesJobs(cfg, st, p, proc, input);
    case BatchDone => LoopLeavesJobs(cfg, st, p, proc, input);
    case Fetch => FetchLeavesJobs(cfg, st, p, proc, input);
    case Fetched => FetchLeavesJobs(cfg, st, p, proc, input);
    case Events => EventsLeaveJobs(cfg, st, p, proc, input);
    case EventsFetched(_) => EventsLeaveJobs(cfg, st, p, proc, input);
    case Publish(_) => PublishLeavesJobs(cfg, st, p, proc, input);
    case Save(_, _) => SaveLeavesJobs(cfg, st, p, proc, input);
    case Leave => LeaveLeavesJobs(cfg, st, p, proc, input);
  }

  /** A reconcile changes no job that is there, and no other process. */
  ghost predicate AddsJobs(st: State, st': State, p: nat) {
    && (forall id :: id in st.jobs ==> id in st'.jobs && st'.jobs[id] == st.jobs[id])
    && OthersSame(st, st', p) && (p in st'.procs ==> st'.procs[p].Reconcile?)
  }

  lemma ClaimAddsJobs(cfg: Config, st: State, p: nat, proc: Proc, reply: Reply, newId: Q.JobId)
    requires proc.Reconcile? && (proc.rpc.Claim? || proc.rpc.LeaveScope?)
    ensures AddsJobs(st, ReconcileAct(cfg, st, p, proc, reply, newId), p)
  {
  }

  lemma EnqueueAddsJobs(cfg: Config, st: State, p: nat, proc: Proc, reply: Reply, newId: Q.JobId)
    requires proc.Reconcile? && proc.rpc.Enqueue?
    ensures AddsJobs(st, ReconcileAct(cfg, st, p, proc, reply, newId), p)
  {
  }

  lemma ReconcileAddsJobs(cfg: Config, st: State, p: nat, proc: Proc, reply: Reply, newId: Q.JobId)
    requires proc.Reconcile?
    ensures AddsJobs(st, ReconcileAct(cfg, st, p, proc, reply, newId), p)
  {
    if proc.rpc.Claim? || proc.rpc.LeaveScope? {
      ClaimAddsJobs(cfg, st, p, proc, reply, newId);
    } else if proc.rpc.Enqueue? {
      EnqueueAddsJobs(cfg, st, p, proc, reply, newId);
    }
  }

  ghost predicate OthersSame(st: State, st': State, p: nat) {
    forall q :: q in st'.procs && q != p ==> q in st.procs && st'.procs[q] == st.procs[q]
  }

  lemma NoNewHolder(st: State, st': State, p: nat, id: Q.JobId)
    requires RunsForNobody(st, id) && id in st'.jobs && st'.jobs[id] == st.jobs[id] && OthersSame(st, st', p)
    requires p in st'.procs && st'.procs[p].Replay? ==> st'.procs[p].id != id
    ensures RunsForNobody(st', id)
  {
  }

  lemma TaskLeavesOrphan(cfg: Config, st: State, p: nat, scope: string, input: Input, id: Q.JobId)
    requires RunsForNobody(st, id) && p in st.procs && st.procs[p].Replay? && scope in st.procs[p].tasks
    ensures var st' := ReplayTask(cfg, st, p, st.procs[p], scope, input); RunsForNobody(st', id) && st'.jobs[id] == st.jobs[id]
  {
    NoNewHolder(st, ReplayTask(cfg, st, p, st.procs[p], scope, input), p, id);
  }

  lemma StartLeavesOrphan(cfg: Config, st: State, step: Step, id: Q.JobId)
    requires RunsForNobody(st, id) && (step.StartScan? || step.StartReconcile? || step.StartReplay?)
    ensures RunsForNobody(Apply(cfg, st, step), id) && Apply(cfg, st, step).jobs[id] == st.jobs[id]
  {
    NoNewHolder(st, Apply(cfg, st, step), step.p, id);
  }

  lemma EndLeavesOrphan(cfg: Config, st: State, step: Step, id: Q.JobId)
    requires RunsForNobody(st, id) && (step.Crash? || step.ReplayEnd?)
    ensures RunsForNobody(Apply(cfg, st, step), id) && Apply(cfg, st, step).jobs[id] == st.jobs[id]
  {
    if step.p in st.procs && st.procs[step.p].Replay? {
      assert st.procs[step.p].id != id;
    }
    NoNewHolder(st, Apply(cfg, st, step), step.p, id);
  }

  lemma StepLeavesOrphan(cfg: Config, st: State, step: Step, id: Q.JobId)
    requires RunsForNobody(st, id)
    ensures RunsForNobody(Apply(cfg, st, step), id) && Apply(cfg, st, step).jobs[id] == st.jobs[id]
  {
    match step
    case Tick(_) => NoNewHolder(st, Apply(cfg, st, step), 0, id);
    case AdminJob(_, _, _) => NoNewHolder(st, Apply(cfg, st, step), 0, id);
    case StartScan(_, _, _, _, _) => StartLeavesOrphan(cfg, st, step, id);
    case StartReconcile(_, _, _, _, _) => StartLeavesOrphan(cfg, st, step, id);
    case StartReplay(_, _, _) => StartLeavesOrphan(cfg, st, step, id);
    case Crash(_) => EndLeavesOrphan(cfg, st, step, id);
    case ReplayEnd(_, _) => EndLeavesOrphan(cfg, st, step, id);
    case Act(p, input) =>
      if p in st.procs {
        ActLeavesOrphan(cfg, st, p, input, id);
      }
    case ReplayAct(p, scope, input) =>
      if p in st.procs && st.procs[p].Replay? && scope in st.procs[p].tasks && scope !in st.procs[p].failed {
        TaskLeavesOrphan(cfg, st, p, scope, input, id);
      }
  }

  /** In every continuation of every run, whatever is retried or restarted, a running job that no
      process has stays exactly as it is, and no process ever has it again. */
  lemma {:induction false} OrphanedForever(cfg: Config, st: State, steps: seq<Step>, id: Q.JobId)
    requires RunsForNobody(st, id)
    ensures RunsForNobody(Run(cfg, st, steps), id) && Run(cfg, st, steps).jobs[id] == st.jobs[id]
    decreases |steps|
  {
    if steps == [] {
    } else {
      StepLeavesOrphan(cfg, st, steps[0], id);
      OrphanedForever(cfg, Apply(cfg, st, steps[0]), steps[1..], id);
    }
  }
}
