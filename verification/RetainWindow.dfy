/** What the retain window is for. The events of a block may reach the index late; a scan of a contract asks
    again until the block is `retain` blocks behind its target. So if whatever is missing has arrived by then, nothing
    is lost, however many earlier answers lacked it and whatever failed before. */
module RetainWindow {
  import opened Base
  import opened ScanProtocol
  import opened Plans
  import L = CursorLease
  import W = ScanLoops
  import O = Outbox
  import B = BatchWindow
  import E = EndToEnd

  /** The scan is towards a target that the block is at least `retain` blocks behind, and asks for the block. */
  predicate AsksLate(cfg: Config, proc: Proc, b: int)
    requires proc.Scan?
  {
    proc.batchStart <= b && b + cfg.retain <= proc.latest
  }

  /** What is demanded of one action for the sake of block `b`: no reconcile jumps over its scope, a scan of the
      scope is at most one batch behind, and a scan that asks for the block late finds it: its response spans the block,
      the index holds its events, and they can be enqueued. */
  ghost predicate Prompt(cfg: Config, st: State, step: Step, scope: string, b: int) {
    && (step.StartReconcile? ==> step.scope != scope)
    && (step.Act? && step.p in st.procs && st.procs[step.p].Scan? && st.procs[step.p].scope == scope ==>
          ScanPrompt(cfg, st, st.procs[step.p], step.input, b))
  }

  ghost predicate ScanPrompt(cfg: Config, st: State, proc: Proc, input: Input, b: int)
    requires proc.Scan?
  {
    match proc.pc
    case Read(a) => proc.latest - Max(a, L.HighestBlock(st.rows, proc.scope)) <= 100
    case Fetch => AsksLate(cfg, proc, b) && !W.IsError(input.reply) ==> InSpan(input.blocks, b)
    case Events =>
      AsksLate(cfg, proc, b) && !W.IsError(input.reply) ==>
        Indexed(cfg.world, proc.scope, Answer(cfg, proc.scope, proc.returned, input.events), b)
    case Publish(batch) => AsksLate(cfg, proc, b) && batch.queue != [] ==> input.reply.Ok?
    case _ => true
  }

  ghost predicate AllPrompt(cfg: Config, st: State, steps: seq<Step>, scope: string, b: int)
    decreases |steps|
  {
    steps == [] || (Prompt(cfg, st, steps[0], scope, b) && AllPrompt(cfg, Apply(cfg, st, steps[0]), steps[1..], scope, b))
  }

  // ----- The invariant

  /** A scan of the scope may pass the block only once it is visited, and holds all it needs for the block if it
      asks for it late. `visited` says whether the block is visited. */
  ghost predicate ScanOk(cfg: Config, proc: Proc, b: int, visited: bool)
    requires proc.Scan?
  {
    var one := proc.batchStart == proc.from + 1 <= proc.latest < proc.batchStart + 100;
    var late := AsksLate(cfg, proc, b);
    && (!proc.pc.Read? && !proc.pc.Leave? && proc.from >= b ==> visited)
    && (match proc.pc
        case Read(a) => a >= b ==> visited
        case ColdSave => false
        case Leave => true
        case Top => one || proc.batchStart > proc.latest
        case Fetch => one
        case Fetched => one && (late ==> InSpan(proc.returned, b))
        case Events => one && (late ==> InSpan(proc.returned, b))
        case EventsFetched(fetched) => one && (late ==> InSpan(proc.returned, b) && Indexed(cfg.world, proc.scope, fetched, b))
        case Publish(batch) =>
          && one && batch.lo == proc.batchStart && batch.hi == proc.latest
          && (late ==> InSpan(batch.returned, b) && Indexed(cfg.world, proc.scope, batch.fetched, b) && batch.cut == {})
        case Save(c, _) => proc.latest < proc.batchStart + 100 && (c >= b ==> visited)
        case BatchDone => proc.latest < proc.batchStart + 100)
  }

  ghost predicate ProcOk(cfg: Config, proc: Proc, scope: string, b: int, visited: bool) {
    && (proc.Reconcile? ==> proc.scope != scope)
    && (proc.Scan? && proc.scope == scope ==> ScanOk(cfg, proc, b, visited))
  }

  ghost predicate Kept(cfg: Config, st: State, scope: string, b: int) {
    && scope in st.rows && st.rows[scope].highest > 0
    && (st.rows[scope].highest >= b ==> (scope, b) in st.visited)
    && forall p :: p in st.procs ==> ProcOk(cfg, st.procs[p], scope, b, (scope, b) in st.visited)
  }

  /** An action of one process. */
  lemma OneAction(cfg: Config, st: State, st': State, p: nat, scope: string, b: int)
    requires Kept(cfg, st, scope, b) && st.visited <= st'.visited
    requires scope in st'.rows && st'.rows[scope].highest >= st.rows[scope].highest
    requires st'.rows[scope].highest == st.rows[scope].highest || st'.rows[scope].highest < b || (scope, b) in st'.visited
    requires forall q :: q in st'.procs && q != p ==> q in st.procs && st'.procs[q] == st.procs[q]
    requires p in st'.procs ==> ProcOk(cfg, st'.procs[p], scope, b, (scope, b) in st'.visited)
    ensures Kept(cfg, st', scope, b)
  {
    forall q | q in st'.procs && q != p
      ensures ProcOk(cfg, st'.procs[q], scope, b, (scope, b) in st'.visited)
    {
      assert ProcOk(cfg, st.procs[q], scope, b, (scope, b) in st.visited);
    }
  }

  // ----- A scan of the scope

  lemma ReadKeeps(cfg: Config, st: State, p: nat, scope: string, b: int, reply: Reply)
    requires Kept(cfg, st, scope, b) && p in st.procs && st.procs[p].Scan? && st.procs[p].scope == scope && st.procs[p].pc.Read?
    requires st.procs[p].latest - Max(st.procs[p].pc.atClaim, L.HighestBlock(st.rows, scope)) <= 100
    ensures Kept(cfg, ScanRead(cfg, st, p, st.procs[p], reply), scope, b)
  {
    assert ProcOk(cfg, st.procs[p], scope, b, (scope, b) in st.visited);
    OneAction(cfg, st, ScanRead(cfg, st, p, st.procs[p], reply), p, scope, b);
  }

  lemma RenewedKeeps(cfg: Config, st: State, p: nat, proc: Proc, scope: string, b: int, reply: Reply, next: ScanPc)
    requires Kept(cfg, st, scope, b) && proc.Scan? && proc.scope == scope
    requires ScanOk(cfg, proc.(pc := next), b, (scope, b) in st.visited)
    ensures Kept(cfg, Renewed(st, p, proc, reply, next), scope, b)
  {
    OneAction(cfg, st, Renewed(st, p, proc, reply, next), p, scope, b);
  }

  lemma TopKeeps(cfg: Config, st: State, p: nat, scope: string, b: int, input: Input)
    requires Kept(cfg, st, scope, b) && p in st.procs && st.procs[p].Scan? && st.procs[p].scope == scope
    requires st.procs[p].pc.Top? || st.procs[p].pc.BatchDone?
    ensures Kept(cfg, ScanAct(cfg, st, p, st.procs[p], input), scope, b)
  {
    var proc := st.procs[p];
    assert ProcOk(cfg, proc, scope, b, (scope, b) in st.visited);
    if proc.pc.BatchDone? {
      RenewedKeeps(cfg, st, p, proc.(batchStart := BatchEnd(proc) + 1), scope, b, input.reply, Top);
    } else if proc.batchStart <= proc.latest {
      RenewedKeeps(cfg, st, p, proc, scope, b, input.reply, Fetch);
    } else {
      OneAction(cfg, st, Put(st, p, proc.(pc := Leave)), p, scope, b);
    }
  }

  lemma FetchKeeps(cfg: Config, st: State, p: nat, scope: string, b: int, input: Input)
    requires Kept(cfg, st, scope, b) && p in st.procs && st.procs[p].Scan? && st.procs[p].scope == scope
    requires (st.procs[p].pc.Fetch? || st.procs[p].pc.Events?) && ScanPrompt(cfg, st, st.procs[p], input, b)
    ensures Kept(cfg, ScanAct(cfg, st, p, st.procs[p], input), scope, b)
  {
    assert ProcOk(cfg, st.procs[p], scope, b, (scope, b) in st.visited);
    OneAction(cfg, st, ScanAct(cfg, st, p, st.procs[p], input), p, scope, b);
  }

  lemma FetchedKeeps(cfg: Config, st: State, p: nat, scope: string, b: int, input: Input)
    requires Kept(cfg, st, scope, b) && p in st.procs && st.procs[p].Scan? && st.procs[p].scope == scope != TRX
    requires st.procs[p].pc.Fetched?
    ensures Kept(cfg, ScanAct(cfg, st, p, st.procs[p], input), scope, b)
  {
    var proc := st.procs[p];
    assert ProcOk(cfg, proc, scope, b, (scope, b) in st.visited);
    RenewedKeeps(cfg, st, p, proc, scope, b, input.reply, if proc.returned == {} then Leave else Events);
  }

  lemma MatchKeeps(cfg: Config, st: State, p: nat, scope: string, b: int, input: Input)
    requires Kept(cfg, st, scope, b) && p in st.procs && st.procs[p].Scan? && st.procs[p].scope == scope
    requires st.procs[p].pc.EventsFetched?
    ensures Kept(cfg, ScanAct(cfg, st, p, st.procs[p], input), scope, b)
  {
    var proc := st.procs[p];
    assert ProcOk(cfg, proc, scope, b, (scope, b) in st.visited);
    var next := Publish(NewBatch(cfg, scope, proc.batchStart, BatchEnd(proc), proc.returned, proc.pc.fetched, input.tip));
    assert ScanAct(cfg, st, p, proc, input) == Renewed(st, p, proc, input.reply, next);
    RenewedKeeps(cfg, st, p, proc, scope, b, input.reply, next);
  }

  lemma EnqueueKeeps(cfg: Config, st: State, p: nat, scope: string, b: int, reply: Reply)
    requires Kept(cfg, st, scope, b) && p in st.procs && st.procs[p].Scan? && st.procs[p].scope == scope
    requires st.procs[p].pc.Publish? && st.procs[p].pc.batch.queue != [] && (AsksLate(cfg, st.procs[p], b) ==> reply.Ok?)
    ensures Kept(cfg, ScanPublish(cfg, st, p, st.procs[p], reply), scope, b)
  {
    assert ProcOk(cfg, st.procs[p], scope, b, (scope, b) in st.visited);
    OneAction(cfg, st, ScanPublish(cfg, st, p, st.procs[p], reply), p, scope, b);
  }

  /** The end of a batch: the cursor it leads to has passed the block only if the block was asked for late, and then
      it is visited. */
  lemma SettleKeeps(cfg: Config, st: State, p: nat, scope: string, b: int, reply: Reply)
    requires cfg.retain > 0 && Kept(cfg, st, scope, b) && p in st.procs && st.procs[p].Scan? && st.procs[p].scope == scope != TRX
    requires st.procs[p].pc.Publish? && st.procs[p].pc.batch.queue == []
    ensures Kept(cfg, ScanPublish(cfg, st, p, st.procs[p], reply), scope, b)
  {
    var proc := st.procs[p];
    var batch := proc.pc.batch;
    var st' := ScanPublish(cfg, st, p, proc, reply);
    assert ProcOk(cfg, proc, scope, b, (scope, b) in st.visited);
    if AsksLate(cfg, proc, b) {
      assert !CutShort(cfg.world, scope, batch.cut, b);
      assert Fate(cfg.world, scope, batch, b).None?;
      assert (scope, b) in Settled(cfg, st, scope, batch).visited;
    }
    OneAction(cfg, st, st', p, scope, b);
  }

  lemma SaveKeeps(cfg: Config, st: State, p: nat, scope: string, b: int, reply: Reply, tip: int)
    requires Kept(cfg, st, scope, b) && p in st.procs && st.procs[p].Scan? && st.procs[p].scope == scope != TRX && st.procs[p].pc.Save?
    ensures Kept(cfg, ScanSave(cfg, st, p, st.procs[p], reply, tip), scope, b)
  {
    assert ProcOk(cfg, st.procs[p], scope, b, (scope, b) in st.visited);
    OneAction(cfg, st, ScanSave(cfg, st, p, st.procs[p], reply, tip), p, scope, b);
  }

  lemma LeaveKeeps(cfg: Config, st: State, p: nat, scope: string, b: int, input: Input)
    requires Kept(cfg, st, scope, b) && p in st.procs && st.procs[p].Scan? && st.procs[p].scope == scope && st.procs[p].pc.Leave?
    ensures Kept(cfg, ScanAct(cfg, st, p, st.procs[p], input), scope, b)
  {
    OneAction(cfg, st, ScanAct(cfg, st, p, st.procs[p], input), p, scope, b);
  }

  lemma OwnScanKeeps(cfg: Config, st: State, p: nat, scope: string, b: int, input: Input)
    requires cfg.retain > 0 && Kept(cfg, st, scope, b) && p in st.procs && st.procs[p].Scan? && st.procs[p].scope == scope != TRX
    requires ScanPrompt(cfg, st, st.procs[p], input, b)
    ensures Kept(cfg, ScanAct(cfg, st, p, st.procs[p], input), scope, b)
  {
    assert ProcOk(cfg, st.procs[p], scope, b, (scope, b) in st.visited);
    match st.procs[p].pc
    case Read(_) => ReadKeeps(cfg, st, p, scope, b, input.reply);
    case Top => TopKeeps(cfg, st, p, scope, b, input);
    case BatchDone => TopKeeps(cfg, st, p, scope, b, input);
    case Fetch => FetchKeeps(cfg, st, p, scope, b, input);
    case Events => FetchKeeps(cfg, st, p, scope, b, input);
    case Fetched => FetchedKeeps(cfg, st, p, scope, b, input);
    case EventsFetched(_) => MatchKeeps(cfg, st, p, scope, b, input);
    case Publish(batch) =>
      if batch.queue != [] {
        EnqueueKeeps(cfg, st, p, scope, b, input.reply);
      } else {
        SettleKeeps(cfg, st, p, scope, b, input.reply);
      }
    case Save(_, _) => SaveKeeps(cfg, st, p, scope, b, input.reply, input.tip);
    case Leave => LeaveKeeps(cfg, st, p, scope, b, input);
    case ColdSave =>
  }

  // ----- Everything else

  /** An action that concerns other scopes: the cursor of the scope stays, and the process serves no scan or
      reconcile of it. */
  ghost predicate Elsewhere(st: State, st': State, p: nat, scope: string) {
    && st.visited <= st'.visited
    && (scope in st.rows ==> scope in st'.rows && st'.rows[scope].highest == st.rows[scope].highest)
    && (forall q :: q in st'.procs && q != p ==> q in st.procs && st'.procs[q] == st.procs[q])
    && (p in st'.procs && !st'.procs[p].Replay? ==> st'.procs[p].scope != scope)
  }

  lemma ElsewhereKeeps(cfg: Config, st: State, st': State, p: nat, scope: string, b: int)
    requires Kept(cfg, st, scope, b) && Elsewhere(st, st', p, scope)
    ensures Kept(cfg, st', scope, b)
  {
    OneAction(cfg, st, st', p, scope, b);
  }

  lemma ReadElsewhere(cfg: Config, st: State, p: nat, proc: Proc, input: Input, scope: string)
    requires proc.Scan? && proc.scope != scope && proc.pc.Read?
    ensures Elsewhere(st, ScanAct(cfg, st, p, proc, input), p, scope)
  {
  }

  lemma LoopElsewhere(cfg: Config, st: State, p: nat, proc: Proc, input: Input, scope: string)
    requires proc.Scan? && proc.scope != scope && (proc.pc.ColdSave? || proc.pc.Top? || proc.pc.BatchDone?)
    ensures Elsewhere(st, ScanAct(cfg, st, p, proc, input), p, scope)
  {
  }

  lemma FetchElsewhere(cfg: Config, st: State, p: nat, proc: Proc, input: Input, scope: string)
    requires proc.Scan? && proc.scope != scope && (proc.pc.Fetch? || proc.pc.Fetched?)
    ensures Elsewhere(st, ScanAct(cfg, st, p, proc, input), p, scope)
  {
  }

  lemma EventsElsewhere(cfg: Config, st: State, p: nat, proc: Proc, input: Input, scope: string)
    requires proc.Scan? && proc.scope != scope && (proc.pc.Events? || proc.pc.EventsFetched?)
    ensures Elsewhere(st, ScanAct(cfg, st, p, proc, input), p, scope)
  {
  }

  lemma PublishElsewhere(cfg: Config, st: State, p: nat, proc: Proc, input: Input, scope: string)
    requires proc.Scan? && proc.scope != scope && proc.pc.Publish?
    ensures Elsewhere(st, ScanAct(cfg, st, p, proc, input), p, scope)
  {
  }

  lemma SaveElsewhere(cfg: Config, st: State, p: nat, proc: Proc, input: Input, scope: string)
    requires proc.Scan? && proc.scope != scope && proc.pc.Save?
    ensures Elsewhere(st, ScanAct(cfg, st, p, proc, input), p, scope)
  {
  }

  lemma LeaveElsewhere(cfg: Config, st: State, p: nat, proc: Proc, input: Input, scope: string)
    requires proc.Scan? && proc.scope != scope && proc.pc.Leave?
    ensures Elsewhere(st, ScanAct(cfg, st, p, proc, input), p, scope)
  {
  }

  lemma ScanElsewhere(cfg: Config, st: State, p: nat, proc: Proc, input: Input, scope: string)
    requires proc.Scan? && proc.scope != scope
    ensures Elsewhere(st, ScanAct(cfg, st, p, proc, input), p, scope)
  {
    match proc.pc
    case Read(_) => ReadElsewhere(cfg, st, p, proc, input, scope);
    case ColdSave => LoopElsewhere(cfg, st, p, proc, input, scope);
    case Top => LoopElsewhere(cfg, st, p, proc, input, scope);
    case BatchDone => LoopElsewhere(cfg, st, p, proc, input, scope);
    case Fetch => FetchElsewhere(cfg, st, p, proc, input, scope);
    case Fetched => FetchElsewhere(cfg, st, p, proc, input, scope);
    case Events => EventsElsewhere(cfg, st, p, proc, input, scope);
    case EventsFetched(_) => EventsElsewhere(cfg, st, p, proc, input, scope);
    case Publish(_) => PublishElsewhere(cfg, st, p, proc, input, scope);
    case Save(_, _) => SaveElsewhere(cfg, st, p, proc, input, scope);
    case Leave => LeaveElsewhere(cfg, st, p, proc, input, scope);
  }

  lemma ClaimElsewhere(cfg: Config, st: State, p: nat, proc: Proc, reply: Reply, newId: nat, scope: string)
    requires proc.Reconcile? && proc.scope != scope && (proc.rpc.Claim? || proc.rpc.LeaveScope?)
    ensures Elsewhere(st, ReconcileAct(cfg, st, p, proc, reply, newId), p, scope)
  {
  }

  lemma JumpElsewhere(cfg: Config, st: State, p: nat, proc: Proc, reply: Reply, newId: nat, scope: string)
    requires proc.Reconcile? && proc.scope != scope && (proc.rpc.Jump? || proc.rpc.Enqueue?)
    ensures Elsewhere(st, ReconcileAct(cfg, st, p, proc, reply, newId), p, scope)
  {
  }

  lemma ReconcileElsewhere(cfg: Config, st: State, p: nat, proc: Proc, reply: Reply, newId: nat, scope: string)
    requires proc.Reconcile? && proc.scope != scope
    ensures Elsewhere(st, ReconcileAct(cfg, st, p, proc, reply, newId), p, scope)
  {
    if proc.rpc.Claim? || proc.rpc.LeaveScope? {
      ClaimElsewhere(cfg, st, p, proc, reply, newId, scope);
    } else if proc.rpc.Jump? || proc.rpc.Enqueue? {
      JumpElsewhere(cfg, st, p, proc, reply, newId, scope);
    }
  }

  lemma ReplayElsewhere(cfg: Config, st: State, p: nat, scope: string, input: Input, b: int, contract: string)
    requires Kept(cfg, st, contract, b) && p in st.procs && st.procs[p].Replay? && scope in st.procs[p].tasks
    ensures Kept(cfg, ReplayTask(cfg, st, p, st.procs[p], scope, input), contract, b)
  {
    ElsewhereKeeps(cfg, st, ReplayTask(cfg, st, p, st.procs[p], scope, input), p, contract, b);
  }

  lemma StartScanKeeps(cfg: Config, st: State, p: nat, worker: string, other: string, latest: int, reply: Reply, scope: string, b: int)
    requires Kept(cfg, st, scope, b)
    ensures Kept(cfg, Apply(cfg, st, StartScan(p, worker, other, latest, reply)), scope, b)
  {
    var st' := Apply(cfg, st, StartScan(p, worker, other, latest, reply));
    if p !in st.procs {
      OneAction(cfg, st, st', p, scope, b);
    }
  }

  lemma StartOtherKeeps(cfg: Config, st: State, step: Step, scope: string, b: int)
    requires Kept(cfg, st, scope, b) && (step.StartReplay? || (step.StartReconcile? && step.scope != scope))
    ensures Kept(cfg, Apply(cfg, st, step), scope, b)
  {
    if step.p !in st.procs {
      ElsewhereKeeps(cfg, st, Apply(cfg, st, step), step.p, scope, b);
    }
  }

  lemma EndKeeps(cfg: Config, st: State, step: Step, scope: string, b: int)
    requires Kept(cfg, st, scope, b) && (step.Crash? || step.ReplayEnd?)
    ensures Kept(cfg, Apply(cfg, st, step), scope, b)
  {
    var st' := Apply(cfg, st, step);
    if st' != st {
      ElsewhereKeeps(cfg, st, st', step.p, scope, b);
    }
  }

  lemma ActKeeps(cfg: Config, st: State, p: nat, input: Input, scope: string, b: int)
    requires cfg.retain > 0 && scope != TRX && Kept(cfg, st, scope, b) && Prompt(cfg, st, Act(p, input), scope, b)
    ensures Kept(cfg, Apply(cfg, st, Act(p, input)), scope, b)
  {
    if p in st.procs {
      var proc := st.procs[p];
      assert ProcOk(cfg, proc, scope, b, (scope, b) in st.visited);
      if proc.Scan? && proc.scope == scope {
        OwnScanKeeps(cfg, st, p, scope, b, input);
      } else if proc.Scan? {
        ScanElsewhere(cfg, st, p, proc, input, scope);
        ElsewhereKeeps(cfg, st, ScanAct(cfg, st, p, proc, input), p, scope, b);
      } else if proc.Reconcile? {
        ReconcileElsewhere(cfg, st, p, proc, input.reply, input.newId, scope);
        ElsewhereKeeps(cfg, st, ReconcileAct(cfg, st, p, proc, input.reply, input.newId), p, scope, b);
      }
    }
  }

  lemma StepKeeps(cfg: Config, st: State, step: Step, scope: string, b: int)
    requires cfg.retain > 0 && scope != TRX && Kept(cfg, st, scope, b) && Prompt(cfg, st, step, scope, b)
    ensures Kept(cfg, Apply(cfg, st, step), scope, b)
  {
    match step
    case Tick(_) =>
    case AdminJob(_, _, _) =>
    case Act(p, input) => ActKeeps(cfg, st, p, input, scope, b);
    case ReplayAct(p, s, input) =>
      if p in st.procs && st.procs[p].Replay? && s in st.procs[p].tasks && s !in st.procs[p].failed {
        ReplayElsewhere(cfg, st, p, s, input, b, scope);
      }
    case StartScan(p, worker, other, latest, reply) => StartScanKeeps(cfg, st, p, worker, other, latest, reply, scope, b);
    case StartReplay(_, _, _) => StartOtherKeeps(cfg, st, step, scope, b);
    case StartReconcile(_, _, _, _, _) => StartOtherKeeps(cfg, st, step, scope, b);
    case Crash(_) => EndKeeps(cfg, st, step, scope, b);
    case ReplayEnd(_, _) => EndKeeps(cfg, st, step, scope, b);
  }

  lemma {:induction false} RunKeeps(cfg: Config, st: State, steps: seq<Step>, scope: string, b: int)
    requires cfg.retain > 0 && scope != TRX && Kept(cfg, st, scope, b) && AllPrompt(cfg, st, steps, scope, b)
    ensures Kept(cfg, Run(cfg, st, steps), scope, b)
    decreases |steps|
  {
    if steps == [] {
    } else {
      StepKeeps(cfg, st, steps[0], scope, b);
      RunKeeps(cfg, Apply(cfg, st, steps[0]), steps[1..], scope, b);
    }
  }

  /** An index that lags behind by less than the retain window costs nothing. In every run, with any interleaving,
      crashes and failures, in which the scans of a contract are at most one batch behind and no reconcile jumps over it:
      if those scans that ask for a block when their target is `retain` blocks or more ahead of it find it, then once the
      cursor has passed the block, it has been published in full and its keys are in the outbox. What earlier scans
      were answered does not matter. */
  lemma LagWithinWindowLosesNothing(cfg: Config, st: State, steps: seq<Step>, scope: string, b: int)
    requires E.Setting(cfg) && Start(cfg, st) && O.Current(st.outbox) && scope in cfg.scopes
    requires cfg.retain > 0 && scope != TRX && AllPrompt(cfg, st, steps, scope, b)
    requires var end := Run(cfg, st, steps);
             scope in end.rows && st.rows[scope].highest < b <= end.rows[scope].highest
    ensures var end := Run(cfg, st, steps);
            (scope, b) in end.visited && O.BlockKeys(cfg.world, scope, b) <= end.outbox.Keys
  {
    RunKeeps(cfg, st, steps, scope, b);
    E.RunKeepsRows(cfg, st.outbox, st, steps);
  }

  /** When such a scan finds the block: its response holds a block on either side, and the index has caught up. */
  lemma FoundWhenCaughtUp(cfg: Config, scope: string, returned: set<int>, events: seq<B.ChainEvent>, b: int)
    requires Timed(cfg.world, cfg.time) && InSpan(returned, b) && CaughtUp(cfg, scope, returned, events)
    ensures Indexed(cfg.world, scope, Answer(cfg, scope, returned, events), b)
  {
    SpanIsIndexed(cfg, scope, returned, events, b);
  }
}
