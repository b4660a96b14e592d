/** When the outbox is exact. A block that was begun is visited, lost for a recorded cause, or under way,
    as long as no process crashes; so once nothing is under way and nothing was cut off, the outbox holds its old
    rows and exactly the keys of the visited blocks. */
module Quiescence {
  import opened Base
  import opened EndToEnd
  import O = Outbox
  import P = ScanProtocol
  import W = ScanLoops

  /** Some process is publishing a batch with the block in its range. */
  ghost predicate UnderWay(st: P.State, s: string, b: int) {
    exists p, batch :: p in st.procs && Publishing(st.procs[p], s, batch) && batch.lo <= b <= batch.hi
  }

  /** A scope in which a replay failed is between batches. */
  ghost predicate FailedBetween(st: P.State) {
    forall p :: p in st.procs && st.procs[p].Replay? ==>
                  forall s :: s in st.procs[p].failed && s in st.procs[p].tasks ==> st.procs[p].tasks[s].Due?
  }

  ghost predicate BegunInv(st: P.State) {
    FailedBetween(st) && forall s, b :: (s, b) in st.begun ==> P.Passed(st, s, b) || UnderWay(st, s, b)
  }

  /** The range of a batch that `q` was publishing is passed, or `q` still publishes it. */
  ghost predicate Continues(st: P.State, q: nat, s: string, batch: P.Batch) {
    || (forall b :: batch.lo <= b <= batch.hi ==> P.Passed(st, s, b))
    || (q in st.procs && exists next :: Publishing(st.procs[q], s, next) && next.lo == batch.lo && next.hi == batch.hi)
  }

  /** An action of process `p`. */
  lemma OwnAction(st: P.State, st': P.State, p: nat)
    requires BegunInv(st) && FailedBetween(st') && st.visited <= st'.visited && st.lost <= st'.lost
    requires forall q :: q in st.procs && q != p ==> q in st'.procs && st'.procs[q] == st.procs[q]
    requires forall s, batch :: p in st.procs && Publishing(st.procs[p], s, batch) ==> Continues(st', p, s, batch)
    requires forall s, b :: (s, b) in st'.begun && (s, b) !in st.begun ==> UnderWay(st', s, b)
    ensures BegunInv(st')
  {
    forall s, b | (s, b) in st'.begun
      ensures P.Passed(st', s, b) || UnderWay(st', s, b)
    {
      if (s, b) in st.begun {
        if P.Passed(st, s, b) {
          P.GrowsKeepsPassed(st, st', s, b);
        } else {
          var q, batch :| q in st.procs && Publishing(st.procs[q], s, batch) && batch.lo <= b <= batch.hi;
          if q == p && !P.Passed(st', s, b) {
            assert Continues(st', p, s, batch);
            var next :| Publishing(st'.procs[p], s, next) && next.lo == batch.lo && next.hi == batch.hi;
          } else if q != p {
            assert Publishing(st'.procs[q], s, batch);
          }
        }
      }
    }
  }

  /** An action by a process that is not publishing, or that starts. */
  lemma QuietAction(st: P.State, st': P.State, p: nat)
    requires BegunInv(st) && st.visited <= st'.visited && st.lost <= st'.lost && st'.begun == st.begun
    requires forall q :: q != p ==> (q in st.procs <==> q in st'.procs) && (q in st.procs ==> st'.procs[q] == st.procs[q])
    requires p in st.procs ==> st.procs[p].Reconcile? || (st.procs[p].Scan? && !st.procs[p].pc.Publish?)
    requires p in st'.procs && st'.procs[p].Replay? ==> st'.procs[p].failed !! st'.procs[p].tasks.Keys
                                                        || forall s :: s in st'.procs[p].tasks ==> st'.procs[p].tasks[s].Due?
    ensures BegunInv(st')
  {
    OwnAction(st, st', p);
  }

  lemma HeadInRange(cfg: P.Config, proc: P.Proc, scope: string, batch: P.Batch, keys: set<string>)
    requires ProcOk(cfg, proc, keys) && Publishing(proc, scope, batch) && batch.queue != []
    ensures batch.lo <= batch.queue[0].block <= batch.hi
  {
    assert BatchOk(cfg.world, scope, batch, keys);
  }

  lemma ScanEventKeeps(cfg: P.Config, st: P.State, p: nat, batch: P.Batch, reply: Reply)
    requires BegunInv(st) && p in st.procs && st.procs[p].Scan? && st.procs[p].pc == P.Publish(batch)
    requires batch.queue != [] && batch.lo <= batch.queue[0].block <= batch.hi
    ensures BegunInv(P.ScanPublish(cfg, st, p, st.procs[p], reply))
  {
    var scope, st' := st.procs[p].scope, P.ScanPublish(cfg, st, p, st.procs[p], reply);
    assert Publishing(st.procs[p], scope, batch) && Publishing(st'.procs[p], scope, P.Remaining(batch, reply));
    OwnAction(st, st', p);
  }

  lemma ScanSettleKeeps(cfg: P.Config, st: P.State, p: nat, batch: P.Batch, reply: Reply)
    requires BegunInv(st) && p in st.procs && st.procs[p].Scan? && st.procs[p].pc == P.Publish(batch) && batch.queue == []
    ensures BegunInv(P.ScanPublish(cfg, st, p, st.procs[p], reply))
  {
    var scope, st' := st.procs[p].scope, P.ScanPublish(cfg, st, p, st.procs[p], reply);
    forall b | batch.lo <= b <= batch.hi
      ensures P.Passed(st', scope, b)
    {
      P.SettledPasses(cfg, st, scope, batch, b);
      P.GrowsKeepsPassed(P.Settled(cfg, st, scope, batch), st', scope, b);
    }
    OwnAction(st, st', p);
  }

  /** A replay goes on with what remains of a batch. */
  lemma ReplayGoesOn(st: P.State, st': P.State, p: nat, scope: string, batch: P.Batch, next: P.Batch, block: int)
    requires BegunInv(st) && p in st.procs && st.procs[p].Replay?
    requires scope in st.procs[p].tasks && scope !in st.procs[p].failed && st.procs[p].tasks[scope] == P.Busy(batch)
    requires next.lo == batch.lo <= block <= batch.hi == next.hi
    requires st'.visited == st.visited && st'.lost == st.lost && st'.begun <= st.begun + {(scope, block)}
    requires st'.procs == st.procs[p := st.procs[p].(tasks := st.procs[p].tasks[scope := P.Busy(next)])]
    ensures BegunInv(st')
  {
    assert Publishing(st.procs[p], scope, batch) && Publishing(st'.procs[p], scope, next);
    OtherScopesContinue(st, st', p, scope, batch);
    OwnAction(st, st', p);
  }

  lemma ReplayEventKeeps(cfg: P.Config, st: P.State, st': P.State, p: nat, scope: string, batch: P.Batch, reply: Reply)
    requires BegunInv(st) && p in st.procs && st.procs[p].Replay?
    requires batch.queue != [] && batch.lo <= batch.queue[0].block <= batch.hi
    requires scope in st.procs[p].tasks && scope !in st.procs[p].failed && st.procs[p].tasks[scope] == P.Busy(batch)
    requires st' == P.ReplayPublish(cfg, st, p, st.procs[p], scope, batch, reply)
    ensures BegunInv(st')
  {
    ReplayGoesOn(st, st', p, scope, batch, P.Remaining(batch, reply), batch.queue[0].block);
  }

  lemma ReplaySettleKeeps(cfg: P.Config, st: P.State, p: nat, scope: string, batch: P.Batch, reply: Reply)
    requires BegunInv(st) && p in st.procs && st.procs[p].Replay? && batch.queue == []
    requires scope in st.procs[p].tasks && scope !in st.procs[p].failed && st.procs[p].tasks[scope] == P.Busy(batch)
    ensures BegunInv(P.ReplayPublish(cfg, st, p, st.procs[p], scope, batch, reply))
  {
    var st' := P.ReplayPublish(cfg, st, p, st.procs[p], scope, batch, reply);
    assert Publishing(st.procs[p], scope, batch);
    forall b | batch.lo <= b <= batch.hi
      ensures P.Passed(st', scope, b)
    {
      P.SettledPasses(cfg, st, scope, batch, b);
      P.GrowsKeepsPassed(P.Settled(cfg, st, scope, batch), st', scope, b);
    }
    OtherScopesContinue(st, st', p, scope, batch);
    OwnAction(st, st', p);
  }

  lemma OtherScopesContinue(st: P.State, st': P.State, p: nat, scope: string, batch: P.Batch)
    requires p in st.procs && st.procs[p].Replay? && p in st'.procs && st'.procs[p].Replay? && scope in st.procs[p].tasks
    requires st.procs[p].tasks[scope] == P.Busy(batch) && Continues(st', p, scope, batch)
    requires forall s :: s in st.procs[p].tasks && s != scope ==> s in st'.procs[p].tasks && st'.procs[p].tasks[s] == st.procs[p].tasks[s]
    ensures forall s, other :: Publishing(st.procs[p], s, other) ==> Continues(st', p, s, other)
  {
    forall s, other | Publishing(st.procs[p], s, other)
      ensures Continues(st', p, s, other)
    {
      if s != scope {
        assert Publishing(st'.procs[p], s, other);
      }
    }
  }

  lemma ReplayFetchKeeps(cfg: P.Config, st: P.State, p: nat, scope: string, input: P.Input)
    requires BegunInv(st) && p in st.procs && st.procs[p].Replay?
    requires scope in st.procs[p].tasks && scope !in st.procs[p].failed && st.procs[p].tasks[scope].Due?
    ensures BegunInv(P.ReplayFetch(cfg, st, p, st.procs[p], scope, st.procs[p].tasks[scope].next, input))
  {
    var proc := st.procs[p];
    var next := proc.tasks[scope].next;
    var st' := P.ReplayFetch(cfg, st, p, proc, scope, next, input);
    FetchMoves(cfg, st, p, proc, scope, next, input);
    if st' != st {
      forall s, other | Publishing(proc, s, other)
        ensures Continues(st', p, s, other)
      {
        assert Publishing(st'.procs[p], s, other);
      }
      OwnAction(st, st', p);
    }
  }

  lemma ReplayEndKeeps(cfg: P.Config, st: P.State, p: nat, reply: Reply, keys: set<string>)
    requires BegunInv(st) && p in st.procs && st.procs[p].Replay? && ProcOk(cfg, st.procs[p], keys)
    ensures BegunInv(P.ReplayFinish(cfg, st, p, st.procs[p], reply))
  {
    var proc, st' := st.procs[p], P.ReplayFinish(cfg, st, p, st.procs[p], reply);
    if st' != st {
      NothingUnderWay(cfg, st, p, keys);
      OwnAction(st, st', p);
    }
  }

  /** A replay that is over publishes nothing. */
  lemma NothingUnderWay(cfg: P.Config, st: P.State, p: nat, keys: set<string>)
    requires BegunInv(st) && p in st.procs && st.procs[p].Replay? && ProcOk(cfg, st.procs[p], keys) && P.ReplayOver(cfg, st.procs[p])
    ensures forall s, batch :: !Publishing(st.procs[p], s, batch)
  {
    forall s | s in st.procs[p].tasks
      ensures st.procs[p].tasks[s].Due?
    {
    }
  }

  predicate OnlyScans(st: P.State, p: nat) {
    p in st.procs ==> st.procs[p].Scan?
  }

  lemma FetchedQuiet(cfg: P.Config, st: P.State, p: nat, proc: P.Proc, input: P.Input)
    requires proc.Scan? && (proc.pc.Fetched? || proc.pc.Events? || proc.pc.EventsFetched?)
    ensures Quiet(st, P.ScanAct(cfg, st, p, proc, input), p) && OnlyScans(P.ScanAct(cfg, st, p, proc, input), p)
  {
  }

  lemma SaveQuiet(cfg: P.Config, st: P.State, p: nat, proc: P.Proc, input: P.Input)
    requires proc.Scan? && proc.pc.Save?
    ensures Quiet(st, P.ScanAct(cfg, st, p, proc, input), p) && OnlyScans(P.ScanAct(cfg, st, p, proc, input), p)
  {
  }

  lemma ScanQuiet(cfg: P.Config, st: P.State, p: nat, proc: P.Proc, input: P.Input)
    requires proc.Scan? && !proc.pc.Publish?
    ensures Quiet(st, P.ScanAct(cfg, st, p, proc, input), p) && OnlyScans(P.ScanAct(cfg, st, p, proc, input), p)
  {
    match proc.pc
    case Save(_, _) => SaveQuiet(cfg, st, p, proc, input);
    case Fetched => FetchedQuiet(cfg, st, p, proc, input);
    case Events => FetchedQuiet(cfg, st, p, proc, input);
    case EventsFetched(_) => FetchedQuiet(cfg, st, p, proc, input);
    case Leave => LeaveIsQuiet(cfg, st, p, proc, input);
    case BatchDone => LeaveIsQuiet(cfg, st, p, proc, input);
    case Fetch => LeaveIsQuiet(cfg, st, p, proc, input);
    case _ => LoopIsQuiet(cfg, st, p, proc, input);
  }

  lemma ActKeeps(cfg: P.Config, st: P.State, p: nat, input: P.Input, keys: set<string>)
    requires BegunInv(st) && p in st.procs && !st.procs[p].Replay? && ProcOk(cfg, st.procs[p], keys)
    ensures BegunInv(P.Apply(cfg, st, P.Act(p, input)))
  {
    var proc := st.procs[p];
    if proc.Reconcile? {
      ReconcileIsQuiet(cfg, st, p, proc, input.reply, input.newId);
      QuietAction(st, P.ReconcileAct(cfg, st, p, proc, input.reply, input.newId), p);
    } else if proc.pc.Publish? && proc.pc.batch.queue != [] {
      HeadInRange(cfg, proc, proc.scope, proc.pc.batch, keys);
      ScanEventKeeps(cfg, st, p, proc.pc.batch, input.reply);
    } else if proc.pc.Publish? {
      ScanSettleKeeps(cfg, st, p, proc.pc.batch, input.reply);
    } else {
      ScanQuiet(cfg, st, p, proc, input);
      QuietAction(st, P.ScanAct(cfg, st, p, proc, input), p);
    }
  }

  lemma ReplayActKeeps(cfg: P.Config, st: P.State, p: nat, scope: string, input: P.Input, keys: set<string>)
    requires BegunInv(st) && p in st.procs && st.procs[p].Replay? && ProcOk(cfg, st.procs[p], keys)
    requires scope in st.procs[p].tasks && scope !in st.procs[p].failed
    ensures BegunInv(P.ReplayTask(cfg, st, p, st.procs[p], scope, input))
  {
    match st.procs[p].tasks[scope]
    case Due(_) => ReplayFetchKeeps(cfg, st, p, scope, input);
    case Busy(batch) =>
      if batch.queue != [] {
        HeadInRange(cfg, st.procs[p], scope, batch, keys);
        ReplayEventKeeps(cfg, st, P.ReplayTask(cfg, st, p, st.procs[p], scope, input), p, scope, batch, input.reply);
      } else {
        ReplaySettleKeeps(cfg, st, p, scope, batch, input.reply);
      }
  }

  lemma StartKeeps(cfg: P.Config, st: P.State, step: P.Step)
    requires BegunInv(st) && (step.StartScan? || step.StartReconcile? || step.StartReplay?)
    ensures BegunInv(P.Apply(cfg, st, step))
  {
    StartIsQuiet(cfg, st, step);
    StartedKeeps(cfg, st, P.Apply(cfg, st, step), step.p);
  }

  lemma StartedKeeps(cfg: P.Config, st: P.State, st': P.State, p: nat)
    requires BegunInv(st) && Quiet(st, st', p)
    requires st'.procs == st.procs || (p !in st.procs && p in st'.procs && StartsFresh(cfg, st'.procs[p]))
    ensures BegunInv(st')
  {
    if st'.procs == st.procs {
      Undisturbed(st, st', p);
      OwnAction(st, st', p);
    } else {
      QuietAction(st, st', p);
    }
  }

  lemma StepKeepsBegun(cfg: P.Config, before: O.Rows, st: P.State, step: P.Step)
    requires BegunInv(st) && RowsInv(cfg, before, st) && !step.Crash?
    ensures BegunInv(P.Apply(cfg, st, step))
  {
    match step
    case Tick(_) => OwnAction(st, P.Apply(cfg, st, step), 0) by { Undisturbed(st, P.Apply(cfg, st, step), 0); }
    case AdminJob(_, _, _) => OwnAction(st, P.Apply(cfg, st, step), 0) by { Undisturbed(st, P.Apply(cfg, st, step), 0); }
    case StartScan(_, _, _, _, _) => StartKeeps(cfg, st, step);
    case StartReconcile(_, _, _, _, _) => StartKeeps(cfg, st, step);
    case StartReplay(_, _, _) => StartKeeps(cfg, st, step);
    case Act(p, input) =>
      if p in st.procs && !st.procs[p].Replay? {
        ActKeeps(cfg, st, p, input, st.outbox.Keys);
      }
    case ReplayAct(p, scope, input) =>
      if p in st.procs && st.procs[p].Replay? && scope in st.procs[p].tasks && scope !in st.procs[p].failed {
        ReplayActKeeps(cfg, st, p, scope, input, st.outbox.Keys);
      }
    case ReplayEnd(p, reply) =>
      if p in st.procs && st.procs[p].Replay? {
        ReplayEndKeeps(cfg, st, p, reply, st.outbox.Keys);
      }
  }

  lemma Undisturbed(st: P.State, st': P.State, p: nat)
    requires st'.procs == st.procs
    ensures forall s, batch :: p in st.procs && Publishing(st.procs[p], s, batch) ==> Continues(st', p, s, batch)
  {
  }

  predicate NoCrash(steps: seq<P.Step>) {
    forall i :: 0 <= i < |steps| ==> !steps[i].Crash?
  }

  lemma {:induction false} RunKeepsBegun(cfg: P.Config, before: O.Rows, st: P.State, steps: seq<P.Step>)
    requires Setting(cfg) && O.Current(st.outbox) && RowsInv(cfg, before, st) && BegunInv(st) && NoCrash(steps)
    ensures BegunInv(P.Run(cfg, st, steps))
    decreases |steps|
  {
    if steps == [] {
    } else {
      CurrentEnqueuesAdd(cfg, st);
      StepKeepsRows(cfg, before, st, steps[0]);
      StepOnlyEnqueues(cfg, st, steps[0]);
      StepKeepsCurrent(cfg, st, P.Apply(cfg, st, steps[0]).outbox);
      StepKeepsBegun(cfg, before, st, steps[0]);
      RunKeepsBegun(cfg, before, P.Apply(cfg, st, steps[0]), steps[1..]);
    }
  }

  /** Crashes included: as soon as every block begun is visited, the outbox holds its old rows and exactly the
      keys that the visited blocks call for. */
  lemma ExactWhenVisited(cfg: P.Config, st: P.State, steps: seq<P.Step>)
    requires Setting(cfg) && P.Start(cfg, st) && O.Current(st.outbox)
    requires P.Run(cfg, st, steps).begun <= P.Run(cfg, st, steps).visited
    ensures var end := P.Run(cfg, st, steps);
            end.outbox.Keys == st.outbox.Keys + O.Expected(cfg.world, end.visited)
  {
    var end := P.Run(cfg, st, steps);
    OutboxBounds(cfg, st, steps);
    forall k | k in O.Expected(cfg.world, end.begun)
      ensures k in O.Expected(cfg.world, end.visited)
    {
      var v :| v in end.begun && k in O.BlockKeys(cfg.world, v.0, v.1);
      assert v == (v.0, v.1) && v in end.visited;
    }
  }

  /** In every run without crashes: once no block begun is under way, and each one that was ever passed over has
      been visited by a later scan or replay, the outbox holds its old rows and exactly the keys that the visited
      blocks call for. */
  lemma ExactWhenQuiet(cfg: P.Config, st: P.State, steps: seq<P.Step>)
    requires Setting(cfg) && P.Start(cfg, st) && O.Current(st.outbox) && NoCrash(steps)
    requires var end := P.Run(cfg, st, steps);
             forall s, b :: (s, b) in end.begun ==>
                              !UnderWay(end, s, b) && ((exists c :: P.Loss(c, s, b) in end.lost) ==> (s, b) in end.visited)
    ensures var end := P.Run(cfg, st, steps);
            end.outbox.Keys == st.outbox.Keys + O.Expected(cfg.world, end.visited)
  {
    var end := P.Run(cfg, st, steps);
    RunKeepsBegun(cfg, st.outbox, st, steps);
    forall v | v in end.begun
      ensures v in end.visited
    {
      assert v == (v.0, v.1) && P.Passed(end, v.0, v.1);
    }
    ExactWhenVisited(cfg, st, steps);
  }
}
