/** The causes for which `ScanProtocol` lets a cursor pass a block unpublished are real: for each of
    them a run that ends with a block below the cursor that nobody published and no job holds, and with the
    outbox as it was, whatever the chain and the watchlist say about that block. */
module LostBlocks {
  import opened Base
  import opened ScanProtocol
  import opened TransferKeys
  import L = CursorLease
  import Q = JobQueue
  import O = Outbox
  import B = BatchWindow
  import J = OrphanedJobs

  lemma {:induction false} RunAppend(cfg: Config, st: State, steps: seq<Step>, more: seq<Step>)
    ensures Run(cfg, st, steps + more) == Run(cfg, Run(cfg, st, steps), more)
    decreases |steps|
  {
    if steps == [] {
      assert steps + more == more;
    } else {
      assert (steps + more)[0] == steps[0] && (steps + more)[1..] == steps[1..] + more;
      RunAppend(cfg, Apply(cfg, st, steps[0]), steps[1..], more);
    }
  }

  lemma RunOne(cfg: Config, st: State, step: Step)
    ensures Run(cfg, st, [step]) == Apply(cfg, st, step)
  {
    assert [step][1..] == [];
    assert Run(cfg, Apply(cfg, st, step), []) == Apply(cfg, st, step);
  }

  /** Extends a run by one step. */
  lemma Then(cfg: Config, st: State, steps: seq<Step>, step: Step) returns (steps': seq<Step>)
    ensures steps' == steps + [step] && Run(cfg, st, steps') == Apply(cfg, Run(cfg, st, steps), step)
  {
    steps' := steps + [step];
    RunAppend(cfg, st, steps, [step]);
    RunOne(cfg, Run(cfg, st, steps), step);
  }

  /** The cursor of the scope has passed the block, nobody published it and no job holds it; the outbox
      is as it was and `cause` says why. */
  ghost predicate Forgotten(cfg: Config, st: State, steps: seq<Step>, scope: string, b: int, cause: Cause) {
    && Start(cfg, st) && scope in cfg.scopes
    && var end := Run(cfg, st, steps);
       && scope in end.rows && st.rows[scope].highest < b <= end.rows[scope].highest
       && (scope, b) !in end.visited && !InOpenJob(end, b)
       && end.outbox == st.outbox && Loss(cause, scope, b) in end.lost
  }

  /** One scope that has got to block 1. */
  function Fresh(scope: string, outbox: O.Rows): State {
    State(0, map[scope := L.CursorRow(1, None, None)], map[], map[], outbox, {}, {}, {})
  }

  function OneScope(scope: string, w: O.World): Config {
    Config({scope}, 0, 0, w, (b: int) => b)
  }

  function Fine(blocks: set<int>): Input {
    Input(Ok, blocks, [], 7, 0)
  }

  const FAILING := Input(Err, {}, [], 7, 0)

  // ----- Scans

  /** The same scope while worker "w" scans it. */
  function Scanning(scope: string, outbox: O.Rows, latest: int, returned: set<int>, from: int, batchStart: int, pc: ScanPc): State {
    State(0, map[scope := L.CursorRow(1, Some("w"), Some(L.LeaseSpan(0)))], map[],
          map[0 := Scan("w", scope, latest, from, batchStart, returned, pc)], outbox, {}, {}, {})
  }

  lemma ScanStarts(scope: string, w: O.World, outbox: O.Rows, latest: int)
    ensures Apply(OneScope(scope, w), Fresh(scope, outbox), StartScan(0, "w", scope, latest, Ok))
            == Scanning(scope, outbox, latest, {}, 0, 0, Read(1))
  {
  }

  lemma ReadStep(scope: string, w: O.World, outbox: O.Rows, latest: int)
    requires latest >= 2
    ensures Apply(OneScope(scope, w), Scanning(scope, outbox, latest, {}, 0, 0, Read(1)), Act(0, Fine({})))
            == Scanning(scope, outbox, latest, {}, 1, 2, Top)
  {
  }

  lemma ScanToFetched(scope: string, w: O.World, outbox: O.Rows, latest: int, blocks: set<int>) returns (steps: seq<Step>)
    requires latest >= 2
    ensures Run(OneScope(scope, w), Fresh(scope, outbox), steps) == Scanning(scope, outbox, latest, blocks, 1, 2, Fetched)
  {
    var cfg, st := OneScope(scope, w), Fresh(scope, outbox);
    steps := Then(cfg, st, [], StartScan(0, "w", scope, latest, Ok));
    ScanStarts(scope, w, outbox, latest);
    assert Run(cfg, st, steps) == Scanning(scope, outbox, latest, {}, 0, 0, Read(1));
    steps := Then(cfg, st, steps, Act(0, Fine({})));
    ReadStep(scope, w, outbox, latest);
    steps := Then(cfg, st, steps, Act(0, Fine({})));
    assert Run(cfg, st, steps) == Scanning(scope, outbox, latest, {}, 1, 2, Fetch);
    steps := Then(cfg, st, steps, Act(0, Fine(blocks)));
  }

  /** Ends a batch without events left and saves the cursor. */
  lemma FinishScan(cfg: Config, st: State, steps: seq<Step>, scope: string, outbox: O.Rows, latest: int, batch: Batch, returned: set<int>)
    returns (steps': seq<Step>)
    requires cfg.retain == 0 && 2 <= batch.hi && batch.queue == []
    requires Run(cfg, st, steps) == Scanning(scope, outbox, latest, returned, 1, 2, Publish(batch))
    ensures var end := Run(cfg, st, steps');
            && scope in end.rows && end.rows[scope].highest == batch.hi && end.jobs == map[] && end.outbox == outbox
            && end.visited == Settled(cfg, Scanning(scope, outbox, latest, returned, 1, 2, Publish(batch)), scope, batch).visited
            && end.lost == Settled(cfg, Scanning(scope, outbox, latest, returned, 1, 2, Publish(batch)), scope, batch).lost
  {
    steps' := Then(cfg, st, steps, Act(0, Fine({})));
    var mid := Run(cfg, st, steps');
    assert mid.procs[0] == Scan("w", scope, latest, 1, 2, returned, Save(batch.hi, batch.hi));
    steps' := Then(cfg, st, steps', Act(0, Fine({})));
  }

  /** A native block that is missing from its range response. */
  lemma MissingBlockLeavesGap(w: O.World, outbox: O.Rows) returns (steps: seq<Step>)
    ensures Forgotten(OneScope(TRX, w), Fresh(TRX, outbox), steps, TRX, 2, NotReturned)
  {
    var cfg, st := OneScope(TRX, w), Fresh(TRX, outbox);
    steps := ScanToFetched(TRX, w, outbox, 2, {});
    steps := Then(cfg, st, steps, Act(0, Fine({})));
    var batch := Batch(2, 2, {}, [], [], {});
    assert Present(2, 2, {}) == [] by { assert Present(3, 2, {}) == []; }
    assert NewBatch(cfg, TRX, 2, 2, {}, [], 0) == batch;
    assert Run(cfg, st, steps) == Scanning(TRX, outbox, 2, {}, 1, 2, Publish(batch));
    steps := FinishScan(cfg, st, steps, TRX, outbox, 2, batch, {});
    assert Fate(w, TRX, batch, 2) == Some(NotReturned);
  }

  lemma OneBlockPlanned(cfg: Config)
    ensures NewBatch(cfg, TRX, 2, 2, {2}, [], 0) == Batch(2, 2, {2}, [], O.BlockEvents(cfg.world, TRX, 2, 0), {})
  {
    var events := O.BlockEvents(cfg.world, TRX, 2, 0);
    assert Present(3, 2, {2}) == [] && Present(2, 2, {2}) == [2];
    assert [2][1..] == [] && O.BatchEvents(cfg.world, TRX, [], 0) == [];
    assert events + [] == events;
  }

  /** What an error leaves of a queue of one event. */
  lemma OneEventCut(e: RawEvent, returned: set<int>)
    requires e.block == 2
    ensures Remaining(Batch(2, 2, returned, [], [e], {}), Err) == Batch(2, 2, returned, [], [], {TransferEventKey(e)})
  {
    assert [e][1..] == [] && OtherBlocks([], 2) == [] && B.OfBlock([], 2) == [] && B.KeySet(TransferEventKey, []) == {};
    assert OtherBlocks([e], 2) == [] && B.OfBlock([e], 2) == [e];
    assert {} + B.KeySet(TransferEventKey, [e]) == {TransferEventKey(e)};
  }

  lemma FailStep(w: O.World, outbox: O.Rows, e: RawEvent)
    requires e.block == 2
    ensures Apply(OneScope(TRX, w), Scanning(TRX, outbox, 2, {2}, 1, 2, Publish(Batch(2, 2, {2}, [], [e], {}))), Act(0, FAILING))
            == Scanning(TRX, outbox, 2, {2}, 1, 2, Publish(Batch(2, 2, {2}, [], [], {TransferEventKey(e)})))
  {
    OneEventCut(e, {2});
  }

  /** A native block whose only event could not be enqueued. */
  lemma FailedPublishLeavesGap(w: O.World, outbox: O.Rows, e: RawEvent) returns (steps: seq<Step>)
    requires O.BlockEvents(w, TRX, 2, 0) == [e] && e.block == 2
    ensures Forgotten(OneScope(TRX, w), Fresh(TRX, outbox), steps, TRX, 2, NotPublished)
  {
    var cfg, st := OneScope(TRX, w), Fresh(TRX, outbox);
    steps := ScanToFetched(TRX, w, outbox, 2, {2});
    steps := Then(cfg, st, steps, Act(0, Fine({})));
    OneBlockPlanned(cfg);
    var batch := Batch(2, 2, {2}, [], [e], {});
    assert Run(cfg, st, steps) == Scanning(TRX, outbox, 2, {2}, 1, 2, Publish(batch));
    steps := Then(cfg, st, steps, Act(0, FAILING));
    var after := Batch(2, 2, {2}, [], [], {TransferEventKey(e)});
    FailStep(w, outbox, e);
    steps := FinishScan(cfg, st, steps, TRX, outbox, 2, after, {2});
    assert TransferEventKey(O.BlockEvents(w, TRX, 2, 0)[0]) in after.cut;
    assert Fate(w, TRX, after, 2) == Some(NotPublished);
  }

  lemma EventsStep(contract: string, w: O.World, outbox: O.Rows, latest: int, blocks: set<int>)
    ensures Apply(OneScope(contract, w), Scanning(contract, outbox, latest, blocks, 1, 2, Events), Act(0, Fine({})))
            == Scanning(contract, outbox, latest, blocks, 1, 2, EventsFetched([]))
  {
  }

  lemma MatchStep(contract: string, w: O.World, outbox: O.Rows, latest: int, blocks: set<int>)
    requires contract != TRX && 2 <= latest <= 3
    ensures Apply(OneScope(contract, w), Scanning(contract, outbox, latest, blocks, 1, 2, EventsFetched([])), Act(0, Fine({})))
            == Scanning(contract, outbox, latest, blocks, 1, 2, Publish(Batch(2, latest, blocks, [], [], {})))
  {
    NothingFetched(OneScope(contract, w), contract, 2, latest, blocks);
  }

  lemma ContractToPublish(contract: string, w: O.World, outbox: O.Rows, latest: int, blocks: set<int>) returns (steps: seq<Step>)
    requires contract != TRX && blocks != {} && 2 <= latest <= 3
    ensures Run(OneScope(contract, w), Fresh(contract, outbox), steps)
            == Scanning(contract, outbox, latest, blocks, 1, 2, Publish(Batch(2, latest, blocks, [], [], {})))
  {
    var cfg, st := OneScope(contract, w), Fresh(contract, outbox);
    steps := ScanToFetched(contract, w, outbox, latest, blocks);
    steps := Then(cfg, st, steps, Act(0, Fine({})));
    assert Run(cfg, st, steps) == Scanning(contract, outbox, latest, blocks, 1, 2, Events);
    steps := Then(cfg, st, steps, Act(0, Fine({})));
    EventsStep(contract, w, outbox, latest, blocks);
    steps := Then(cfg, st, steps, Act(0, Fine({})));
    MatchStep(contract, w, outbox, latest, blocks);
  }

  lemma NothingFetched(cfg: Config, contract: string, lo: int, hi: int, blocks: set<int>)
    requires contract != TRX
    ensures NewBatch(cfg, contract, lo, hi, blocks, [], 0) == Batch(lo, hi, blocks, [], [], {})
  {
    assert B.OfBlocks([], lo, hi) == [];
    assert B.MatchedWithin(cfg.world.active, contract, [], lo, hi, 0) == [];
    assert O.Distinct(TransferEventKey, [], {}) == [];
    NothingGrouped(lo, hi);
  }

  lemma {:induction false} NothingGrouped(lo: int, hi: int)
    ensures B.Grouped([], lo, hi) == []
    decreases hi - lo
  {
    if hi < lo {
    } else {
      NothingGrouped(lo + 1, hi);
      assert B.OfBlock([], lo) == [];
    }
  }

  /** A TRC-20 block outside the time span of the blocks that were returned: block 2 came back, block 3 did
      not, and block 2 holds no events. */
  lemma PartialResponseLeavesGap(contract: string, w: O.World, outbox: O.Rows) returns (steps: seq<Step>)
    requires contract != TRX && (contract, 2) !in w.chain
    ensures Forgotten(OneScope(contract, w), Fresh(contract, outbox), steps, contract, 3, OutsideSpan)
  {
    var batch := Batch(2, 3, {2}, [], [], {});
    steps := ContractToPublish(contract, w, outbox, 3, {2});
    steps := FinishScan(OneScope(contract, w), Fresh(contract, outbox), steps, contract, outbox, 3, batch, {2});
    assert Fate(w, contract, batch, 3) == Some(OutsideSpan);
  }

  /** A TRC-20 block whose events were missing from the answer of the events query. */
  lemma LateIndexLeavesGap(contract: string, w: O.World, outbox: O.Rows) returns (steps: seq<Step>)
    requires contract != TRX && (contract, 2) in w.chain && w.chain[(contract, 2)] != []
    ensures Forgotten(OneScope(contract, w), Fresh(contract, outbox), steps, contract, 2, NotIndexed)
  {
    var batch := Batch(2, 2, {2}, [], [], {});
    steps := ContractToPublish(contract, w, outbox, 2, {2});
    steps := FinishScan(OneScope(contract, w), Fresh(contract, outbox), steps, contract, outbox, 2, batch, {2});
    assert B.ChainEvent(2, w.chain[(contract, 2)][0]) !in batch.fetched;
    assert InSpan({2}, 2);
    assert Fate(w, contract, batch, 2) == Some(NotIndexed);
  }

  // ----- Reconciles and replays

  /** A scope while worker "w" reconciles it. */
  function Reconciling(scope: string, outbox: O.Rows, highest: int, start: int, rpc: ReconcilePc, jobs: Q.Jobs, lost: set<Loss>): State {
    State(0, map[scope := L.CursorRow(highest, Some("w"), Some(L.LeaseSpan(0)))], jobs,
          map[0 := Reconcile("w", scope, 2, 1, start, rpc)], outbox, {}, {}, lost)
  }

  lemma ReconcileToEnqueue(scope: string, w: O.World, outbox: O.Rows) returns (steps: seq<Step>)
    ensures Run(OneScope(scope, w), Fresh(scope, outbox), steps) == Reconciling(scope, outbox, 1, 2, Enqueue, map[], {})
  {
    var cfg, st, act := OneScope(scope, w), Fresh(scope, outbox), Act(0, Fine({}));
    steps := Then(cfg, st, [], StartReconcile(0, "w", scope, 2, 1));
    assert Run(cfg, st, steps) == st.(procs := map[0 := Reconcile("w", scope, 2, 1, 2, Claim)]);
    steps := Then(cfg, st, steps, act);
    assert Run(cfg, st, steps) == Reconciling(scope, outbox, 1, 2, NextRange, map[], {});
    steps := Then(cfg, st, steps, act);
  }

  lemma ReconcileToJump(scope: string, w: O.World, outbox: O.Rows, steps: seq<Step>, jobs: Q.Jobs, lost: set<Loss>) returns (steps': seq<Step>)
    requires Run(OneScope(scope, w), Fresh(scope, outbox), steps) == Reconciling(scope, outbox, 1, 3, NextRange, jobs, lost)
    ensures Run(OneScope(scope, w), Fresh(scope, outbox), steps') == Reconciling(scope, outbox, 2, 3, LeaveScope, jobs, lost)
  {
    var cfg, st, act := OneScope(scope, w), Fresh(scope, outbox), Act(0, Fine({}));
    steps' := Then(cfg, st, steps, act);
    assert Run(cfg, st, steps') == Reconciling(scope, outbox, 1, 3, Jump, jobs, lost);
    steps' := Then(cfg, st, steps', act);
    JumpStep(scope, w, outbox, jobs, lost);
  }

  lemma JumpStep(scope: string, w: O.World, outbox: O.Rows, jobs: Q.Jobs, lost: set<Loss>)
    ensures Apply(OneScope(scope, w), Reconciling(scope, outbox, 1, 3, Jump, jobs, lost), Act(0, Fine({})))
            == Reconciling(scope, outbox, 2, 3, LeaveScope, jobs, lost)
  {
  }

  lemma ReconcileToEnd(scope: string, w: O.World, outbox: O.Rows, steps: seq<Step>, jobs: Q.Jobs, lost: set<Loss>) returns (steps': seq<Step>)
    requires Run(OneScope(scope, w), Fresh(scope, outbox), steps) == Reconciling(scope, outbox, 1, 3, NextRange, jobs, lost)
    ensures Run(OneScope(scope, w), Fresh(scope, outbox), steps')
            == State(0, map[scope := L.CursorRow(2, None, None)], jobs, map[], outbox, {}, {}, lost)
  {
    steps' := ReconcileToJump(scope, w, outbox, steps, jobs, lost);
    steps' := Then(OneScope(scope, w), Fresh(scope, outbox), steps', Act(0, Fine({})));
    assert Run(OneScope(scope, w), Fresh(scope, outbox), steps').procs == map[];
  }

  /** A reconcile of a gap of one block, whose only enqueue succeeds. */
  lemma ReconcileOneBlock(scope: string, w: O.World, outbox: O.Rows) returns (steps: seq<Step>)
    ensures Run(OneScope(scope, w), Fresh(scope, outbox), steps) == AfterFailures(scope, outbox, 0)
  {
    steps := ReconcileToEnqueue(scope, w, outbox);
    steps := Then(OneScope(scope, w), Fresh(scope, outbox), steps, Act(0, Fine({})));
    var jobs := map[7 := Q.NewJob(2, 2, 10, 0)];
    assert Run(OneScope(scope, w), Fresh(scope, outbox), steps) == Reconciling(scope, outbox, 1, 3, NextRange, jobs, {});
    steps := ReconcileToEnd(scope, w, outbox, steps, jobs, {});
  }

  /** One failed enqueue of a reconcile. */
  lemma FailedEnqueueLeavesGap(scope: string, w: O.World, outbox: O.Rows) returns (steps: seq<Step>)
    ensures Forgotten(OneScope(scope, w), Fresh(scope, outbox), steps, scope, 2, NotEnqueued)
  {
    steps := ReconcileToEnqueue(scope, w, outbox);
    steps := Then(OneScope(scope, w), Fresh(scope, outbox), steps, Act(0, FAILING));
    var lost := {Loss(NotEnqueued, scope, 2)};
    assert Lost(NotEnqueued, scope, Range(2, 2)) == lost;
    assert Run(OneScope(scope, w), Fresh(scope, outbox), steps) == Reconciling(scope, outbox, 1, 3, NextRange, map[], lost);
    steps := ReconcileToEnd(scope, w, outbox, steps, map[], lost);
  }

  /** The job of the gap after `k` failed replays, each as soon as it is due. */
  function AfterFailures(scope: string, outbox: O.Rows, k: nat): State {
    State(30 * k, map[scope := L.CursorRow(2, None, None)],
          map[7 := Q.Job(2, 2, if k == 0 then Q.Pending else if k < 10 then Q.Failed else Q.Dead, k, 10, 30 * k, None)],
          map[], outbox, {}, {}, if k < 10 then {} else {Loss(DeadJob, scope, 2)})
  }

  /** The same while it is replayed once more. */
  function Replaying(scope: string, outbox: O.Rows, k: nat, task: Task, failed: set<string>, lost: set<Loss>): State {
    State(30 * k, map[scope := L.CursorRow(2, None, None)], map[7 := Q.Job(2, 2, Q.Running, k + 1, 10, 30 * k, Some(30 * k))],
          map[1 := Replay(7, 2, 2, map[scope := task], failed)], outbox, {}, {}, lost)
  }

  lemma StartReplaying(scope: string, w: O.World, outbox: O.Rows, st: State, steps: seq<Step>, k: nat) returns (steps': seq<Step>)
    requires k < 10 && Run(OneScope(scope, w), st, steps) == AfterFailures(scope, outbox, k)
    ensures Run(OneScope(scope, w), st, steps') == Replaying(scope, outbox, k, Due(2), {}, {})
  {
    steps' := Then(OneScope(scope, w), st, steps, StartReplay(1, 7, Ok));
    var end := Run(OneScope(scope, w), st, steps');
    assert end.procs[1].tasks == map[scope := Due(2)];
    assert end.procs == Replaying(scope, outbox, k, Due(2), {}, {}).procs;
    assert end.jobs == Replaying(scope, outbox, k, Due(2), {}, {}).jobs;
  }

  lemma FinishEmpty(contract: string, w: O.World, outbox: O.Rows, lost: set<Loss>)
    ensures Apply(OneScope(contract, w), Replaying(contract, outbox, 0, Due(3), {}, lost), ReplayEnd(1, Ok))
            == State(0, map[contract := L.CursorRow(2, None, None)], map[7 := Q.Job(2, 2, Q.Completed, 1, 10, 0, None)],
                     map[], outbox, {}, {}, lost)
  {
    var st := Replaying(contract, outbox, 0, Due(3), {}, lost);
    assert st.procs - {1} == map[];
    assert lost + {} == lost;
  }

  lemma EmptyFetch(contract: string, w: O.World, outbox: O.Rows)
    requires contract != TRX
    ensures Apply(OneScope(contract, w), Replaying(contract, outbox, 0, Due(2), {}, {}), ReplayAct(1, contract, Fine({})))
            == Replaying(contract, outbox, 0, Due(3), {}, {Loss(EmptyReplay, contract, 2)})
  {
    assert Range(2, 2) == {2};
    assert {} + Lost(EmptyReplay, contract, {2}) == {Loss(EmptyReplay, contract, 2)};
    assert map[contract := Due(2)][contract := Due(3)] == map[contract := Due(3)];
  }

  /** One replay batch of a contract that comes back without blocks: the replay skips it, yet its job
      completes. */
  lemma EmptyReplayLeavesGap(contract: string, w: O.World, outbox: O.Rows) returns (steps: seq<Step>)
    requires contract != TRX
    ensures Forgotten(OneScope(contract, w), Fresh(contract, outbox), steps, contract, 2, EmptyReplay)
  {
    var cfg, st, lost := OneScope(contract, w), Fresh(contract, outbox), {Loss(EmptyReplay, contract, 2)};
    steps := ReconcileOneBlock(contract, w, outbox);
    steps := StartReplaying(contract, w, outbox, st, steps, 0);
    steps := Then(cfg, st, steps, ReplayAct(1, contract, Fine({})));
    EmptyFetch(contract, w, outbox);
    steps := Then(cfg, st, steps, ReplayEnd(1, Ok));
    FinishEmpty(contract, w, outbox, lost);
  }

  lemma FailOnce(scope: string, w: O.World, outbox: O.Rows, st: State, steps: seq<Step>, k: nat) returns (steps': seq<Step>)
    requires k < 10 && Run(OneScope(scope, w), st, steps) == AfterFailures(scope, outbox, k)
    ensures Run(OneScope(scope, w), st, steps') == AfterFailures(scope, outbox, k + 1)
  {
    var cfg := OneScope(scope, w);
    steps' := StartReplaying(scope, w, outbox, st, steps, k);
    steps' := Then(cfg, st, steps', ReplayAct(1, scope, FAILING));
    var failed := Replaying(scope, outbox, k, Due(2), {scope}, {});
    assert {} + {scope} == {scope};
    assert Run(cfg, st, steps').procs == failed.procs;
    assert Run(cfg, st, steps') == failed;
    steps' := Then(cfg, st, steps', ReplayEnd(1, Ok));
    FinishFailed(scope, w, outbox, k);
    assert Run(cfg, st, steps') == AfterFailures(scope, outbox, k + 1).(now := 30 * k);
    steps' := Then(cfg, st, steps', Tick(30));
  }

  lemma FinishFailed(scope: string, w: O.World, outbox: O.Rows, k: nat)
    requires k < 10
    ensures ReplayFinish(OneScope(scope, w), Replaying(scope, outbox, k, Due(2), {scope}, {}), 1,
                         Replaying(scope, outbox, k, Due(2), {scope}, {}).procs[1], Ok)
            == AfterFailures(scope, outbox, k + 1).(now := 30 * k)
  {
    var st := Replaying(scope, outbox, k, Due(2), {scope}, {});
    assert Range(2, 2) == {2};
    assert !Passed(st, scope, 2);
    assert Abandoned(OneScope(scope, w), st, 2, 2, DeadJob) == {Loss(DeadJob, scope, 2)};
    assert st.procs - {1} == map[];
  }

  lemma {:induction false} FailOften(scope: string, w: O.World, outbox: O.Rows, k: nat) returns (steps: seq<Step>)
    requires k <= 10
    ensures Run(OneScope(scope, w), Fresh(scope, outbox), steps) == AfterFailures(scope, outbox, k)
  {
    if k == 0 {
      steps := ReconcileOneBlock(scope, w, outbox);
    } else {
      steps := FailOften(scope, w, outbox, k - 1);
      steps := FailOnce(scope, w, outbox, Fresh(scope, outbox), steps, k - 1);
    }
  }

  /** A job whose replays failed ten times. */
  lemma DeadJobLeavesGap(scope: string, w: O.World, outbox: O.Rows) returns (steps: seq<Step>)
    ensures Forgotten(OneScope(scope, w), Fresh(scope, outbox), steps, scope, 2, DeadJob)
  {
    steps := FailOften(scope, w, outbox, 10);
  }

  /** A job whose taker crashes: the queue keeps it running. */
  lemma OrphanedJobLeavesGap(scope: string, w: O.World, outbox: O.Rows) returns (steps: seq<Step>)
    ensures Forgotten(OneScope(scope, w), Fresh(scope, outbox), steps, scope, 2, Orphaned)
    ensures var end := Run(OneScope(scope, w), Fresh(scope, outbox), steps); J.RunsForNobody(end, 7)
  {
    var cfg, st := OneScope(scope, w), Fresh(scope, outbox);
    steps := ReconcileOneBlock(scope, w, outbox);
    steps := StartReplaying(scope, w, outbox, st, steps, 0);
    steps := Then(cfg, st, steps, Crash(1));
    CrashLeaves(scope, w, outbox);
  }

  lemma CrashLeaves(scope: string, w: O.World, outbox: O.Rows)
    ensures var st := Replaying(scope, outbox, 0, Due(2), {}, {});
            Apply(OneScope(scope, w), st, Crash(1)) == st.(procs := map[], lost := {Loss(Orphaned, scope, 2)})
  {
    var st := Replaying(scope, outbox, 0, Due(2), {}, {});
    assert Range(2, 2) == {2};
    assert !Passed(st, scope, 2);
    assert {} + Abandoned(OneScope(scope, w), st, 2, 2, Orphaned) == {Loss(Orphaned, scope, 2)};
    assert st.procs - {1} == map[];
  }
}
