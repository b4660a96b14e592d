/** Any number of replicas scanning, replaying and reconciling the same scopes, as an interleaving
    of atomic actions. Every database statement, every fetch and every transaction that enqueues one event is an
    action; fetches and statements may fail, answers may be incomplete, processes may crash between any two
    actions, and leases may expire and be taken over.

    The claim: no block between a scope's initial cursor and its current one is ever forgotten. */
module ScanProtocol {
  import opened Base
  import opened TransferKeys
  import L = CursorLease
  import Q = JobQueue
  import W = ScanLoops
  import O = Outbox
  import B = BatchWindow

  const TRX := O.TRX

  /** `scopes` is the native scope and the watched contracts; they, the chain with the watchlist and the
      endpoints, and the times of its blocks are fixed for the run. */
  datatype Config = Config(scopes: set<string>, startBlock: int, retain: int, world: O.World, time: int -> int)

  /** A range on its way to the outbox: the blocks that were returned for it, the events fetched for it,
      the events still to enqueue, and the batch keys of those that an error cut off. */
  datatype Batch = Batch(lo: int, hi: int, returned: set<int>, fetched: seq<B.ChainEvent>, queue: seq<RawEvent>, cut: set<string>)

  /** Where a forward scan stands. Each position names the action it performs next. */
  datatype ScanPc =
    | Read(atClaim: int)                              // read the cursor and choose the origin
    | ColdSave                                        // pin a scope without cursor to the safe tip
    | Top                                             // loop test, then renew the lease
    | Fetch                                           // fetch the blocks of the batch
    | Fetched                                         // renew; TRC-20 gives up on an empty answer
    | Events                                          // TRC-20: fetch the events of the batch
    | EventsFetched(fetched: seq<B.ChainEvent>)       // TRC-20: renew, then match
    | Publish(batch: Batch)                           // enqueue one event; TRX: of one block, TRC-20: of the batch
    | Save(cursor: int, done: int)                    // persist `cursor`; `done` is the last block published
    | BatchDone                                       // renew, then the next batch
    | Leave                                           // release the lease

  datatype ReconcilePc = Claim | NextRange | Enqueue | Jump | LeaveScope

  /** Where a replay stands in one scope: before the batch at `next`, or publishing one. */
  datatype Task = Due(next: int) | Busy(batch: Batch)

  datatype Proc =
    | Scan(worker: string, scope: string, latest: int, from: int, batchStart: int, returned: set<int>, pc: ScanPc)
    | Reconcile(worker: string, scope: string, safe: int, size: int, start: int, rpc: ReconcilePc)
    | Replay(id: Q.JobId, lo: int, hi: int, tasks: map<string, Task>, failed: set<string>)

  /** The ways in which the code passes a block without publishing all of it. */
  datatype Cause =
    | NotEnqueued     // the backfill job of a reconcile could not be enqueued
    | DeadJob         // the backfill job failed as often as it may
    | Orphaned        // the taker of the backfill job is gone, and the job stays running
    | NotReturned     // a native block was missing from a range response
    | OutsideSpan     // a TRC-20 block was outside the time span of the blocks returned
    | EmptyReplay     // a TRC-20 replay batch came back without blocks
    | NotIndexed      // an event was missing from the answer of the events query
    | NotPublished    // enqueueing an event failed, which ends its block

  datatype Loss = Loss(cause: Cause, scope: string, block: int)

  /** `visited` are the blocks whose events were all at hand and all enqueued; `begun` those of which some
      event was. */
  datatype State = State(now: int, rows: L.Cursors, jobs: Q.Jobs, procs: map<nat, Proc>, outbox: O.Rows,
                         visited: set<(string, int)>, begun: set<(string, int)>, lost: set<Loss>)

  /** What the outside world answers to an action: its outcome, the blocks or events fetched, the id
      generated, and the chain tip known. */
  datatype Input = Input(reply: Reply, blocks: set<int>, events: seq<B.ChainEvent>, newId: Q.JobId, tip: int)

  datatype Step =
    | Tick(span: nat)
    | StartScan(p: nat, worker: string, scope: string, latest: int, reply: Reply)
    | StartReconcile(p: nat, worker: string, scope: string, safe: int, batchSize: int)
    | StartReplay(p: nat, id: Q.JobId, reply: Reply)
    | AdminJob(id: Q.JobId, lo: int, hi: int)
    | Act(p: nat, input: Input)
    | ReplayAct(p: nat, scope: string, input: Input)
    | ReplayEnd(p: nat, reply: Reply)
    | Crash(p: nat)

  function Put(st: State, p: nat, proc: Proc): State {
    st.(procs := st.procs[p := proc])
  }

  function End(st: State, p: nat): State {
    st.(procs := st.procs - {p})
  }

  function Lost(cause: Cause, scope: string, blocks: set<int>): set<Loss> {
    set b | b in blocks :: Loss(cause, scope, b)
  }

  function Range(lo: int, hi: int): (r: set<int>)
    ensures forall b :: b in r <==> lo <= b <= hi
    decreases hi - lo
  {
    if lo > hi then {} else {lo} + Range(lo + 1, hi)
  }

  // ----- Publishing a batch

  /** The blocks of [lo, hi] that were returned, in order. */
  function Present(lo: int, hi: int, returned: set<int>): seq<int>
    decreases hi - lo
  {
    if lo > hi then [] else (if lo in returned then [lo] else []) + Present(lo + 1, hi, returned)
  }

  /** The events query is for the time span of the blocks returned. */
  predicate InWindow(time: int -> int, returned: set<int>, ts: int) {
    exists x, y :: x in returned && y in returned && time(x) <= ts <= time(y)
  }

  predicate InSpan(returned: set<int>, b: int) {
    exists x, y :: x in returned && y in returned && x <= b <= y
  }

  predicate OnChain(w: O.World, scope: string, e: B.ChainEvent) {
    (scope, e.block) in w.chain && e.transfer in w.chain[(scope, e.block)]
  }

  /** The events query answers with events of the contract inside the window, in any order, with any
      repeats, and perhaps not with all of them. */
  function Answer(cfg: Config, scope: string, returned: set<int>, events: seq<B.ChainEvent>): seq<B.ChainEvent> {
    if events == [] then []
    else
      var rest := Answer(cfg, scope, returned, events[1..]);
      if OnChain(cfg.world, scope, events[0]) && InWindow(cfg.time, returned, events[0].transfer.timestamp) then [events[0]] + rest else rest
  }

  /** The events to enqueue, in order. A TRC-20 batch drops repeated batch keys. */
  function Plan(cfg: Config, scope: string, lo: int, hi: int, returned: set<int>, fetched: seq<B.ChainEvent>, tip: int): seq<RawEvent> {
    if scope == TRX then O.BatchEvents(cfg.world, scope, Present(lo, hi, returned), tip)
    else B.Grouped(O.Distinct(TransferEventKey, B.MatchedWithin(cfg.world.active, scope, fetched, lo, hi, tip), {}), lo, hi)
  }

  function NewBatch(cfg: Config, scope: string, lo: int, hi: int, returned: set<int>, fetched: seq<B.ChainEvent>, tip: int): Batch {
    Batch(lo, hi, returned, fetched, Plan(cfg, scope, lo, hi, returned, fetched, tip), {})
  }

  function OtherBlocks(queue: seq<RawEvent>, block: int): seq<RawEvent> {
    if queue == [] then []
    else (if queue[0].block == block then [] else [queue[0]]) + OtherBlocks(queue[1..], block)
  }

  /** Enqueueing the head of the queue is one transaction. */
  function Enqueued(cfg: Config, st: State, scope: string, batch: Batch, reply: Reply): State
    requires batch.queue != []
  {
    var e := batch.queue[0];
    if reply.Err? then st
    else st.(outbox := O.FanOut(st.outbox, scope, e, cfg.world.endpoints, {}), begun := st.begun + {(scope, e.block)})
  }

  /** An error is logged and ends the block. */
  function Remaining(batch: Batch, reply: Reply): Batch
    requires batch.queue != []
  {
    var e := batch.queue[0];
    if reply.Ok? then batch.(queue := batch.queue[1..])
    else batch.(queue := OtherBlocks(batch.queue, e.block), cut := batch.cut + B.KeySet(TransferEventKey, B.OfBlock(batch.queue, e.block)))
  }

  /** The answer holds every event of the block. */
  predicate Indexed(w: O.World, scope: string, fetched: seq<B.ChainEvent>, b: int) {
    (scope, b) in w.chain ==> forall i :: 0 <= i < |w.chain[(scope, b)]| ==> B.ChainEvent(b, w.chain[(scope, b)][i]) in fetched
  }

  /** Some event of the block was cut off, or left to one that was. */
  predicate CutShort(w: O.World, scope: string, cut: set<string>, b: int) {
    exists i :: 0 <= i < |O.BlockEvents(w, scope, b, 0)| && TransferEventKey(O.BlockEvents(w, scope, b, 0)[i]) in cut
  }

  /** What became of a block of a batch: nothing for a block visited, else why it was not. */
  function Fate(w: O.World, scope: string, batch: Batch, b: int): Option<Cause> {
    if scope == TRX && b !in batch.returned then Some(NotReturned)
    else if scope != TRX && !InSpan(batch.returned, b) then Some(OutsideSpan)
    else if scope != TRX && !Indexed(w, scope, batch.fetched, b) then Some(NotIndexed)
    else if CutShort(w, scope, batch.cut, b) then Some(NotPublished)
    else None
  }

  /** The end of a batch. Only here is anything said about its blocks. */
  function Settled(cfg: Config, st: State, scope: string, batch: Batch): State {
    st.(visited := st.visited + set b | b in Range(batch.lo, batch.hi) && Fate(cfg.world, scope, batch, b).None? :: (scope, b),
        lost := st.lost + set b | b in Range(batch.lo, batch.hi) && Fate(cfg.world, scope, batch, b).Some?
                            :: Loss(Fate(cfg.world, scope, batch, b).value, scope, b))
  }

  // ----- Forward scans

  function BatchEnd(proc: Proc): int
    requires proc.Scan?
  {
    W.BatchEnd(proc.batchStart, proc.latest)
  }

  /** Renews the lease of a scan; any failure ends the scan. */
  function Renewed(st: State, p: nat, proc: Proc, reply: Reply, next: ScanPc): State
    requires proc.Scan?
  {
    var rows := if reply.Err? then st.rows else L.Renew(st.rows, proc.scope, proc.worker, st.now, 0);
    var ok := reply.Ok? && L.Holds(st.rows, proc.scope, proc.worker);
    Put(st.(rows := rows), p, proc.(pc := if ok then next else Leave))
  }

  function ScanRead(cfg: Config, st: State, p: nat, proc: Proc, reply: Reply): State
    requires proc.Scan? && proc.pc.Read?
  {
    if !reply.Ok? then Put(st, p, proc.(pc := Leave))
    else
      var cursor := Max(proc.pc.atClaim, L.HighestBlock(st.rows, proc.scope));
      if cursor == 0 && cfg.startBlock <= 0 then Put(st, p, proc.(pc := ColdSave))
      else
        var from := W.ScanOrigin(cursor, cfg.startBlock, proc.latest);
        if proc.latest <= from then Put(st, p, proc.(pc := Leave))
        else Put(st, p, proc.(from := from, batchStart := from + 1, pc := Top))
  }

  /** A native scan publishes and saves block by block. */
  function PublishTrx(cfg: Config, proc: Proc, block: int, tip: int): ScanPc
    requires proc.Scan?
  {
    Publish(NewBatch(cfg, proc.scope, block, block, proc.returned, [], tip))
  }

  function ScanPublish(cfg: Config, st: State, p: nat, proc: Proc, reply: Reply): State
    requires proc.Scan? && proc.pc.Publish?
  {
    var batch := proc.pc.batch;
    if batch.queue != [] then Put(Enqueued(cfg, st, proc.scope, batch, reply), p, proc.(pc := Publish(Remaining(batch, reply))))
    else
      var cursor := if proc.scope == TRX then batch.hi else W.CursorAfterBatch(cfg.retain, proc.from, batch.lo, batch.hi);
      Put(Settled(cfg, st, proc.scope, batch), p, proc.(pc := Save(cursor, batch.hi)))
  }

  function ScanSave(cfg: Config, st: State, p: nat, proc: Proc, reply: Reply, tip: int): State
    requires proc.Scan? && proc.pc.Save?
  {
    var cursor := proc.pc.cursor;
    var rows := if reply.Err? then st.rows else L.SetBlock(st.rows, proc.scope, cursor, proc.worker, st.now);
    var ok := reply.Ok? && L.CanWrite(st.rows, proc.scope, proc.worker, st.now);
    var next := if !ok then Leave
                else if proc.scope == TRX && proc.pc.done < BatchEnd(proc) then PublishTrx(cfg, proc, proc.pc.done + 1, tip)
                else BatchDone;
    Put(st.(rows := rows), p, proc.(from := if ok && proc.scope != TRX then cursor else proc.from, pc := next))
  }

  function ScanAct(cfg: Config, st: State, p: nat, proc: Proc, input: Input): State
    requires proc.Scan?
  {
    var reply := input.reply;
    match proc.pc
    case Read(_) => ScanRead(cfg, st, p, proc, reply)
    case ColdSave =>
      var rows := if reply.Err? then st.rows else L.SetBlock(st.rows, proc.scope, proc.latest, proc.worker, st.now);
      Put(st.(rows := rows), p, proc.(pc := Leave))
    case Top =>
      if proc.batchStart > proc.latest then Put(st, p, proc.(pc := Leave)) else Renewed(st, p, proc, reply, Fetch)
    case Fetch =>
      if W.IsError(reply) then Put(st, p, proc.(pc := Leave)) else Put(st, p, proc.(returned := input.blocks, pc := Fetched))
    case Fetched =>
      Renewed(st, p, proc, reply,
              if proc.scope == TRX then PublishTrx(cfg, proc, proc.batchStart, input.tip)
              else if proc.returned == {} then Leave else Events)
    case Events =>
      Put(st, p, proc.(pc := if W.IsError(reply) then Leave else EventsFetched(Answer(cfg, proc.scope, proc.returned, input.events))))
    case EventsFetched(fetched) =>
      Renewed(st, p, proc, reply, Publish(NewBatch(cfg, proc.scope, proc.batchStart, BatchEnd(proc), proc.returned, fetched, input.tip)))
    case Publish(_) => ScanPublish(cfg, st, p, proc, reply)
    case Save(_, _) => ScanSave(cfg, st, p, proc, reply, input.tip)
    case BatchDone => Renewed(st, p, proc.(batchStart := BatchEnd(proc) + 1), reply, Top)
    case Leave =>
      End(st.(rows := if reply.Err? then st.rows else L.Release(st.rows, proc.scope, proc.worker)), p)
  }

  // ----- Reconciles

  /** A range whose job is not inserted is lost for the scope whose cursor is about to pass it. */
  function EnqueueRange(st: State, scope: string, lo: int, hi: int, reply: Reply, newId: Q.JobId): State {
    var inserted := !reply.Err? && newId !in st.jobs;
    st.(jobs := if inserted then st.jobs[newId := Q.NewJob(lo, hi, 10, st.now)] else st.jobs,
        lost := if inserted then st.lost else st.lost + Lost(NotEnqueued, scope, Range(lo, hi)))
  }

  function ReconcileAct(cfg: Config, st: State, p: nat, proc: Proc, reply: Reply, newId: Q.JobId): State
    requires proc.Reconcile?
  {
    match proc.rpc
    case Claim =>
      var rows := if reply.Err? then st.rows else L.Claim(st.rows, proc.scope, proc.worker, st.now, 0);
      if reply.Ok? && L.CanClaim(st.rows, proc.scope, proc.worker, st.now)
      then Put(st.(rows := rows), p, proc.(rpc := NextRange))
      else End(st.(rows := rows), p)
    case NextRange =>
      if proc.start > proc.safe then Put(st, p, proc.(rpc := Jump))
      else
        var rows := if reply.Err? then st.rows else L.Renew(st.rows, proc.scope, proc.worker, st.now, 0);
        var ok := reply.Ok? && L.Holds(st.rows, proc.scope, proc.worker);
        Put(st.(rows := rows), p, proc.(rpc := if ok then Enqueue else LeaveScope))
    case Enqueue =>
      Put(EnqueueRange(st, proc.scope, proc.start, Min(proc.start + proc.size - 1, proc.safe), reply, newId), p,
          proc.(start := proc.start + proc.size, rpc := NextRange))
    case Jump =>
      var rows := if reply.Err? then st.rows else L.SetBlock(st.rows, proc.scope, proc.safe, proc.worker, st.now);
      Put(st.(rows := rows), p, proc.(rpc := LeaveScope))
    case LeaveScope =>
      End(st.(rows := if reply.Err? then st.rows else L.Release(st.rows, proc.scope, proc.worker)), p)
  }

  // ----- Replays

  function ReplayedBatch(cfg: Config, scope: string, lo: int, hi: int, input: Input): Batch {
    var fetched := if scope == TRX then [] else Answer(cfg, scope, input.blocks, input.events);
    NewBatch(cfg, scope, lo, hi, input.blocks, fetched, input.tip)
  }

  /** A TRC-20 batch for which no blocks came back is skipped. */
  predicate Skipped(scope: string, input: Input) {
    scope != TRX && input.blocks == {}
  }

  function NextTask(cfg: Config, scope: string, lo: int, hi: int, input: Input): Task {
    if Skipped(scope, input) then Due(hi + 1) else Busy(ReplayedBatch(cfg, scope, lo, hi, input))
  }

  /** Fetching a batch of a replay; the fetches of blocks and of events are one action here. */
  function ReplayFetch(cfg: Config, st: State, p: nat, proc: Proc, scope: string, next: int, input: Input): State
    requires proc.Replay?
  {
    var end := W.BatchEnd(next, proc.hi);
    if next > proc.hi then st
    else if W.IsError(input.reply) then Put(st, p, proc.(failed := proc.failed + {scope}))
    else
      Put(st.(lost := st.lost + if Skipped(scope, input) then Lost(EmptyReplay, scope, Range(next, end)) else {}), p,
          proc.(tasks := proc.tasks[scope := NextTask(cfg, scope, next, end, input)]))
  }

  /** Enqueueing one event of a replayed batch, or ending the batch. */
  function ReplayPublish(cfg: Config, st: State, p: nat, proc: Proc, scope: string, batch: Batch, reply: Reply): State
    requires proc.Replay?
  {
    if batch.queue != [] then
      Put(Enqueued(cfg, st, scope, batch, reply), p, proc.(tasks := proc.tasks[scope := Busy(Remaining(batch, reply))]))
    else Put(Settled(cfg, st, scope, batch), p, proc.(tasks := proc.tasks[scope := Due(batch.hi + 1)]))
  }

  /** The next action of a replay in one scope. The scopes of a replay run concurrently. */
  function ReplayTask(cfg: Config, st: State, p: nat, proc: Proc, scope: string, input: Input): State
    requires proc.Replay? && scope in proc.tasks
  {
    match proc.tasks[scope]
    case Due(next) => ReplayFetch(cfg, st, p, proc, scope, next, input)
    case Busy(batch) => ReplayPublish(cfg, st, p, proc, scope, batch, input.reply)
  }

  /** The blocks before this one are passed. */
  function Reached(t: Task): int {
    if t.Due? then t.next else t.batch.lo
  }

  predicate ReplayOver(cfg: Config, proc: Proc)
    requires proc.Replay?
  {
    forall s :: s in cfg.scopes ==> s in proc.failed || (s in proc.tasks && proc.tasks[s].Due? && proc.tasks[s].next > proc.hi)
  }

  /** What a job that nobody will finish leaves behind: the blocks of its range, as far as nobody passed them. */
  function Abandoned(cfg: Config, st: State, lo: int, hi: int, cause: Cause): set<Loss> {
    set s, b | s in cfg.scopes && b in Range(lo, hi) && !Passed(st, s, b) :: Loss(cause, s, b)
  }

  /** A replay marks its job. If the mark itself fails the error is logged and the job stays running. */
  function ReplayFinish(cfg: Config, st: State, p: nat, proc: Proc, reply: Reply): State
    requires proc.Replay?
  {
    if !ReplayOver(cfg, proc) || proc.id !in st.jobs then st
    else if reply.Err? then Gone(cfg, st, p, proc)
    else
      var row := if proc.failed == {} then Q.CompletedRow(st.jobs[proc.id]) else Q.FailedRow(st.jobs[proc.id], st.now, 30);
      var left := if row.status.Dead? then Abandoned(cfg, st, proc.lo, proc.hi, DeadJob) else {};
      End(st.(jobs := st.jobs[proc.id := row], lost := st.lost + left), p)
  }

  /** A replay that ends without a mark: the queue never takes a running job back. */
  function Gone(cfg: Config, st: State, p: nat, proc: Proc): State
    requires proc.Replay?
  {
    End(st.(lost := st.lost + Abandoned(cfg, st, proc.lo, proc.hi, Orphaned)), p)
  }

  function NewReplay(cfg: Config, id: Q.JobId, job: Q.Job): Proc {
    Replay(id, job.from, job.to, map s | s in cfg.scopes :: Due(job.from), if job.from > job.to then cfg.scopes else {})
  }

  function Apply(cfg: Config, st: State, step: Step): State {
    match step
    case Tick(d) => st.(now := st.now + d)
    case StartScan(p, worker, scope, latest, reply) =>
      if p in st.procs || scope !in cfg.scopes || !L.CanClaim(st.rows, scope, worker, st.now) || reply.Err? then st
      else
        var rows := L.Claim(st.rows, scope, worker, st.now, 0);
        if !reply.Ok? then st.(rows := rows)
        else Put(st.(rows := rows), p, Scan(worker, scope, latest, 0, 0, {}, Read(L.HighestBlock(rows, scope))))
    case StartReconcile(p, worker, scope, safe, batchSize) =>
      var cursor := L.HighestBlock(st.rows, scope);
      var size := if batchSize <= 0 then 1000 else batchSize;
      if p in st.procs || scope !in cfg.scopes || cursor <= 0 || cursor >= safe || safe - cursor < size then st
      else Put(st, p, Reconcile(worker, scope, safe, size, cursor + 1, Claim))
    case StartReplay(p, id, reply) =>
      if p in st.procs || id !in st.jobs || !Q.Eligible(st.jobs[id], st.now) || reply.Err? then st
      else
        var jobs := st.jobs[id := Q.Claimed(st.jobs[id], st.now)];
        if reply.Ok? then Put(st.(jobs := jobs), p, NewReplay(cfg, id, st.jobs[id]))
        else st.(jobs := jobs, lost := st.lost + Abandoned(cfg, st, st.jobs[id].from, st.jobs[id].to, Orphaned))
    case AdminJob(id, lo, hi) =>
      if id in st.jobs || lo <= 0 || lo > hi then st else st.(jobs := st.jobs[id := Q.NewJob(lo, hi, 10, st.now)])
    case Act(p, input) =>
      if p !in st.procs then st
      else
        (match st.procs[p]
         case Scan(_, _, _, _, _, _, _) => ScanAct(cfg, st, p, st.procs[p], input)
         case Reconcile(_, _, _, _, _, _) => ReconcileAct(cfg, st, p, st.procs[p], input.reply, input.newId)
         case Replay(_, _, _, _, _) => st)
    case ReplayAct(p, scope, input) =>
      if p in st.procs && st.procs[p].Replay? && scope in st.procs[p].tasks && scope !in st.procs[p].failed
      then ReplayTask(cfg, st, p, st.procs[p], scope, input) else st
    case ReplayEnd(p, reply) =>
      if p in st.procs && st.procs[p].Replay? then ReplayFinish(cfg, st, p, st.procs[p], reply) else st
    case Crash(p) => if p in st.procs && st.procs[p].Replay? then Gone(cfg, st, p, st.procs[p]) else End(st, p)
  }

  function Run(cfg: Config, st: State, steps: seq<Step>): State
    decreases |steps|
  {
    if steps == [] then st else Run(cfg, Apply(cfg, st, steps[0]), steps[1..])
  }

  // ----- The invariant

  /** The block was visited, or passed over for a recorded cause. */
  predicate Passed(st: State, scope: string, b: int) {
    (scope, b) in st.visited || exists c :: Loss(c, scope, b) in st.lost
  }

  /** Some process is replaying the job. */
  ghost predicate Held(st: State, id: Q.JobId) {
    exists p :: p in st.procs && st.procs[p].Replay? && st.procs[p].id == id
  }

  /** The job will be handed out, or is running and somebody has it. */
  ghost predicate Open(st: State, id: Q.JobId) {
    id in st.jobs && (Q.Waiting(st.jobs[id]) || (st.jobs[id].status.Running? && Held(st, id)))
  }

  /** The block waits in a job that will be handed out or that a process is replaying. */
  ghost predicate InOpenJob(st: State, b: int) {
    exists id :: Open(st, id) && st.jobs[id].from <= b <= st.jobs[id].to
  }

  /** The block was looked at, waits in a backfill job, or was passed over for a recorded cause. */
  ghost predicate Covered(st: State, scope: string, b: int) {
    Passed(st, scope, b) || InOpenJob(st, b)
  }

  ghost predicate Solid(st: State, scope: string, lo: int, hi: int) {
    forall b :: lo < b <= hi ==> Covered(st, scope, b)
  }

  /** A process may only ever write a cursor up to which its scope is solid. */
  ghost predicate ProcOk(cfg: Config, base: map<string, int>, st: State, proc: Proc) {
    match proc
    case Scan(_, scope, latest, from, batchStart, _, pc) =>
      && scope in cfg.scopes && scope in base
      && (match pc
          case Leave => true
          case ColdSave => false
          case Read(a) => Solid(st, scope, base[scope], a)
          case Top => from < batchStart && Solid(st, scope, base[scope], batchStart - 1)
          case Publish(batch) =>
            && from < batchStart <= batch.lo <= batch.hi <= BatchEnd(proc)
            && (scope == TRX || (batch.lo == batchStart && batch.hi == BatchEnd(proc)))
            && Solid(st, scope, base[scope], batch.lo - 1)
          case Save(c, d) =>
            && from < batchStart <= d <= BatchEnd(proc) && c <= d && (scope == TRX || d == BatchEnd(proc))
            && Solid(st, scope, base[scope], d)
          case BatchDone => from <= BatchEnd(proc) && Solid(st, scope, base[scope], BatchEnd(proc))
          case _ => from < batchStart <= latest && Solid(st, scope, base[scope], batchStart - 1))
    case Reconcile(_, scope, safe, size, start, rpc) =>
      && scope in cfg.scopes && scope in base && size > 0
      && Solid(st, scope, base[scope], Min(start - 1, safe))
      && (rpc.Enqueue? ==> start <= safe)
      && (rpc.Jump? ==> start > safe)
    case Replay(id, lo, hi, tasks, failed) =>
      && tasks.Keys == cfg.scopes && failed <= cfg.scopes
      && id in st.jobs && st.jobs[id].from == lo && st.jobs[id].to == hi
      && forall s, b :: s in cfg.scopes && s !in failed && lo <= b < Reached(tasks[s]) ==> Passed(st, s, b)
  }

  ghost predicate CursorsOk(cfg: Config, base: map<string, int>, st: State) {
    forall s :: s in cfg.scopes ==>
                  && s in base && base[s] > 0
                  && s in st.rows && st.rows[s].highest >= base[s]
                  && Solid(st, s, base[s], st.rows[s].highest)
  }

  ghost predicate Inv(cfg: Config, base: map<string, int>, st: State) {
    && CursorsOk(cfg, base, st)
    && forall p :: p in st.procs ==> ProcOk(cfg, base, st, st.procs[p])
  }

  // ----- What every action keeps

  /** Nothing looked at is forgotten, no job changes its range, and a job that stops being
      open leaves every scope's blocks passed. */
  ghost predicate Grows(cfg: Config, st: State, st': State) {
    && st.visited <= st'.visited
    && st.lost <= st'.lost
    && forall id :: id in st.jobs ==>
                      && id in st'.jobs && st'.jobs[id].from == st.jobs[id].from && st'.jobs[id].to == st.jobs[id].to
                      && (Open(st, id) ==>
                            || Open(st', id)
                            || forall s, b :: s in cfg.scopes && st.jobs[id].from <= b <= st.jobs[id].to ==> Passed(st', s, b))
  }

  /** Every process that replays a job goes on doing so. */
  ghost predicate HoldersStay(st: State, st': State) {
    forall q :: q in st.procs && st.procs[q].Replay? ==> q in st'.procs && st'.procs[q].Replay? && st'.procs[q].id == st.procs[q].id
  }

  /** Actions that at most add jobs and let every replay go on. */
  lemma HoldersKeepJobs(cfg: Config, st: State, st': State)
    requires st.visited <= st'.visited && st.lost <= st'.lost && HoldersStay(st, st')
    requires forall id :: id in st.jobs ==> id in st'.jobs && st'.jobs[id] == st.jobs[id]
    ensures Grows(cfg, st, st')
  {
    forall id | Open(st, id)
      ensures Open(st', id)
    {
      if !Q.Waiting(st.jobs[id]) {
        var p :| p in st.procs && st.procs[p].Replay? && st.procs[p].id == id;
        assert st'.procs[p].id == id;
      }
    }
  }

  lemma GrowsKeepsCovered(cfg: Config, st: State, st': State, scope: string, b: int)
    requires Grows(cfg, st, st') && scope in cfg.scopes && Covered(st, scope, b)
    ensures Covered(st', scope, b)
  {
    if Passed(st, scope, b) {
      GrowsKeepsPassed(st, st', scope, b);
    } else {
      var id :| Open(st, id) && st.jobs[id].from <= b <= st.jobs[id].to;
      if Open(st', id) {
        assert InOpenJob(st', b);
      }
    }
  }

  lemma GrowsKeepsSolid(cfg: Config, st: State, st': State, scope: string, lo: int, hi: int)
    requires Grows(cfg, st, st') && scope in cfg.scopes && Solid(st, scope, lo, hi)
    ensures Solid(st', scope, lo, hi)
  {
    forall b | lo < b <= hi
      ensures Covered(st', scope, b)
    {
      GrowsKeepsCovered(cfg, st, st', scope, b);
    }
  }

  lemma GrowsKeepsPassed(st: State, st': State, scope: string, b: int)
    requires st.visited <= st'.visited && st.lost <= st'.lost && Passed(st, scope, b)
    ensures Passed(st', scope, b)
  {
    if (scope, b) !in st.visited {
      var c :| Loss(c, scope, b) in st.lost;
      assert Loss(c, scope, b) in st'.lost;
    }
  }

  lemma GrowsKeepsProc(cfg: Config, base: map<string, int>, st: State, st': State, proc: Proc)
    requires Grows(cfg, st, st') && ProcOk(cfg, base, st, proc)
    ensures ProcOk(cfg, base, st', proc)
  {
    match proc
    case Scan(_, scope, latest, from, batchStart, _, pc) =>
      var top := match pc
        case Read(a) => a
        case Publish(batch) => batch.lo - 1
        case Save(c, d) => d
        case BatchDone => BatchEnd(proc)
        case _ => batchStart - 1;
      if !pc.Leave? {
        GrowsKeepsSolid(cfg, st, st', scope, base[scope], top);
      }
    case Reconcile(_, scope, safe, size, start, _) =>
      GrowsKeepsSolid(cfg, st, st', scope, base[scope], Min(start - 1, safe));
    case Replay(_, lo, _, tasks, failed) =>
      forall s, b | s in cfg.scopes && s !in failed && lo <= b < Reached(tasks[s])
        ensures Passed(st', s, b)
      {
        GrowsKeepsPassed(st, st', s, b);
      }
  }

  /** The rows after an action: each cursor stays, or rises to a value up to which its scope is solid. */
  ghost predicate CursorsRise(cfg: Config, base: map<string, int>, st: State, st': State) {
    forall s :: s in cfg.scopes ==>
                  && s in st.rows && s in st'.rows
                  && (|| st'.rows[s].highest == st.rows[s].highest
                      || (s in base && st'.rows[s].highest >= st.rows[s].highest && Solid(st', s, base[s], st'.rows[s].highest)))
  }

  /** An action that grows the records, raises cursors only over solid ground and leaves its own
      process in order keeps the invariant. */
  lemma FromAction(cfg: Config, base: map<string, int>, st: State, st': State, p: nat)
    requires Inv(cfg, base, st) && Grows(cfg, st, st') && CursorsRise(cfg, base, st, st')
    requires forall q :: q in st'.procs && q != p ==> q in st.procs && st'.procs[q] == st.procs[q]
    requires p in st'.procs ==> ProcOk(cfg, base, st', st'.procs[p])
    ensures Inv(cfg, base, st')
  {
    forall s | s in cfg.scopes
      ensures s in base && base[s] > 0 && s in st'.rows && st'.rows[s].highest >= base[s]
              && Solid(st', s, base[s], st'.rows[s].highest)
    {
      if st'.rows[s].highest == st.rows[s].highest {
        GrowsKeepsSolid(cfg, st, st', s, base[s], st.rows[s].highest);
      }
    }
    forall q | q in st'.procs && q != p
      ensures ProcOk(cfg, base, st', st'.procs[q])
    {
      GrowsKeepsProc(cfg, base, st, st', st.procs[q]);
    }
  }

  /** An action that only moves its own process along and touches leases. */
  lemma QuietAction(cfg: Config, base: map<string, int>, st: State, st': State, p: nat)
    requires Inv(cfg, base, st)
    requires st'.visited == st.visited && st'.lost == st.lost && st'.jobs == st.jobs
    requires forall s :: s in cfg.scopes ==> s in st.rows && s in st'.rows && st'.rows[s].highest == st.rows[s].highest
    requires forall q :: q in st'.procs && q != p ==> q in st.procs && st'.procs[q] == st.procs[q]
    requires p in st'.procs ==> ProcOk(cfg, base, st, st'.procs[p])
    requires HoldersStay(st, st')
    ensures Inv(cfg, base, st')
  {
    HoldersKeepJobs(cfg, st, st');
    if p in st'.procs {
      GrowsKeepsProc(cfg, base, st, st', st'.procs[p]);
    }
    FromAction(cfg, base, st, st', p);
  }

  /** A cursor write by a process whose scope is solid up to the value it writes. */
  lemma WriteAction(cfg: Config, base: map<string, int>, st: State, st': State, p: nat, scope: string, block: int, worker: string)
    requires Inv(cfg, base, st) && scope in cfg.scopes && scope in base && Solid(st, scope, base[scope], block)
    requires st'.visited == st.visited && st'.lost == st.lost && st'.jobs == st.jobs
    requires st'.rows == st.rows || st'.rows == L.SetBlock(st.rows, scope, block, worker, st.now)
    requires forall q :: q in st'.procs && q != p ==> q in st.procs && st'.procs[q] == st.procs[q]
    requires p in st'.procs ==> ProcOk(cfg, base, st, st'.procs[p])
    requires HoldersStay(st, st')
    ensures Inv(cfg, base, st')
  {
    HoldersKeepJobs(cfg, st, st');
    if p in st'.procs {
      GrowsKeepsProc(cfg, base, st, st', st'.procs[p]);
    }
    GrowsKeepsSolid(cfg, st, st', scope, base[scope], block);
    FromAction(cfg, base, st, st', p);
  }

  lemma ScanReadKeepsInv(cfg: Config, base: map<string, int>, st: State, p: nat, reply: Reply)
    requires Inv(cfg, base, st) && p in st.procs && st.procs[p].Scan? && st.procs[p].pc.Read?
    ensures Inv(cfg, base, ScanRead(cfg, st, p, st.procs[p], reply))
  {
    var proc, st' := st.procs[p], ScanRead(cfg, st, p, st.procs[p], reply);
    assert ProcOk(cfg, base, st, proc);
    assert L.HighestBlock(st.rows, proc.scope) > 0;
    assert ProcOk(cfg, base, st, st'.procs[p]);
    QuietAction(cfg, base, st, st', p);
  }

  lemma RenewKeepsInv(cfg: Config, base: map<string, int>, st: State, p: nat, proc: Proc, reply: Reply, next: ScanPc)
    requires Inv(cfg, base, st) && p in st.procs && st.procs[p].Scan?
    requires proc.Scan? && ProcOk(cfg, base, st, proc.(pc := next)) && ProcOk(cfg, base, st, proc.(pc := Leave))
    ensures Inv(cfg, base, Renewed(st, p, proc, reply, next))
  {
    QuietAction(cfg, base, st, Renewed(st, p, proc, reply, next), p);
  }

  lemma SaveKeepsInv(cfg: Config, base: map<string, int>, st: State, p: nat, reply: Reply, tip: int)
    requires Inv(cfg, base, st) && p in st.procs && st.procs[p].Scan? && st.procs[p].pc.Save?
    ensures Inv(cfg, base, ScanSave(cfg, st, p, st.procs[p], reply, tip))
  {
    var proc := st.procs[p];
    WriteAction(cfg, base, st, ScanSave(cfg, st, p, proc, reply, tip), p, proc.scope, proc.pc.cursor, proc.worker);
  }

  /** At the end of a batch every block of it is passed. */
  lemma SettledPasses(cfg: Config, st: State, scope: string, batch: Batch, b: int)
    requires batch.lo <= b <= batch.hi
    ensures Passed(Settled(cfg, st, scope, batch), scope, b)
  {
    var fate := Fate(cfg.world, scope, batch, b);
    if fate.None? {
      assert (scope, b) in Settled(cfg, st, scope, batch).visited;
    } else {
      assert Loss(fate.value, scope, b) in Settled(cfg, st, scope, batch).lost;
    }
  }

  /** An action of a scan or a replay that may record fates and enqueue, and has passed [lo, hi]. */
  lemma PassAction(cfg: Config, base: map<string, int>, st: State, st': State, p: nat, proc': Proc, lo: int, hi: int)
    requires Inv(cfg, base, st) && proc'.Scan? && proc'.pc.Save? && proc'.scope in cfg.scopes && proc'.scope in base
    requires st'.rows == st.rows && st'.jobs == st.jobs && st'.procs == st.procs[p := proc']
    requires st.visited <= st'.visited && st.lost <= st'.lost
    requires forall b :: lo <= b <= hi ==> Passed(st', proc'.scope, b)
    requires Solid(st, proc'.scope, base[proc'.scope], lo - 1)
    requires proc'.from < proc'.batchStart <= hi && proc'.pc.cursor <= proc'.pc.done == hi <= BatchEnd(proc')
    requires proc'.scope == TRX || hi == BatchEnd(proc')
    requires HoldersStay(st, st')
    ensures Inv(cfg, base, st')
  {
    HoldersKeepJobs(cfg, st, st');
    GrowsKeepsSolid(cfg, st, st', proc'.scope, base[proc'.scope], lo - 1);
    assert Solid(st', proc'.scope, base[proc'.scope], hi);
    FromAction(cfg, base, st, st', p);
  }

  lemma EnqueueEventKeepsInv(cfg: Config, base: map<string, int>, st: State, p: nat, reply: Reply)
    requires Inv(cfg, base, st) && p in st.procs && st.procs[p].Scan? && st.procs[p].pc.Publish? && st.procs[p].pc.batch.queue != []
    ensures Inv(cfg, base, ScanPublish(cfg, st, p, st.procs[p], reply))
  {
    assert ProcOk(cfg, base, st, st.procs[p]);
    QuietAction(cfg, base, st, ScanPublish(cfg, st, p, st.procs[p], reply), p);
  }

  lemma SettleKeepsInv(cfg: Config, base: map<string, int>, st: State, p: nat, reply: Reply)
    requires Inv(cfg, base, st) && p in st.procs && st.procs[p].Scan? && st.procs[p].pc.Publish? && st.procs[p].pc.batch.queue == []
    ensures Inv(cfg, base, ScanPublish(cfg, st, p, st.procs[p], reply))
  {
    var proc := st.procs[p];
    var batch := proc.pc.batch;
    var st' := ScanPublish(cfg, st, p, proc, reply);
    assert ProcOk(cfg, base, st, proc);
    forall b | batch.lo <= b <= batch.hi
      ensures Passed(st', proc.scope, b)
    {
      SettledPasses(cfg, st, proc.scope, batch, b);
      GrowsKeepsPassed(Settled(cfg, st, proc.scope, batch), st', proc.scope, b);
    }
    PassAction(cfg, base, st, st', p, st'.procs[p], batch.lo, batch.hi);
  }

  lemma LeaveKeepsInv(cfg: Config, base: map<string, int>, st: State, p: nat, input: Input)
    requires Inv(cfg, base, st) && p in st.procs && st.procs[p].Scan? && st.procs[p].pc.Leave?
    ensures Inv(cfg, base, ScanAct(cfg, st, p, st.procs[p], input))
  {
    assert ProcOk(cfg, base, st, st.procs[p]);
    QuietAction(cfg, base, st, ScanAct(cfg, st, p, st.procs[p], input), p);
  }

  lemma FetchKeepsInv(cfg: Config, base: map<string, int>, st: State, p: nat, input: Input)
    requires Inv(cfg, base, st) && p in st.procs && st.procs[p].Scan? && st.procs[p].pc.Fetch?
    ensures Inv(cfg, base, ScanAct(cfg, st, p, st.procs[p], input))
  {
    assert ProcOk(cfg, base, st, st.procs[p]);
    QuietAction(cfg, base, st, ScanAct(cfg, st, p, st.procs[p], input), p);
  }

  lemma EventsKeepsInv(cfg: Config, base: map<string, int>, st: State, p: nat, input: Input)
    requires Inv(cfg, base, st) && p in st.procs && st.procs[p].Scan? && st.procs[p].pc.Events?
    ensures Inv(cfg, base, ScanAct(cfg, st, p, st.procs[p], input))
  {
    assert ProcOk(cfg, base, st, st.procs[p]);
    QuietAction(cfg, base, st, ScanAct(cfg, st, p, st.procs[p], input), p);
  }

  lemma FetchedKeepsInv(cfg: Config, base: map<string, int>, st: State, p: nat, input: Input)
    requires Inv(cfg, base, st) && p in st.procs && st.procs[p].Scan? && st.procs[p].pc.Fetched?
    ensures Inv(cfg, base, ScanAct(cfg, st, p, st.procs[p], input))
  {
    var proc := st.procs[p];
    assert ProcOk(cfg, base, st, proc);
    RenewKeepsInv(cfg, base, st, p, proc, input.reply,
                  if proc.scope == TRX then PublishTrx(cfg, proc, proc.batchStart, input.tip)
                  else if proc.returned == {} then Leave else Events);
  }

  lemma MatchKeepsInv(cfg: Config, base: map<string, int>, st: State, p: nat, input: Input)
    requires Inv(cfg, base, st) && p in st.procs && st.procs[p].Scan? && st.procs[p].pc.EventsFetched?
    ensures Inv(cfg, base, ScanAct(cfg, st, p, st.procs[p], input))
  {
    var proc := st.procs[p];
    assert ProcOk(cfg, base, st, proc);
    RenewKeepsInv(cfg, base, st, p, proc, input.reply,
                  Publish(NewBatch(cfg, proc.scope, proc.batchStart, BatchEnd(proc), proc.returned, proc.pc.fetched, input.tip)));
  }

  lemma TopKeepsInv(cfg: Config, base: map<string, int>, st: State, p: nat, input: Input)
    requires Inv(cfg, base, st) && p in st.procs && st.procs[p].Scan? && st.procs[p].pc.Top?
    ensures Inv(cfg, base, ScanAct(cfg, st, p, st.procs[p], input))
  {
    var proc := st.procs[p];
    assert ProcOk(cfg, base, st, proc);
    if proc.batchStart <= proc.latest {
      RenewKeepsInv(cfg, base, st, p, proc, input.reply, Fetch);
    } else {
      QuietAction(cfg, base, st, Put(st, p, proc.(pc := Leave)), p);
    }
  }

  lemma BatchDoneKeepsInv(cfg: Config, base: map<string, int>, st: State, p: nat, input: Input)
    requires Inv(cfg, base, st) && p in st.procs && st.procs[p].Scan? && st.procs[p].pc.BatchDone?
    ensures Inv(cfg, base, ScanAct(cfg, st, p, st.procs[p], input))
  {
    var proc := st.procs[p];
    assert ProcOk(cfg, base, st, proc);
    RenewKeepsInv(cfg, base, st, p, proc.(batchStart := BatchEnd(proc) + 1), input.reply, Top);
  }

  lemma ScanActKeepsInv(cfg: Config, base: map<string, int>, st: State, p: nat, input: Input)
    requires Inv(cfg, base, st) && p in st.procs && st.procs[p].Scan?
    ensures Inv(cfg, base, ScanAct(cfg, st, p, st.procs[p], input))
  {
    assert ProcOk(cfg, base, st, st.procs[p]);
    match st.procs[p].pc
    case Read(_) => ScanReadKeepsInv(cfg, base, st, p, input.reply);
    case Save(_, _) => SaveKeepsInv(cfg, base, st, p, input.reply, input.tip);
    case Publish(batch) =>
      if batch.queue != [] {
        EnqueueEventKeepsInv(cfg, base, st, p, input.reply);
      } else {
        SettleKeepsInv(cfg, base, st, p, input.reply);
      }
    case Fetched => FetchedKeepsInv(cfg, base, st, p, input);
    case EventsFetched(_) => MatchKeepsInv(cfg, base, st, p, input);
    case Top => TopKeepsInv(cfg, base, st, p, input);
    case BatchDone => BatchDoneKeepsInv(cfg, base, st, p, input);
    case Leave => LeaveKeepsInv(cfg, base, st, p, input);
    case Fetch => FetchKeepsInv(cfg, base, st, p, input);
    case Events => EventsKeepsInv(cfg, base, st, p, input);
    case ColdSave =>
  }

  lemma EnqueueKeepsInv(cfg: Config, base: map<string, int>, st: State, p: nat, reply: Reply, newId: Q.JobId)
    requires Inv(cfg, base, st) && p in st.procs && st.procs[p].Reconcile? && st.procs[p].rpc.Enqueue?
    ensures Inv(cfg, base, ReconcileAct(cfg, st, p, st.procs[p], reply, newId))
  {
    var proc := st.procs[p];
    var st' := ReconcileAct(cfg, st, p, proc, reply, newId);
    var hi := Min(proc.start + proc.size - 1, proc.safe);
    HoldersKeepJobs(cfg, st, st');
    GrowsKeepsSolid(cfg, st, st', proc.scope, base[proc.scope], proc.start - 1);
    forall b | proc.start <= b <= hi
      ensures Covered(st', proc.scope, b)
    {
      if !reply.Err? && newId !in st.jobs {
        assert Open(st', newId);
      } else {
        assert Loss(NotEnqueued, proc.scope, b) in st'.lost;
      }
    }
    assert Solid(st', proc.scope, base[proc.scope], hi);
    FromAction(cfg, base, st, st', p);
  }

  lemma ReconcileEndsKeepInv(cfg: Config, base: map<string, int>, st: State, p: nat, reply: Reply, newId: Q.JobId)
    requires Inv(cfg, base, st) && p in st.procs && st.procs[p].Reconcile? && (st.procs[p].rpc.Claim? || st.procs[p].rpc.LeaveScope?)
    ensures Inv(cfg, base, ReconcileAct(cfg, st, p, st.procs[p], reply, newId))
  {
    assert ProcOk(cfg, base, st, st.procs[p]);
    QuietAction(cfg, base, st, ReconcileAct(cfg, st, p, st.procs[p], reply, newId), p);
  }

  lemma NextRangeKeepsInv(cfg: Config, base: map<string, int>, st: State, p: nat, reply: Reply, newId: Q.JobId)
    requires Inv(cfg, base, st) && p in st.procs && st.procs[p].Reconcile? && st.procs[p].rpc.NextRange?
    ensures Inv(cfg, base, ReconcileAct(cfg, st, p, st.procs[p], reply, newId))
  {
    assert ProcOk(cfg, base, st, st.procs[p]);
    QuietAction(cfg, base, st, ReconcileAct(cfg, st, p, st.procs[p], reply, newId), p);
  }

  lemma JumpKeepsInv(cfg: Config, base: map<string, int>, st: State, p: nat, reply: Reply, newId: Q.JobId)
    requires Inv(cfg, base, st) && p in st.procs && st.procs[p].Reconcile? && st.procs[p].rpc.Jump?
    ensures Inv(cfg, base, ReconcileAct(cfg, st, p, st.procs[p], reply, newId))
  {
    var proc := st.procs[p];
    assert ProcOk(cfg, base, st, proc);
    WriteAction(cfg, base, st, ReconcileAct(cfg, st, p, proc, reply, newId), p, proc.scope, proc.safe, proc.worker);
  }

  lemma ReconcileActKeepsInv(cfg: Config, base: map<string, int>, st: State, p: nat, reply: Reply, newId: Q.JobId)
    requires Inv(cfg, base, st) && p in st.procs && st.procs[p].Reconcile?
    ensures Inv(cfg, base, ReconcileAct(cfg, st, p, st.procs[p], reply, newId))
  {
    match st.procs[p].rpc
    case Enqueue => EnqueueKeepsInv(cfg, base, st, p, reply, newId);
    case Jump => JumpKeepsInv(cfg, base, st, p, reply, newId);
    case NextRange => NextRangeKeepsInv(cfg, base, st, p, reply, newId);
    case Claim => ReconcileEndsKeepInv(cfg, base, st, p, reply, newId);
    case LeaveScope => ReconcileEndsKeepInv(cfg, base, st, p, reply, newId);
  }

  /** A replay that moves on over blocks it has passed keeps the invariant. */
  lemma ReplayMovesOn(cfg: Config, base: map<string, int>, st: State, st': State, p: nat, proc: Proc, proc': Proc)
    requires Inv(cfg, base, st) && p in st.procs && st.procs[p] == proc && proc.Replay? && proc'.Replay?
    requires st'.rows == st.rows && st'.jobs == st.jobs && st'.procs == st.procs[p := proc']
    requires st.visited <= st'.visited && st.lost <= st'.lost
    requires proc'.id == proc.id && proc'.lo == proc.lo && proc'.hi == proc.hi
    requires proc'.tasks.Keys == cfg.scopes && proc'.failed <= cfg.scopes
    requires forall s, b :: s in cfg.scopes && s !in proc'.failed && proc.lo <= b < Reached(proc'.tasks[s]) ==> Passed(st', s, b)
    ensures Inv(cfg, base, st')
  {
    HoldersKeepJobs(cfg, st, st');
    FromAction(cfg, base, st, st', p);
  }

  lemma ReplayFetchKeepsInv(cfg: Config, base: map<string, int>, st: State, p: nat, scope: string, input: Input)
    requires Inv(cfg, base, st) && p in st.procs && st.procs[p].Replay?
    requires scope in st.procs[p].tasks && scope !in st.procs[p].failed && st.procs[p].tasks[scope].Due?
    ensures Inv(cfg, base, ReplayFetch(cfg, st, p, st.procs[p], scope, st.procs[p].tasks[scope].next, input))
  {
    var proc := st.procs[p];
    assert ProcOk(cfg, base, st, proc);
    var st' := ReplayFetch(cfg, st, p, proc, scope, proc.tasks[scope].next, input);
    if st' != st {
      var proc' := st'.procs[p];
      forall s, b | s in cfg.scopes && s !in proc'.failed && proc.lo <= b < Reached(proc'.tasks[s])
        ensures Passed(st', s, b)
      {
        if b < Reached(proc.tasks[s]) {
          GrowsKeepsPassed(st, st', s, b);
        } else {
          assert Loss(EmptyReplay, s, b) in st'.lost;
        }
      }
      ReplayMovesOn(cfg, base, st, st', p, proc, proc');
    }
  }

  lemma ReplayEventKeepsInv(cfg: Config, base: map<string, int>, st: State, p: nat, scope: string, batch: Batch, reply: Reply)
    requires Inv(cfg, base, st) && p in st.procs && st.procs[p].Replay?
    requires scope in st.procs[p].tasks && st.procs[p].tasks[scope] == Busy(batch) && batch.queue != []
    ensures Inv(cfg, base, ReplayPublish(cfg, st, p, st.procs[p], scope, batch, reply))
  {
    var proc := st.procs[p];
    assert ProcOk(cfg, base, st, proc);
    var st' := ReplayPublish(cfg, st, p, proc, scope, batch, reply);
    forall s, b | s in cfg.scopes && s !in proc.failed && proc.lo <= b < Reached(st'.procs[p].tasks[s])
      ensures Passed(st', s, b)
    {
      GrowsKeepsPassed(st, st', s, b);
    }
    ReplayMovesOn(cfg, base, st, st', p, proc, st'.procs[p]);
  }

  lemma ReplaySettleKeepsInv(cfg: Config, base: map<string, int>, st: State, p: nat, scope: string, batch: Batch, reply: Reply)
    requires Inv(cfg, base, st) && p in st.procs && st.procs[p].Replay?
    requires scope in st.procs[p].tasks && scope !in st.procs[p].failed && st.procs[p].tasks[scope] == Busy(batch) && batch.queue == []
    ensures Inv(cfg, base, ReplayPublish(cfg, st, p, st.procs[p], scope, batch, reply))
  {
    var proc := st.procs[p];
    assert ProcOk(cfg, base, st, proc);
    var st' := ReplayPublish(cfg, st, p, proc, scope, batch, reply);
    forall s, b | s in cfg.scopes && s !in proc.failed && proc.lo <= b < Reached(st'.procs[p].tasks[s])
      ensures Passed(st', s, b)
    {
      if b < Reached(proc.tasks[s]) {
        GrowsKeepsPassed(st, st', s, b);
      } else {
        SettledPasses(cfg, st, scope, batch, b);
        GrowsKeepsPassed(Settled(cfg, st, scope, batch), st', scope, b);
      }
    }
    ReplayMovesOn(cfg, base, st, st', p, proc, st'.procs[p]);
  }

  lemma ReplayTaskKeepsInv(cfg: Config, base: map<string, int>, st: State, p: nat, scope: string, input: Input)
    requires Inv(cfg, base, st) && p in st.procs && st.procs[p].Replay? && scope in st.procs[p].tasks && scope !in st.procs[p].failed
    ensures Inv(cfg, base, ReplayTask(cfg, st, p, st.procs[p], scope, input))
  {
    match st.procs[p].tasks[scope]
    case Due(_) => ReplayFetchKeepsInv(cfg, base, st, p, scope, input);
    case Busy(batch) =>
      if batch.queue != [] {
        ReplayEventKeepsInv(cfg, base, st, p, scope, batch, input.reply);
      } else {
        ReplaySettleKeepsInv(cfg, base, st, p, scope, batch, input.reply);
      }
  }

  /** An action after which job `id` is waiting, held, or of no more use because its range is passed; every
      other job and replay stays. */
  lemma OneJobMoves(cfg: Config, st: State, st': State, p: nat, id: Q.JobId)
    requires st.visited <= st'.visited && st.lost <= st'.lost
    requires forall other :: other in st.jobs ==>
                               && other in st'.jobs && st'.jobs[other].from == st.jobs[other].from && st'.jobs[other].to == st.jobs[other].to
                               && (other != id ==> st'.jobs[other] == st.jobs[other])
    requires forall q :: q in st.procs && st.procs[q].Replay? && q != p ==> q in st'.procs && st'.procs[q] == st.procs[q]
    requires p in st.procs && st.procs[p].Replay? ==> st.procs[p].id == id
    requires id in st.jobs ==>
               Open(st', id) || forall s, b :: s in cfg.scopes && st.jobs[id].from <= b <= st.jobs[id].to ==> Passed(st', s, b)
    ensures Grows(cfg, st, st')
  {
    forall other | Open(st, other) && other != id
      ensures Open(st', other)
    {
      if !Q.Waiting(st.jobs[other]) {
        var q :| q in st.procs && st.procs[q].Replay? && st.procs[q].id == other;
        assert st'.procs[q].id == other;
      }
    }
  }

  /** Recording what an abandoned job leaves behind passes its whole range. */
  lemma AbandonedPasses(cfg: Config, st: State, st': State, lo: int, hi: int, cause: Cause, s: string, b: int)
    requires s in cfg.scopes && lo <= b <= hi
    requires st.visited <= st'.visited && st.lost + Abandoned(cfg, st, lo, hi, cause) <= st'.lost
    ensures Passed(st', s, b)
  {
    if Passed(st, s, b) {
      GrowsKeepsPassed(st, st', s, b);
    } else {
      assert Loss(cause, s, b) in Abandoned(cfg, st, lo, hi, cause);
    }
  }

  /** A replay that ends without a mark leaves its job running for good; the blocks that nobody has passed are
      recorded as lost. */
  lemma GoneKeepsInv(cfg: Config, base: map<string, int>, st: State, p: nat)
    requires Inv(cfg, base, st) && p in st.procs && st.procs[p].Replay?
    ensures Inv(cfg, base, Gone(cfg, st, p, st.procs[p]))
  {
    var proc := st.procs[p];
    assert ProcOk(cfg, base, st, proc);
    var st' := Gone(cfg, st, p, proc);
    forall s, b | s in cfg.scopes && proc.lo <= b <= proc.hi
      ensures Passed(st', s, b)
    {
      AbandonedPasses(cfg, st, st', proc.lo, proc.hi, Orphaned, s, b);
    }
    OneJobMoves(cfg, st, st', p, proc.id);
    FromAction(cfg, base, st, st', p);
  }

  /** A job is completed only after every scope has passed its whole range; when it dies instead, the blocks
      that nobody has passed are recorded as lost. */
  lemma MarkKeepsInv(cfg: Config, base: map<string, int>, st: State, p: nat, reply: Reply)
    requires Inv(cfg, base, st) && p in st.procs && st.procs[p].Replay? && ReplayOver(cfg, st.procs[p]) && !reply.Err?
    ensures Inv(cfg, base, ReplayFinish(cfg, st, p, st.procs[p], reply))
  {
    var proc := st.procs[p];
    assert ProcOk(cfg, base, st, proc);
    var st' := ReplayFinish(cfg, st, p, proc, reply);
    if proc.failed == {} || st'.jobs[proc.id].status.Dead? {
      forall s, b | s in cfg.scopes && proc.lo <= b <= proc.hi
        ensures Passed(st', s, b)
      {
        if proc.failed == {} {
          GrowsKeepsPassed(st, st', s, b);
        } else {
          AbandonedPasses(cfg, st, st', proc.lo, proc.hi, DeadJob, s, b);
        }
      }
    }
    OneJobMoves(cfg, st, st', p, proc.id);
    FromAction(cfg, base, st, st', p);
  }

  lemma ReplayFinishKeepsInv(cfg: Config, base: map<string, int>, st: State, p: nat, reply: Reply)
    requires Inv(cfg, base, st) && p in st.procs && st.procs[p].Replay?
    ensures Inv(cfg, base, ReplayFinish(cfg, st, p, st.procs[p], reply))
  {
    assert ProcOk(cfg, base, st, st.procs[p]);
    if ReplayOver(cfg, st.procs[p]) {
      if reply.Err? {
        GoneKeepsInv(cfg, base, st, p);
      } else {
        MarkKeepsInv(cfg, base, st, p, reply);
      }
    }
  }

  lemma StartScanKeepsInv(cfg: Config, base: map<string, int>, st: State, p: nat, worker: string, scope: string, latest: int, reply: Reply)
    requires Inv(cfg, base, st)
    ensures Inv(cfg, base, Apply(cfg, st, StartScan(p, worker, scope, latest, reply)))
  {
    var st' := Apply(cfg, st, StartScan(p, worker, scope, latest, reply));
    if st' != st {
      QuietAction(cfg, base, st, st', p);
    }
  }

  lemma StartReconcileKeepsInv(cfg: Config, base: map<string, int>, st: State, p: nat, worker: string, scope: string, safe: int, size: int)
    requires Inv(cfg, base, st)
    ensures Inv(cfg, base, Apply(cfg, st, StartReconcile(p, worker, scope, safe, size)))
  {
    var st' := Apply(cfg, st, StartReconcile(p, worker, scope, safe, size));
    if st' != st {
      QuietAction(cfg, base, st, st', p);
    }
  }

  lemma StartReplayKeepsInv(cfg: Config, base: map<string, int>, st: State, p: nat, id: Q.JobId, reply: Reply)
    requires Inv(cfg, base, st)
    ensures Inv(cfg, base, Apply(cfg, st, StartReplay(p, id, reply)))
  {
    var st' := Apply(cfg, st, StartReplay(p, id, reply));
    if st' != st {
      if reply.Ok? {
        assert st'.procs[p].id == id;
        assert Open(st', id);
      } else {
        forall s, b | s in cfg.scopes && st.jobs[id].from <= b <= st.jobs[id].to
          ensures Passed(st', s, b)
        {
          AbandonedPasses(cfg, st, st', st.jobs[id].from, st.jobs[id].to, Orphaned, s, b);
        }
      }
      OneJobMoves(cfg, st, st', p, id);
      FromAction(cfg, base, st, st', p);
    }
  }

  lemma AdminJobKeepsInv(cfg: Config, base: map<string, int>, st: State, id: Q.JobId, lo: int, hi: int)
    requires Inv(cfg, base, st)
    ensures Inv(cfg, base, Apply(cfg, st, AdminJob(id, lo, hi)))
  {
    var st' := Apply(cfg, st, AdminJob(id, lo, hi));
    if st' != st {
      HoldersKeepJobs(cfg, st, st');
      if 0 in st.procs {
        GrowsKeepsProc(cfg, base, st, st', st.procs[0]);
      }
      FromAction(cfg, base, st, st', 0);
    }
  }

  lemma StepKeepsInv(cfg: Config, base: map<string, int>, st: State, step: Step)
    requires Inv(cfg, base, st)
    ensures Inv(cfg, base, Apply(cfg, st, step))
  {
    match step
    case Tick(_) => QuietAction(cfg, base, st, Apply(cfg, st, step), 0);
    case Crash(p) =>
      if p in st.procs && st.procs[p].Replay? {
        GoneKeepsInv(cfg, base, st, p);
      } else {
        QuietAction(cfg, base, st, Apply(cfg, st, step), p);
      }
    case StartScan(p, worker, scope, latest, reply) => StartScanKeepsInv(cfg, base, st, p, worker, scope, latest, reply);
    case StartReconcile(p, worker, scope, safe, size) => StartReconcileKeepsInv(cfg, base, st, p, worker, scope, safe, size);
    case StartReplay(p, id, reply) => StartReplayKeepsInv(cfg, base, st, p, id, reply);
    case AdminJob(id, lo, hi) => AdminJobKeepsInv(cfg, base, st, id, lo, hi);
    case Act(p, input) =>
      if p in st.procs && st.procs[p].Scan? {
        ScanActKeepsInv(cfg, base, st, p, input);
      } else if p in st.procs && st.procs[p].Reconcile? {
        ReconcileActKeepsInv(cfg, base, st, p, input.reply, input.newId);
      }
    case ReplayAct(p, scope, input) =>
      if p in st.procs && st.procs[p].Replay? && scope in st.procs[p].tasks && scope !in st.procs[p].failed {
        ReplayTaskKeepsInv(cfg, base, st, p, scope, input);
      }
    case ReplayEnd(p, reply) =>
      if p in st.procs && st.procs[p].Replay? {
        ReplayFinishKeepsInv(cfg, base, st, p, reply);
      }
  }

  lemma {:induction false} RunKeepsInv(cfg: Config, base: map<string, int>, st: State, steps: seq<Step>)
    requires Inv(cfg, base, st)
    ensures Inv(cfg, base, Run(cfg, st, steps))
    decreases |steps|
  {
    if steps == [] {
    } else {
      StepKeepsInv(cfg, base, st, steps[0]);
      RunKeepsInv(cfg, base, Apply(cfg, st, steps[0]), steps[1..]);
    }
  }

  /** A state in which every scope has a cursor, no process runs and nothing was recorded yet.
      Queued jobs, outbox rows and leases of dead processes may be left over. */
  ghost predicate Start(cfg: Config, st: State) {
    && st.procs == map[] && st.visited == {} && st.begun == {} && st.lost == {}
    && forall s :: s in cfg.scopes ==> s in st.rows && st.rows[s].highest > 0
  }

  /** No gap: in every run, under every interleaving of scans, takeovers, crashes, rescans,
      reconciles and replays, each block that a scope's cursor has passed since the start was published in
      full by a scan or replay of that scope, or waits in a job that will be handed out or that a process is
      replaying, or was passed over for a recorded cause. */
  lemma NoGap(cfg: Config, st: State, steps: seq<Step>, scope: string, b: int)
    requires Start(cfg, st) && scope in cfg.scopes
    requires var end := Run(cfg, st, steps);
             scope in end.rows && st.rows[scope].highest < b <= end.rows[scope].highest
    ensures var end := Run(cfg, st, steps);
            (scope, b) in end.visited || InOpenJob(end, b) || exists c :: Loss(c, scope, b) in end.lost
  {
    var base := map s | s in cfg.scopes :: st.rows[s].highest;
    RunKeepsInv(cfg, base, st, steps);
    assert Covered(Run(cfg, st, steps), scope, b);
  }

  /** For each block by itself: with no cause recorded against it, it was published in full or is queued. */
  lemma NoGapWithoutLoss(cfg: Config, st: State, steps: seq<Step>, scope: string, b: int)
    requires Start(cfg, st) && scope in cfg.scopes
    requires var end := Run(cfg, st, steps);
             && scope in end.rows && st.rows[scope].highest < b <= end.rows[scope].highest
             && forall c :: Loss(c, scope, b) !in end.lost
    ensures var end := Run(cfg, st, steps); (scope, b) in end.visited || InOpenJob(end, b)
  {
    NoGap(cfg, st, steps, scope, b);
  }
}
