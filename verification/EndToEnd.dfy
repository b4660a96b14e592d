/** From the interleaved protocol to the outbox. In every state of every run the outbox holds its old
    rows, everything that the visited blocks call for, and nothing but what the blocks begun call for. */
module EndToEnd {
  import opened Base
  import opened TransferKeys
  import opened Plans
  import O = Outbox
  import B = BatchWindow
  import P = ScanProtocol
  import Q = JobQueue
  import W = ScanLoops

  // ----- A batch under way

  /** The event was cut off, or is still to come under its batch key, or has its keys in the outbox. */
  ghost predicate Accounted(w: O.World, scope: string, batch: P.Batch, keys: set<string>, e: RawEvent) {
    || TransferEventKey(e) in batch.cut
    || TransferEventKey(e) in B.KeySet(TransferEventKey, batch.queue)
    || O.KeysOf(scope, e, w.endpoints) <= keys
  }

  ghost predicate BlockAccounted(w: O.World, scope: string, batch: P.Batch, keys: set<string>, b: int) {
    forall i :: 0 <= i < |O.BlockEvents(w, scope, b, 0)| ==> Accounted(w, scope, batch, keys, O.BlockEvents(w, scope, b, 0)[i])
  }

  ghost predicate BatchOk(w: O.World, scope: string, batch: P.Batch, keys: set<string>) {
    && AllReal(w, scope, batch.queue, batch.lo, batch.hi)
    && forall b :: batch.lo <= b <= batch.hi && Whole(w, scope, batch, b) ==> BlockAccounted(w, scope, batch, keys, b)
  }

  lemma NewBatchOk(cfg: P.Config, scope: string, lo: int, hi: int, returned: set<int>, fetched: seq<B.ChainEvent>, tip: int, keys: set<string>)
    requires O.PlainWorld(cfg.world) && AllOnChain(cfg.world, scope, fetched)
    ensures BatchOk(cfg.world, scope, P.NewBatch(cfg, scope, lo, hi, returned, fetched, tip), keys)
  {
    var batch := P.NewBatch(cfg, scope, lo, hi, returned, fetched, tip);
    PlanIsReal(cfg, scope, lo, hi, returned, fetched, tip);
    forall b | lo <= b <= hi && Whole(cfg.world, scope, batch, b)
      ensures BlockAccounted(cfg.world, scope, batch, keys, b)
    {
      PlanHoldsWhole(cfg, scope, lo, hi, returned, fetched, tip, b);
    }
  }

  lemma MoreKeys(w: O.World, scope: string, batch: P.Batch, keys: set<string>, keys': set<string>)
    requires BatchOk(w, scope, batch, keys) && keys <= keys'
    ensures BatchOk(w, scope, batch, keys')
  {
    forall b | batch.lo <= b <= batch.hi && Whole(w, scope, batch, b)
      ensures BlockAccounted(w, scope, batch, keys', b)
    {
      assert BlockAccounted(w, scope, batch, keys, b);
    }
  }

  lemma {:induction false} KeySetSplit(key: RawEvent -> string, queue: seq<RawEvent>, block: int)
    ensures B.KeySet(key, queue) == B.KeySet(key, P.OtherBlocks(queue, block)) + B.KeySet(key, B.OfBlock(queue, block))
  {
    if queue == [] {
    } else {
      KeySetSplit(key, queue[1..], block);
      var rest := P.OtherBlocks(queue[1..], block);
      assert ([queue[0]] + rest)[1..] == rest && [] + rest == rest;
      var own := B.OfBlock(queue[1..], block);
      assert ([queue[0]] + own)[1..] == own && [] + own == own;
    }
  }

  lemma {:induction false} OthersAreReal(w: O.World, scope: string, queue: seq<RawEvent>, block: int, lo: int, hi: int)
    requires AllReal(w, scope, queue, lo, hi)
    ensures AllReal(w, scope, P.OtherBlocks(queue, block), lo, hi)
  {
    if queue == [] {
    } else {
      OthersAreReal(w, scope, queue[1..], block, lo, hi);
    }
  }

  /** Events that share their batch key share their outbox keys. */
  lemma SharedKeys(w: O.World, scope: string, a: RawEvent, b: RawEvent)
    requires O.PlainWorld(w) && Plain(scope) && Real(w, scope, a) && Real(w, scope, b) && TransferEventKey(a) == TransferEventKey(b)
    ensures O.KeysOf(scope, a, w.endpoints) == O.KeysOf(scope, b, w.endpoints)
  {
    O.SameBatchKeySameKeys(scope, a, b, w.endpoints);
  }

  /** One transaction: the head of the queue is enqueued, or the rest of its block is cut off. */
  lemma EventStaysAccounted(w: O.World, scope: string, batch: P.Batch, reply: Reply, keys: set<string>, keys': set<string>, e: RawEvent)
    requires O.PlainWorld(w) && Plain(scope) && AllReal(w, scope, batch.queue, batch.lo, batch.hi) && batch.queue != []
    requires Real(w, scope, e) && Accounted(w, scope, batch, keys, e) && keys <= keys'
    requires reply.Ok? ==> O.KeysOf(scope, batch.queue[0], w.endpoints) <= keys'
    ensures Accounted(w, scope, P.Remaining(batch, reply), keys', e)
  {
    var head, k := batch.queue[0], TransferEventKey(e);
    KeySetSplit(TransferEventKey, batch.queue, head.block);
    if k == TransferEventKey(head) && reply.Ok? {
      SharedKeys(w, scope, e, head);
    }
  }

  lemma RemainingOk(w: O.World, scope: string, batch: P.Batch, reply: Reply, keys: set<string>, keys': set<string>)
    requires O.PlainWorld(w) && Plain(scope) && BatchOk(w, scope, batch, keys) && batch.queue != [] && keys <= keys'
    requires reply.Ok? ==> O.KeysOf(scope, batch.queue[0], w.endpoints) <= keys'
    ensures BatchOk(w, scope, P.Remaining(batch, reply), keys')
  {
    var after := P.Remaining(batch, reply);
    OthersAreReal(w, scope, batch.queue, batch.queue[0].block, batch.lo, batch.hi);
    forall b | batch.lo <= b <= batch.hi && Whole(w, scope, after, b)
      ensures BlockAccounted(w, scope, after, keys', b)
    {
      assert Whole(w, scope, batch, b) && BlockAccounted(w, scope, batch, keys, b);
      var evs := O.BlockEvents(w, scope, b, 0);
      forall i | 0 <= i < |evs|
        ensures Accounted(w, scope, after, keys', evs[i])
      {
        BlockEventIsReal(w, scope, b, 0, evs[i]);
        EventStaysAccounted(w, scope, batch, reply, keys, keys', evs[i]);
      }
    }
  }

  lemma SettledEvent(w: O.World, scope: string, batch: P.Batch, keys: set<string>, b: int, i: nat)
    requires batch.queue == [] && BlockAccounted(w, scope, batch, keys, b) && !P.CutShort(w, scope, batch.cut, b)
    requires i < |O.BlockEvents(w, scope, b, 0)|
    ensures O.KeysOf(scope, O.BlockEvents(w, scope, b, 0)[i], w.endpoints) <= keys
  {
    var e := O.BlockEvents(w, scope, b, 0)[i];
    assert Accounted(w, scope, batch, keys, e);
    assert TransferEventKey(e) !in batch.cut;
  }

  /** When nothing is left to enqueue, a block without a cause against it has all its keys. */
  lemma SettledHasKeys(w: O.World, scope: string, batch: P.Batch, keys: set<string>, b: int)
    requires BatchOk(w, scope, batch, keys) && batch.queue == [] && batch.lo <= b <= batch.hi && P.Fate(w, scope, batch, b).None?
    ensures O.BlockKeys(w, scope, b) <= keys
  {
    assert Whole(w, scope, batch, b) && BlockAccounted(w, scope, batch, keys, b) && !P.CutShort(w, scope, batch.cut, b);
    var evs := O.BlockEvents(w, scope, b, 0);
    forall k | k in O.EventKeys(scope, evs, w.endpoints)
      ensures k in keys
    {
      O.EventKeysMembers(scope, evs, w.endpoints, k);
      var e :| e in evs && k in O.KeysOf(scope, e, w.endpoints);
      var i :| 0 <= i < |evs| && evs[i] == e;
      SettledEvent(w, scope, batch, keys, b, i);
    }
  }

  // ----- The invariant

  /** The process is publishing the batch. */
  predicate Publishing(proc: P.Proc, scope: string, batch: P.Batch) {
    || (proc.Scan? && proc.scope == scope && proc.pc == P.Publish(batch))
    || (proc.Replay? && scope in proc.tasks && proc.tasks[scope] == P.Busy(batch))
  }

  ghost predicate ProcOk(cfg: P.Config, proc: P.Proc, keys: set<string>) {
    && (proc.Scan? ==> proc.scope in cfg.scopes)
    && (proc.Replay? ==> proc.tasks.Keys <= cfg.scopes)
    && (proc.Scan? && proc.pc.EventsFetched? ==> AllOnChain(cfg.world, proc.scope, proc.pc.fetched))
    && forall s, batch :: Publishing(proc, s, batch) ==> BatchOk(cfg.world, s, batch, keys)
  }

  /** Some block begun calls for the key. */
  ghost predicate Called(w: O.World, begun: set<(string, int)>, k: string) {
    exists s, b :: (s, b) in begun && k in O.BlockKeys(w, s, b)
  }

  ghost predicate RowsInv(cfg: P.Config, before: O.Rows, st: P.State) {
    && (forall k :: k in before ==> k in st.outbox && st.outbox[k] == before[k])
    && (forall s, b :: (s, b) in st.visited ==> O.BlockKeys(cfg.world, s, b) <= st.outbox.Keys)
    && (forall k :: k in st.outbox && k !in before ==> Called(cfg.world, st.begun, k))
    && (forall p :: p in st.procs ==> ProcOk(cfg, st.procs[p], st.outbox.Keys))
  }

  /** What a run is about: a plain chain, scopes without separators. */
  ghost predicate Setting(cfg: P.Config) {
    O.PlainWorld(cfg.world) && forall s :: s in cfg.scopes ==> Plain(s)
  }

  lemma ProcKeeps(cfg: P.Config, proc: P.Proc, keys: set<string>, keys': set<string>)
    requires ProcOk(cfg, proc, keys) && keys <= keys'
    ensures ProcOk(cfg, proc, keys')
  {
    forall s, batch | Publishing(proc, s, batch)
      ensures BatchOk(cfg.world, s, batch, keys')
    {
      MoreKeys(cfg.world, s, batch, keys, keys');
    }
  }

  /** An action that leaves outbox and records alone. */
  lemma QuietRows(cfg: P.Config, before: O.Rows, st: P.State, st': P.State, p: nat)
    requires RowsInv(cfg, before, st)
    requires st'.outbox == st.outbox && st'.visited == st.visited && st'.begun == st.begun
    requires forall q :: q in st'.procs && q != p ==> q in st.procs && st'.procs[q] == st.procs[q]
    requires p in st'.procs ==> ProcOk(cfg, st'.procs[p], st.outbox.Keys)
    ensures RowsInv(cfg, before, st')
  {
  }

  /** An action that enqueues an event. */
  lemma EnqueuedRows(cfg: P.Config, before: O.Rows, st: P.State, st': P.State, p: nat, scope: string, block: int, added: set<string>)
    requires RowsInv(cfg, before, st)
    requires O.Adds(st.outbox, st'.outbox, added) && added <= O.BlockKeys(cfg.world, scope, block)
    requires st'.visited == st.visited && st.begun <= st'.begun && (added == {} || (scope, block) in st'.begun)
    requires forall q :: q in st'.procs && q != p ==> q in st.procs && st'.procs[q] == st.procs[q]
    requires p in st'.procs ==> ProcOk(cfg, st'.procs[p], st'.outbox.Keys)
    ensures RowsInv(cfg, before, st')
  {
    forall q | q in st'.procs && q != p
      ensures ProcOk(cfg, st'.procs[q], st'.outbox.Keys)
    {
      ProcKeeps(cfg, st.procs[q], st.outbox.Keys, st'.outbox.Keys);
    }
    forall k | k in st'.outbox && k !in before
      ensures Called(cfg.world, st'.begun, k)
    {
      if k in st.outbox {
        assert Called(cfg.world, st.begun, k);
        var s, b :| (s, b) in st.begun && k in O.BlockKeys(cfg.world, s, b);
        assert (s, b) in st'.begun;
      } else {
        assert k in added && (scope, block) in st'.begun;
      }
    }
  }

  // ----- A batch on its own

  /** The action of `p` whose transaction succeeds, `n` times. */
  function Succeeding(p: nat, n: nat): seq<P.Step> {
    if n == 0 then [] else [P.Act(p, P.Input(Ok, {}, [], 0, 0))] + Succeeding(p, n - 1)
  }

  /** A scan that publishes its batch without errors and interruptions changes the outbox as publishing the
      planned events in order does. */
  lemma {:induction false} PublishedAlone(cfg: P.Config, st: P.State, p: nat)
    requires p in st.procs && st.procs[p].Scan? && st.procs[p].pc.Publish?
    ensures var proc, end := st.procs[p], P.Run(cfg, st, Succeeding(p, |st.procs[p].pc.batch.queue|));
            && end.outbox == O.Publish(st.outbox, proc.scope, proc.pc.batch.queue, cfg.world.endpoints)
            && p in end.procs && end.procs[p] == proc.(pc := P.Publish(proc.pc.batch.(queue := [])))
    decreases |st.procs[p].pc.batch.queue|
  {
    var proc := st.procs[p];
    var queue := proc.pc.batch.queue;
    if queue != [] {
      var step, rest := P.Act(p, P.Input(Ok, {}, [], 0, 0)), Succeeding(p, |queue| - 1);
      var next := P.Apply(cfg, st, step);
      assert next.procs[p] == proc.(pc := P.Publish(proc.pc.batch.(queue := queue[1..])));
      assert next.outbox == O.FanOut(st.outbox, proc.scope, queue[0], cfg.world.endpoints, {});
      PublishedAlone(cfg, next, p);
      assert ([step] + rest)[0] == step && ([step] + rest)[1..] == rest;
    }
  }

  // ----- What every action keeps

  lemma EnqueuedAdds(cfg: P.Config, st: P.State, scope: string, batch: P.Batch, reply: Reply)
    requires O.PlainWorld(cfg.world) && O.Current(st.outbox) && batch.queue != []
    ensures var st' := P.Enqueued(cfg, st, scope, batch, reply);
            && O.Current(st'.outbox)
            && O.Adds(st.outbox, st'.outbox, if reply.Err? then {} else O.KeysOf(scope, batch.queue[0], cfg.world.endpoints))
  {
    O.FanOutAddsKeys(st.outbox, scope, batch.queue[0], cfg.world.endpoints);
  }

  /** Enqueueing adds what the event calls for, whatever is enqueued next. */
  ghost predicate EnqueuesAdd(cfg: P.Config, st: P.State) {
    forall scope: string, batch: P.Batch, reply: Reply {:trigger P.Enqueued(cfg, st, scope, batch, reply)} ::
      batch.queue != [] ==>
        O.Adds(st.outbox, P.Enqueued(cfg, st, scope, batch, reply).outbox,
               if reply.Err? then {} else O.KeysOf(scope, batch.queue[0], cfg.world.endpoints))
  }

  lemma CurrentEnqueuesAdd(cfg: P.Config, st: P.State)
    requires O.PlainWorld(cfg.world) && O.Current(st.outbox)
    ensures EnqueuesAdd(cfg, st)
  {
    forall scope: string, batch: P.Batch, reply: Reply | batch.queue != []
      ensures O.Adds(st.outbox, P.Enqueued(cfg, st, scope, batch, reply).outbox,
                     if reply.Err? then {} else O.KeysOf(scope, batch.queue[0], cfg.world.endpoints))
    {
      EnqueuedAdds(cfg, st, scope, batch, reply);
    }
  }

  /** A scan or a replay enqueues one event of a batch and goes on as `proc'`. */
  lemma PublishOne(cfg: P.Config, before: O.Rows, st: P.State, p: nat, scope: string, batch: P.Batch, reply: Reply, proc': P.Proc)
    requires Setting(cfg) && RowsInv(cfg, before, st) && EnqueuesAdd(cfg, st) && scope in cfg.scopes
    requires p in st.procs && Publishing(st.procs[p], scope, batch) && batch.queue != []
    requires proc'.Scan? ==> proc'.scope in cfg.scopes && !proc'.pc.EventsFetched?
    requires proc'.Replay? ==> proc'.tasks.Keys <= cfg.scopes
    requires forall s, other :: Publishing(proc', s, other) ==>
                                  (s == scope && other == P.Remaining(batch, reply)) || Publishing(st.procs[p], s, other)
    ensures RowsInv(cfg, before, P.Put(P.Enqueued(cfg, st, scope, batch, reply), p, proc'))
  {
    var st' := P.Put(P.Enqueued(cfg, st, scope, batch, reply), p, proc');
    var e := batch.queue[0];
    var added := if reply.Err? then {} else O.KeysOf(scope, e, cfg.world.endpoints);
    assert O.Adds(st.outbox, st'.outbox, added);
    assert ProcOk(cfg, st.procs[p], st.outbox.Keys);
    assert BatchOk(cfg.world, scope, batch, st.outbox.Keys);
    assert Real(cfg.world, scope, e);
    RemainingOk(cfg.world, scope, batch, reply, st.outbox.Keys, st'.outbox.Keys);
    forall s, other | Publishing(proc', s, other)
      ensures BatchOk(cfg.world, s, other, st'.outbox.Keys)
    {
      if Publishing(st.procs[p], s, other) {
        MoreKeys(cfg.world, s, other, st.outbox.Keys, st'.outbox.Keys);
      }
    }
    EnqueuedRows(cfg, before, st, st', p, scope, e.block, added);
  }

  /** A scan or a replay ends a batch and goes on as `proc'`. */
  lemma SettleOne(cfg: P.Config, before: O.Rows, st: P.State, p: nat, scope: string, batch: P.Batch, proc': P.Proc)
    requires RowsInv(cfg, before, st) && p in st.procs && Publishing(st.procs[p], scope, batch) && batch.queue == []
    requires ProcOk(cfg, proc', st.outbox.Keys)
    ensures RowsInv(cfg, before, P.Put(P.Settled(cfg, st, scope, batch), p, proc'))
  {
    var st' := P.Put(P.Settled(cfg, st, scope, batch), p, proc');
    assert ProcOk(cfg, st.procs[p], st.outbox.Keys);
    forall s, b | (s, b) in st'.visited
      ensures O.BlockKeys(cfg.world, s, b) <= st'.outbox.Keys
    {
      if (s, b) !in st.visited {
        assert s == scope && P.Fate(cfg.world, scope, batch, b).None?;
        SettledHasKeys(cfg.world, scope, batch, st.outbox.Keys, b);
      }
    }
  }

  lemma ScanPublishRows(cfg: P.Config, before: O.Rows, st: P.State, p: nat, reply: Reply)
    requires EnqueuesAdd(cfg, st)
    requires Setting(cfg) && RowsInv(cfg, before, st) && p in st.procs && st.procs[p].Scan? && st.procs[p].pc.Publish?
    ensures RowsInv(cfg, before, P.ScanPublish(cfg, st, p, st.procs[p], reply))
  {
    var proc := st.procs[p];
    var batch := proc.pc.batch;
    assert ProcOk(cfg, proc, st.outbox.Keys) && Publishing(proc, proc.scope, batch);
    if batch.queue != [] {
      PublishOne(cfg, before, st, p, proc.scope, batch, reply, proc.(pc := P.Publish(P.Remaining(batch, reply))));
    } else {
      SettleOne(cfg, before, st, p, proc.scope, batch, P.ScanPublish(cfg, st, p, proc, reply).procs[p]);
    }
  }

  /** A scan that starts to publish. */
  lemma StartsPublishing(cfg: P.Config, proc: P.Proc, lo: int, hi: int, fetched: seq<B.ChainEvent>, tip: int, keys: set<string>)
    requires Setting(cfg) && proc.Scan? && proc.scope in cfg.scopes && AllOnChain(cfg.world, proc.scope, fetched)
    ensures ProcOk(cfg, proc.(pc := P.Publish(P.NewBatch(cfg, proc.scope, lo, hi, proc.returned, fetched, tip))), keys)
  {
    NewBatchOk(cfg, proc.scope, lo, hi, proc.returned, fetched, tip, keys);
  }

  /** Away from publishing a scan has nothing to account for. */
  predicate Idle(pc: P.ScanPc) {
    !pc.Publish? && !pc.EventsFetched?
  }

  lemma RenewedRows(cfg: P.Config, before: O.Rows, st: P.State, p: nat, proc: P.Proc, reply: Reply, next: P.ScanPc)
    requires RowsInv(cfg, before, st) && proc.Scan? && proc.scope in cfg.scopes && ProcOk(cfg, proc.(pc := next), st.outbox.Keys)
    ensures RowsInv(cfg, before, P.Renewed(st, p, proc, reply, next))
  {
    QuietRows(cfg, before, st, P.Renewed(st, p, proc, reply, next), p);
  }

  lemma ScanEventsRows(cfg: P.Config, before: O.Rows, st: P.State, p: nat, input: P.Input)
    requires RowsInv(cfg, before, st) && p in st.procs && st.procs[p].Scan? && st.procs[p].pc.Events?
    ensures RowsInv(cfg, before, P.ScanAct(cfg, st, p, st.procs[p], input))
  {
    var proc := st.procs[p];
    assert ProcOk(cfg, proc, st.outbox.Keys);
    AnswerIsOnChain(cfg, proc.scope, proc.returned, input.events);
    QuietRows(cfg, before, st, P.ScanAct(cfg, st, p, proc, input), p);
  }

  lemma ScanFetchedRows(cfg: P.Config, before: O.Rows, st: P.State, p: nat, input: P.Input)
    requires Setting(cfg) && RowsInv(cfg, before, st) && p in st.procs && st.procs[p].Scan? && st.procs[p].pc.Fetched?
    ensures RowsInv(cfg, before, P.ScanAct(cfg, st, p, st.procs[p], input))
  {
    var proc := st.procs[p];
    assert ProcOk(cfg, proc, st.outbox.Keys);
    if proc.scope == P.TRX {
      StartsPublishing(cfg, proc, proc.batchStart, proc.batchStart, [], input.tip, st.outbox.Keys);
      RenewedRows(cfg, before, st, p, proc, input.reply, P.PublishTrx(cfg, proc, proc.batchStart, input.tip));
    } else {
      RenewedRows(cfg, before, st, p, proc, input.reply, if proc.returned == {} then P.Leave else P.Events);
    }
  }

  lemma ScanMatchRows(cfg: P.Config, before: O.Rows, st: P.State, p: nat, input: P.Input)
    requires Setting(cfg) && RowsInv(cfg, before, st) && p in st.procs && st.procs[p].Scan? && st.procs[p].pc.EventsFetched?
    ensures RowsInv(cfg, before, P.ScanAct(cfg, st, p, st.procs[p], input))
  {
    var proc := st.procs[p];
    var fetched := proc.pc.fetched;
    assert ProcOk(cfg, proc, st.outbox.Keys);
    StartsPublishing(cfg, proc, proc.batchStart, P.BatchEnd(proc), fetched, input.tip, st.outbox.Keys);
    var next := P.Publish(P.NewBatch(cfg, proc.scope, proc.batchStart, P.BatchEnd(proc), proc.returned, fetched, input.tip));
    assert P.ScanAct(cfg, st, p, proc, input) == P.Renewed(st, p, proc, input.reply, next);
    RenewedRows(cfg, before, st, p, proc, input.reply, next);
  }

  lemma ScanSaveRows(cfg: P.Config, before: O.Rows, st: P.State, p: nat, reply: Reply, tip: int)
    requires Setting(cfg) && RowsInv(cfg, before, st) && p in st.procs && st.procs[p].Scan? && st.procs[p].pc.Save?
    ensures RowsInv(cfg, before, P.ScanSave(cfg, st, p, st.procs[p], reply, tip))
  {
    var proc := st.procs[p];
    assert ProcOk(cfg, proc, st.outbox.Keys);
    StartsPublishing(cfg, proc, proc.pc.done + 1, proc.pc.done + 1, [], tip, st.outbox.Keys);
    QuietRows(cfg, before, st, P.ScanSave(cfg, st, p, proc, reply, tip), p);
  }

  predicate Waiting(pc: P.ScanPc) {
    pc.Read? || pc.ColdSave? || pc.Top? || pc.Fetch? || pc.BatchDone? || pc.Leave?
  }

  /** Nothing is published or settled, and no other process is touched. */
  ghost predicate Quiet(st: P.State, st': P.State, p: nat) {
    && st'.outbox == st.outbox && st'.visited == st.visited && st.lost <= st'.lost && st'.begun == st.begun
    && forall q :: q != p ==> (q in st.procs <==> q in st'.procs) && (q in st.procs ==> st'.procs[q] == st.procs[q])
  }

  predicate OnlyIdle(st: P.State, p: nat, scope: string) {
    p in st.procs ==> st.procs[p].Scan? && st.procs[p].scope == scope && Idle(st.procs[p].pc)
  }

  lemma ReadIsQuiet(cfg: P.Config, st: P.State, p: nat, proc: P.Proc, input: P.Input)
    requires proc.Scan? && proc.pc.Read?
    ensures Quiet(st, P.ScanAct(cfg, st, p, proc, input), p) && OnlyIdle(P.ScanAct(cfg, st, p, proc, input), p, proc.scope)
  {
  }

  lemma LoopIsQuiet(cfg: P.Config, st: P.State, p: nat, proc: P.Proc, input: P.Input)
    requires proc.Scan? && (proc.pc.Read? || proc.pc.ColdSave? || proc.pc.Top?)
    ensures Quiet(st, P.ScanAct(cfg, st, p, proc, input), p) && OnlyIdle(P.ScanAct(cfg, st, p, proc, input), p, proc.scope)
  {
    if proc.pc.Read? {
      ReadIsQuiet(cfg, st, p, proc, input);
    }
  }

  lemma LeaveIsQuiet(cfg: P.Config, st: P.State, p: nat, proc: P.Proc, input: P.Input)
    requires proc.Scan? && (proc.pc.Leave? || proc.pc.BatchDone? || proc.pc.Fetch?)
    ensures Quiet(st, P.ScanAct(cfg, st, p, proc, input), p) && OnlyIdle(P.ScanAct(cfg, st, p, proc, input), p, proc.scope)
  {
  }

  lemma ScanIdleRows(cfg: P.Config, before: O.Rows, st: P.State, st': P.State, p: nat, input: P.Input)
    requires RowsInv(cfg, before, st) && p in st.procs && st.procs[p].Scan? && Waiting(st.procs[p].pc)
    requires st' == P.ScanAct(cfg, st, p, st.procs[p], input)
    ensures RowsInv(cfg, before, st')
  {
    var proc := st.procs[p];
    assert ProcOk(cfg, proc, st.outbox.Keys);
    if proc.pc.Leave? || proc.pc.BatchDone? || proc.pc.Fetch? {
      LeaveIsQuiet(cfg, st, p, proc, input);
    } else {
      LoopIsQuiet(cfg, st, p, proc, input);
    }
    QuietRows(cfg, before, st, st', p);
  }

  /** What fetching does to a replay: nothing, or one scope fails or moves on. */
  lemma FetchMoves(cfg: P.Config, st: P.State, p: nat, proc: P.Proc, scope: string, next: int, input: P.Input)
    requires proc.Replay?
    ensures var st', end := P.ReplayFetch(cfg, st, p, proc, scope, next, input), W.BatchEnd(next, proc.hi);
            || st' == st
            || (&& st'.outbox == st.outbox && st'.visited == st.visited && st.lost <= st'.lost && st'.begun == st.begun
                && (|| st'.procs == st.procs[p := proc.(failed := proc.failed + {scope})]
                    || st'.procs == st.procs[p := proc.(tasks := proc.tasks[scope := P.NextTask(cfg, scope, next, end, input)])]))
  {
  }

  lemma ReplayedBatchOk(cfg: P.Config, scope: string, lo: int, hi: int, input: P.Input, keys: set<string>)
    requires O.PlainWorld(cfg.world)
    ensures BatchOk(cfg.world, scope, P.ReplayedBatch(cfg, scope, lo, hi, input), keys)
  {
    var fetched := if scope == P.TRX then [] else P.Answer(cfg, scope, input.blocks, input.events);
    AnswerIsOnChain(cfg, scope, input.blocks, input.events);
    NewBatchOk(cfg, scope, lo, hi, input.blocks, fetched, input.tip, keys);
  }

  /** A replay that keeps its other batches. */
  lemma MovedReplay(cfg: P.Config, before: O.Rows, st: P.State, st': P.State, p: nat, scope: string, proc': P.Proc)
    requires RowsInv(cfg, before, st) && p in st.procs && st.procs[p].Replay? && scope in st.procs[p].tasks
    requires st'.outbox == st.outbox && st'.visited == st.visited && st'.begun == st.begun && st'.procs == st.procs[p := proc']
    requires proc'.Replay? && proc'.tasks.Keys == st.procs[p].tasks.Keys
    requires forall s :: s in proc'.tasks && s != scope ==> proc'.tasks[s] == st.procs[p].tasks[s]
    requires proc'.tasks[scope] == st.procs[p].tasks[scope] || proc'.tasks[scope].Due?
             || BatchOk(cfg.world, scope, proc'.tasks[scope].batch, st.outbox.Keys)
    ensures RowsInv(cfg, before, st')
  {
    var proc := st.procs[p];
    assert ProcOk(cfg, proc, st.outbox.Keys);
    forall s, batch | Publishing(proc', s, batch)
      ensures BatchOk(cfg.world, s, batch, st.outbox.Keys)
    {
      if s != scope || proc'.tasks[s] == proc.tasks[s] {
        assert Publishing(proc, s, batch);
      }
    }
    QuietRows(cfg, before, st, st', p);
  }

  lemma ReplayFetchRows(cfg: P.Config, before: O.Rows, st: P.State, st': P.State, p: nat, scope: string, next: int, input: P.Input)
    requires Setting(cfg) && RowsInv(cfg, before, st) && p in st.procs && st.procs[p].Replay? && scope in st.procs[p].tasks
    requires st' == P.ReplayFetch(cfg, st, p, st.procs[p], scope, next, input)
    ensures RowsInv(cfg, before, st')
  {
    var proc := st.procs[p];
    FetchMoves(cfg, st, p, proc, scope, next, input);
    ReplayedBatchOk(cfg, scope, next, W.BatchEnd(next, proc.hi), input, st.outbox.Keys);
    if st' != st {
      MovedReplay(cfg, before, st, st', p, scope, st'.procs[p]);
    }
  }

  lemma ReplayEventRows(cfg: P.Config, before: O.Rows, st: P.State, p: nat, scope: string, batch: P.Batch, reply: Reply)
    requires EnqueuesAdd(cfg, st)
    requires Setting(cfg) && RowsInv(cfg, before, st) && p in st.procs && st.procs[p].Replay? && batch.queue != []
    requires scope in st.procs[p].tasks && st.procs[p].tasks[scope] == P.Busy(batch)
    ensures RowsInv(cfg, before, P.ReplayPublish(cfg, st, p, st.procs[p], scope, batch, reply))
  {
    var proc := st.procs[p];
    assert ProcOk(cfg, proc, st.outbox.Keys) && Publishing(proc, scope, batch);
    PublishOne(cfg, before, st, p, scope, batch, reply, proc.(tasks := proc.tasks[scope := P.Busy(P.Remaining(batch, reply))]));
  }

  lemma ReplaySettleRows(cfg: P.Config, before: O.Rows, st: P.State, p: nat, scope: string, batch: P.Batch, reply: Reply)
    requires RowsInv(cfg, before, st) && p in st.procs && st.procs[p].Replay? && batch.queue == []
    requires scope in st.procs[p].tasks && st.procs[p].tasks[scope] == P.Busy(batch)
    ensures RowsInv(cfg, before, P.ReplayPublish(cfg, st, p, st.procs[p], scope, batch, reply))
  {
    var proc := st.procs[p];
    var proc' := proc.(tasks := proc.tasks[scope := P.Due(batch.hi + 1)]);
    assert ProcOk(cfg, proc, st.outbox.Keys) && Publishing(proc, scope, batch);
    forall s, other | Publishing(proc', s, other)
      ensures BatchOk(cfg.world, s, other, st.outbox.Keys)
    {
      assert Publishing(proc, s, other);
    }
    SettleOne(cfg, before, st, p, scope, batch, proc');
  }

  lemma ScanActRows(cfg: P.Config, before: O.Rows, st: P.State, p: nat, input: P.Input)
    requires EnqueuesAdd(cfg, st)
    requires Setting(cfg) && RowsInv(cfg, before, st) && p in st.procs && st.procs[p].Scan?
    ensures RowsInv(cfg, before, P.ScanAct(cfg, st, p, st.procs[p], input))
  {
    match st.procs[p].pc
    case Publish(_) => ScanPublishRows(cfg, before, st, p, input.reply);
    case Save(_, _) => ScanSaveRows(cfg, before, st, p, input.reply, input.tip);
    case Fetched => ScanFetchedRows(cfg, before, st, p, input);
    case Events => ScanEventsRows(cfg, before, st, p, input);
    case EventsFetched(_) => ScanMatchRows(cfg, before, st, p, input);
    case _ => ScanIdleRows(cfg, before, st, P.ScanAct(cfg, st, p, st.procs[p], input), p, input);
  }

  lemma ReconcileEndsQuiet(cfg: P.Config, st: P.State, p: nat, proc: P.Proc, reply: Reply, newId: nat)
    requires proc.Reconcile? && (proc.rpc.Claim? || proc.rpc.LeaveScope?)
    ensures var st' := P.ReconcileAct(cfg, st, p, proc, reply, newId);
            Quiet(st, st', p) && (p in st'.procs ==> st'.procs[p].Reconcile?)
  {
  }

  lemma EnqueueIsQuiet(cfg: P.Config, st: P.State, p: nat, proc: P.Proc, reply: Reply, newId: nat)
    requires proc.Reconcile? && proc.rpc.Enqueue?
    ensures var st' := P.ReconcileAct(cfg, st, p, proc, reply, newId);
            Quiet(st, st', p) && (p in st'.procs ==> st'.procs[p].Reconcile?)
  {
  }

  lemma ReconcileIsQuiet(cfg: P.Config, st: P.State, p: nat, proc: P.Proc, reply: Reply, newId: nat)
    requires proc.Reconcile?
    ensures var st' := P.ReconcileAct(cfg, st, p, proc, reply, newId);
            Quiet(st, st', p) && (p in st'.procs ==> st'.procs[p].Reconcile?)
  {
    if proc.rpc.Claim? || proc.rpc.LeaveScope? {
      ReconcileEndsQuiet(cfg, st, p, proc, reply, newId);
    } else if proc.rpc.Enqueue? {
      EnqueueIsQuiet(cfg, st, p, proc, reply, newId);
    }
  }

  lemma ReconcileRows(cfg: P.Config, before: O.Rows, st: P.State, st': P.State, p: nat)
    requires RowsInv(cfg, before, st) && Quiet(st, st', p) && (p in st'.procs ==> st'.procs[p].Reconcile?)
    ensures RowsInv(cfg, before, st')
  {
    QuietRows(cfg, before, st, st', p);
  }

  lemma ReplayTaskRows(cfg: P.Config, before: O.Rows, st: P.State, p: nat, scope: string, input: P.Input)
    requires EnqueuesAdd(cfg, st)
    requires Setting(cfg) && RowsInv(cfg, before, st) && p in st.procs && st.procs[p].Replay? && scope in st.procs[p].tasks
    ensures RowsInv(cfg, before, P.ReplayTask(cfg, st, p, st.procs[p], scope, input))
  {
    match st.procs[p].tasks[scope]
    case Due(next) => ReplayFetchRows(cfg, before, st, P.ReplayTask(cfg, st, p, st.procs[p], scope, input), p, scope, next, input);
    case Busy(batch) =>
      if batch.queue != [] {
        ReplayEventRows(cfg, before, st, p, scope, batch, input.reply);
      } else {
        ReplaySettleRows(cfg, before, st, p, scope, batch, input.reply);
      }
  }

  lemma StartRows(cfg: P.Config, before: O.Rows, st: P.State, step: P.Step)
    requires RowsInv(cfg, before, st) && (step.StartScan? || step.StartReconcile? || step.StartReplay?)
    ensures RowsInv(cfg, before, P.Apply(cfg, st, step))
  {
    StartIsQuiet(cfg, st, step);
    StartedRows(cfg, before, st, P.Apply(cfg, st, step), step.p);
  }

  /** The process is not publishing, and serves scopes of the run only. */
  predicate StartsFresh(cfg: P.Config, proc: P.Proc) {
    && (proc.Scan? ==> proc.scope in cfg.scopes && Idle(proc.pc))
    && (proc.Replay? ==> proc.tasks.Keys <= cfg.scopes && forall s :: s in proc.tasks ==> proc.tasks[s].Due?)
  }

  lemma StartIsQuiet(cfg: P.Config, st: P.State, step: P.Step)
    requires step.StartScan? || step.StartReconcile? || step.StartReplay?
    ensures var st' := P.Apply(cfg, st, step);
            && Quiet(st, st', step.p)
            && (st'.procs == st.procs || (step.p !in st.procs && step.p in st'.procs && StartsFresh(cfg, st'.procs[step.p])))
  {
  }

  lemma StartedRows(cfg: P.Config, before: O.Rows, st: P.State, st': P.State, p: nat)
    requires RowsInv(cfg, before, st) && Quiet(st, st', p)
    requires st'.procs == st.procs || (p !in st.procs && p in st'.procs && StartsFresh(cfg, st'.procs[p]))
    ensures RowsInv(cfg, before, st')
  {
    if p in st.procs {
      assert ProcOk(cfg, st.procs[p], st.outbox.Keys);
    }
    QuietRows(cfg, before, st, st', p);
  }

  lemma EndIsQuiet(cfg: P.Config, st: P.State, step: P.Step)
    requires step.Crash? || step.ReplayEnd?
    ensures var st' := P.Apply(cfg, st, step);
            Quiet(st, st', step.p) && (st' == st || step.p !in st'.procs)
  {
  }

  lemma EndRows(cfg: P.Config, before: O.Rows, st: P.State, st': P.State, p: nat)
    requires RowsInv(cfg, before, st) && Quiet(st, st', p) && (st' == st || p !in st'.procs)
    ensures RowsInv(cfg, before, st')
  {
    if st' != st {
      QuietRows(cfg, before, st, st', p);
    }
  }

  lemma ActRows(cfg: P.Config, before: O.Rows, st: P.State, p: nat, input: P.Input)
    requires EnqueuesAdd(cfg, st)
    requires Setting(cfg) && RowsInv(cfg, before, st)
    ensures RowsInv(cfg, before, P.Apply(cfg, st, P.Act(p, input)))
  {
    if p in st.procs && st.procs[p].Scan? {
      ScanActRows(cfg, before, st, p, input);
    } else if p in st.procs && st.procs[p].Reconcile? {
      ReconcileIsQuiet(cfg, st, p, st.procs[p], input.reply, input.newId);
      ReconcileRows(cfg, before, st, P.ReconcileAct(cfg, st, p, st.procs[p], input.reply, input.newId), p);
    }
  }

  lemma ReplayActRows(cfg: P.Config, before: O.Rows, st: P.State, p: nat, scope: string, input: P.Input)
    requires EnqueuesAdd(cfg, st)
    requires Setting(cfg) && RowsInv(cfg, before, st)
    ensures RowsInv(cfg, before, P.Apply(cfg, st, P.ReplayAct(p, scope, input)))
  {
    if p in st.procs && st.procs[p].Replay? && scope in st.procs[p].tasks && scope !in st.procs[p].failed {
      ReplayTaskRows(cfg, before, st, p, scope, input);
    }
  }

  /** Every action keeps: the visited blocks have their keys, every new key is called for by a block
      begun, and every event of a batch under way is accounted for. */
  lemma StepKeepsRows(cfg: P.Config, before: O.Rows, st: P.State, step: P.Step)
    requires EnqueuesAdd(cfg, st)
    requires Setting(cfg) && RowsInv(cfg, before, st)
    ensures RowsInv(cfg, before, P.Apply(cfg, st, step))
  {
    match step
    case Tick(_) =>
    case AdminJob(_, _, _) =>
    case Act(p, input) => ActRows(cfg, before, st, p, input);
    case ReplayAct(p, scope, input) => ReplayActRows(cfg, before, st, p, scope, input);
    case StartScan(_, _, _, _, _) => StartRows(cfg, before, st, step);
    case StartReconcile(_, _, _, _, _) => StartRows(cfg, before, st, step);
    case StartReplay(_, _, _) => StartRows(cfg, before, st, step);
    case Crash(p) =>
      EndIsQuiet(cfg, st, step);
      EndRows(cfg, before, st, P.Apply(cfg, st, step), p);
    case ReplayEnd(p, _) =>
      EndIsQuiet(cfg, st, step);
      EndRows(cfg, before, st, P.Apply(cfg, st, step), p);
  }

  /** The outbox changes by enqueueing the head of a queue, or not at all. */
  ghost predicate OnlyEnqueues(cfg: P.Config, st: P.State, outbox: O.Rows) {
    outbox == st.outbox
    || exists scope: string, batch: P.Batch, reply: Reply :: batch.queue != [] && outbox == P.Enqueued(cfg, st, scope, batch, reply).outbox
  }

  lemma ScanOnlyEnqueues(cfg: P.Config, st: P.State, p: nat, proc: P.Proc, input: P.Input)
    requires proc.Scan?
    ensures OnlyEnqueues(cfg, st, P.ScanAct(cfg, st, p, proc, input).outbox)
  {
    if proc.pc.Publish? && proc.pc.batch.queue != [] {
      assert P.ScanAct(cfg, st, p, proc, input).outbox == P.Enqueued(cfg, st, proc.scope, proc.pc.batch, input.reply).outbox;
    }
  }

  lemma ReplayOnlyEnqueues(cfg: P.Config, st: P.State, p: nat, proc: P.Proc, scope: string, input: P.Input)
    requires proc.Replay? && scope in proc.tasks
    ensures OnlyEnqueues(cfg, st, P.ReplayTask(cfg, st, p, proc, scope, input).outbox)
  {
    if proc.tasks[scope].Busy? && proc.tasks[scope].batch.queue != [] {
      assert P.ReplayTask(cfg, st, p, proc, scope, input).outbox == P.Enqueued(cfg, st, scope, proc.tasks[scope].batch, input.reply).outbox;
    }
  }

  lemma StepOnlyEnqueues(cfg: P.Config, st: P.State, step: P.Step)
    ensures OnlyEnqueues(cfg, st, P.Apply(cfg, st, step).outbox)
  {
    if step.Act? && step.p in st.procs && st.procs[step.p].Scan? {
      ScanOnlyEnqueues(cfg, st, step.p, st.procs[step.p], step.input);
    } else if step.ReplayAct? && step.p in st.procs && st.procs[step.p].Replay? && step.scope in st.procs[step.p].tasks {
      ReplayOnlyEnqueues(cfg, st, step.p, st.procs[step.p], step.scope, step.input);
    }
  }

  /** No action stores a row under anything but its own current key. */
  lemma StepKeepsCurrent(cfg: P.Config, st: P.State, outbox: O.Rows)
    requires O.PlainWorld(cfg.world) && O.Current(st.outbox) && OnlyEnqueues(cfg, st, outbox)
    ensures O.Current(outbox)
  {
    if outbox != st.outbox {
      var scope: string, batch: P.Batch, reply: Reply :| batch.queue != [] && outbox == P.Enqueued(cfg, st, scope, batch, reply).outbox;
      EnqueuedAdds(cfg, st, scope, batch, reply);
    }
  }

  lemma {:induction false} RunKeepsRows(cfg: P.Config, before: O.Rows, st: P.State, steps: seq<P.Step>)
    requires O.Current(st.outbox)
    requires Setting(cfg) && RowsInv(cfg, before, st)
    ensures RowsInv(cfg, before, P.Run(cfg, st, steps))
    decreases |steps|
  {
    if steps == [] {
    } else {
      CurrentEnqueuesAdd(cfg, st);
      StepKeepsRows(cfg, before, st, steps[0]);
      StepOnlyEnqueues(cfg, st, steps[0]);
      StepKeepsCurrent(cfg, st, P.Apply(cfg, st, steps[0]).outbox);
      RunKeepsRows(cfg, before, P.Apply(cfg, st, steps[0]), steps[1..]);
    }
  }

  /** In every state of every run, crashes between any two transactions included: the outbox holds its
      old rows untouched, every key that a visited block calls for, and no key but those that the blocks begun
      call for. */
  lemma OutboxBounds(cfg: P.Config, st: P.State, steps: seq<P.Step>)
    requires Setting(cfg) && P.Start(cfg, st) && O.Current(st.outbox)
    ensures var end := P.Run(cfg, st, steps);
            && (forall k :: k in st.outbox ==> k in end.outbox && end.outbox[k] == st.outbox[k])
            && st.outbox.Keys + O.Expected(cfg.world, end.visited) <= end.outbox.Keys
            && end.outbox.Keys <= st.outbox.Keys + O.Expected(cfg.world, end.begun)
            && (forall k :: k in end.outbox && k !in st.outbox ==> O.CalledFor(cfg.world, end.begun, k))
  {
    RunKeepsRows(cfg, st.outbox, st, steps);
    var end := P.Run(cfg, st, steps);
    forall k | k in O.Expected(cfg.world, end.visited)
      ensures k in end.outbox
    {
      var v :| v in end.visited && k in O.BlockKeys(cfg.world, v.0, v.1);
      assert v == (v.0, v.1);
    }
    forall k | k in end.outbox && k !in st.outbox
      ensures k in O.Expected(cfg.world, end.begun)
    {
      assert Called(cfg.world, end.begun, k);
      var s, b :| (s, b) in end.begun && k in O.BlockKeys(cfg.world, s, b);
      assert (s, b).0 == s && (s, b).1 == b;
    }
    forall k | k in end.outbox && k !in st.outbox
      ensures O.CalledFor(cfg.world, end.begun, k)
    {
      O.ExpectedIff(cfg.world, end.begun, k);
    }
  }

  /** Nothing watched is lost and nothing else is sent. In every run of the protocol over a fixed chain,
      watchlist and set of endpoints, whatever fails: the keys of every block that a cursor has passed are in the
      outbox, unless the block waits in a job that will be handed out or that a process is replaying, or was passed over for a recorded
      cause. */
  lemma WatchedTransfersReachOutbox(cfg: P.Config, st: P.State, steps: seq<P.Step>, scope: string, b: int)
    requires Setting(cfg) && P.Start(cfg, st) && O.Current(st.outbox) && scope in cfg.scopes
    requires var end := P.Run(cfg, st, steps);
             scope in end.rows && st.rows[scope].highest < b <= end.rows[scope].highest
    ensures var end := P.Run(cfg, st, steps);
            || O.BlockKeys(cfg.world, scope, b) <= end.outbox.Keys
            || P.InOpenJob(end, b)
            || exists c :: P.Loss(c, scope, b) in end.lost
  {
    P.NoGap(cfg, st, steps, scope, b);
    RunKeepsRows(cfg, st.outbox, st, steps);
  }

  /** The same for each watched role of each transfer of the block and each endpoint that takes its events. */
  lemma EachTransferReachesOutbox(cfg: P.Config, st: P.State, steps: seq<P.Step>, scope: string, b: int, i: nat, d: Direction, ep: O.Endpoint)
    requires Setting(cfg) && P.Start(cfg, st) && O.Current(st.outbox) && scope in cfg.scopes
    requires var end := P.Run(cfg, st, steps);
             scope in end.rows && st.rows[scope].highest < b <= end.rows[scope].highest
    requires (scope, b) in cfg.world.chain && i < |cfg.world.chain[(scope, b)]| && ep in cfg.world.endpoints
    requires O.CallsFor(cfg.world, scope, cfg.world.chain[(scope, b)][i], d, ep)
    ensures var end := P.Run(cfg, st, steps);
            || DedupeKey(scope, O.EventOf(scope, cfg.world.chain[(scope, b)][i], d, b, 0), ep.id) in end.outbox
            || P.InOpenJob(end, b)
            || exists c :: P.Loss(c, scope, b) in end.lost
  {
    WatchedTransfersReachOutbox(cfg, st, steps, scope, b);
    var j :| 0 <= j < |cfg.world.endpoints| && cfg.world.endpoints[j] == ep;
    O.BlockKeysIff(cfg.world, scope, b, DedupeKey(scope, O.EventOf(scope, cfg.world.chain[(scope, b)][i], d, b, 0), ep.id));
  }
}
