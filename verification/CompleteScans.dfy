/** Scans get done. Left alone and answered in full, a scan of the interleaved protocol ends where the loops of
    `ScanLoops` end, with every block from its origin to its target visited. */
module CompleteScans {
  import opened Base
  import opened ScanProtocol
  import opened TransferKeys
  import opened HarmlessRuns
  import L = CursorLease
  import W = ScanLoops
  import O = Outbox
  import B = BatchWindow
  import Pl = Plans

  /** What a node answers that leaves nothing out: all blocks asked for, and `all` events of the contract. */
  function InFull(proc: Proc, all: seq<B.ChainEvent>, tip: int): Input
    requires proc.Scan?
  {
    Input(Ok, Range(proc.batchStart, BatchEnd(proc)), all, 0, tip)
  }

  /** One action of the scan, answered in full. */
  function Answering(cfg: Config, p: nat, all: seq<B.ChainEvent>, tip: int): State -> State {
    (st: State) => if p in st.procs && st.procs[p].Scan? then Apply(cfg, st, Act(p, InFull(st.procs[p], all, tip))) else st
  }

  /** `n` such actions, and nothing else. */
  function Go(cfg: Config, st: State, p: nat, all: seq<B.ChainEvent>, tip: int, n: nat): State {
    Times(Answering(cfg, p, all, tip), st, n)
  }

  /** Going on is a run of actions of this process. */
  lemma {:induction false} GoIsRun(cfg: Config, st: State, p: nat, all: seq<B.ChainEvent>, tip: int, n: nat) returns (steps: seq<Step>)
    ensures Run(cfg, st, steps) == Go(cfg, st, p, all, tip, n)
    ensures forall i :: 0 <= i < |steps| ==> steps[i].Act? && steps[i].p == p && steps[i].input.reply.Ok?
    decreases n
  {
    if n == 0 {
      steps := [];
    } else if p !in st.procs || !st.procs[p].Scan? {
      steps := GoIsRun(cfg, st, p, all, tip, n - 1);
    } else {
      var step := Act(p, InFull(st.procs[p], all, tip));
      var rest := GoIsRun(cfg, Apply(cfg, st, step), p, all, tip, n - 1);
      steps := [step] + rest;
      assert steps[0] == step && steps[1..] == rest;
    }
  }

  lemma GoOn(cfg: Config, st: State, p: nat, all: seq<B.ChainEvent>, tip: int, n: nat, m: nat)
    ensures Go(cfg, st, p, all, tip, n + m) == Go(cfg, Go(cfg, st, p, all, tip, n), p, all, tip, m)
  {
    TimesAdd(Answering(cfg, p, all, tip), st, n, m);
  }

  /** The scan is there and holds its lease. */
  ghost predicate Underway(st: State, p: nat, proc: Proc) {
    && proc.Scan? && proc.worker != "" && p in st.procs && st.procs[p] == proc
    && L.Holds(st.rows, proc.scope, proc.worker)
  }

  /** What scanning leaves alone. */
  ghost predicate Undisturbed(st: State, st': State, p: nat, scope: string) {
    && st'.lost == st.lost && st'.jobs == st.jobs && st'.procs - {p} == st.procs - {p} && st.visited <= st'.visited
    && scope in st.rows && scope in st'.rows
    && forall s :: s != scope ==> (s in st'.rows <==> s in st.rows) && (s in st.rows ==> st'.rows[s] == st.rows[s])
  }

  /** One action that only moves the scan on. */
  ghost predicate Moves(st: State, st': State, p: nat, proc: Proc) {
    && proc.Scan? && Underway(st', p, proc) && Undisturbed(st, st', p, proc.scope)
    && st'.rows[proc.scope].highest == st.rows[proc.scope].highest
  }

  /** Nothing of the batch is missing. */
  ghost predicate Answered(cfg: Config, proc: Proc, all: seq<B.ChainEvent>)
    requires proc.Scan?
  {
    proc.scope != TRX ==> forall c :: OnChain(cfg.world, proc.scope, c) ==> c in all
  }

  // ----- From the loop test to the events to publish

  lemma TopMoves(cfg: Config, st: State, p: nat, proc: Proc, input: Input)
    requires Underway(st, p, proc) && proc.pc.Top? && proc.batchStart <= proc.latest && input.reply.Ok?
    ensures Moves(st, Apply(cfg, st, Act(p, input)), p, proc.(pc := Fetch))
  {
  }

  lemma FetchMoves(cfg: Config, st: State, p: nat, proc: Proc, input: Input)
    requires Underway(st, p, proc) && proc.pc.Fetch? && input.reply.Ok?
    ensures Moves(st, Apply(cfg, st, Act(p, input)), p, proc.(returned := input.blocks, pc := Fetched))
  {
  }

  lemma FetchedMoves(cfg: Config, st: State, p: nat, proc: Proc, input: Input)
    requires Underway(st, p, proc) && proc.pc.Fetched? && input.reply.Ok? && proc.returned != {}
    ensures Moves(st, Apply(cfg, st, Act(p, input)), p,
                  proc.(pc := if proc.scope == TRX then PublishTrx(cfg, proc, proc.batchStart, input.tip) else Events))
  {
  }

  lemma EventsMoves(cfg: Config, st: State, p: nat, proc: Proc, input: Input)
    requires Underway(st, p, proc) && proc.pc.Events? && input.reply.Ok?
    ensures Moves(st, Apply(cfg, st, Act(p, input)), p,
                  proc.(pc := EventsFetched(Answer(cfg, proc.scope, proc.returned, input.events))))
  {
  }

  lemma MatchMoves(cfg: Config, st: State, p: nat, proc: Proc, input: Input)
    requires Underway(st, p, proc) && proc.pc.EventsFetched? && input.reply.Ok?
    ensures Moves(st, Apply(cfg, st, Act(p, input)), p,
                  proc.(pc := Publish(NewBatch(cfg, proc.scope, proc.batchStart, BatchEnd(proc), proc.returned, proc.pc.fetched, input.tip))))
  {
  }

  lemma EnqueueMoves(cfg: Config, st: State, p: nat, proc: Proc, input: Input)
    requires Underway(st, p, proc) && proc.pc.Publish? && proc.pc.batch.queue != [] && input.reply.Ok?
    ensures Moves(st, Apply(cfg, st, Act(p, input)), p, proc.(pc := Publish(proc.pc.batch.(queue := proc.pc.batch.queue[1..]))))
  {
  }

  // ----- Publishing a batch, and saving

  /** The batch is settled with all of its blocks visited. */
  lemma SettleMoves(cfg: Config, st: State, p: nat, proc: Proc, input: Input)
    requires Underway(st, p, proc) && proc.pc.Publish? && proc.pc.batch.queue == [] && HarmlessRuns.Whole(cfg, proc.scope, proc.pc.batch)
    ensures var batch := proc.pc.batch;
            var st' := Apply(cfg, st, Act(p, input));
            && Moves(st, st', p, proc.(pc := Save(Reached(cfg, proc, batch), batch.hi)))
            && forall b :: batch.lo <= b <= batch.hi ==> (proc.scope, b) in st'.visited
  {
    var batch := proc.pc.batch;
    SettledWhole(cfg, st, proc.scope, batch);
    forall b | batch.lo <= b <= batch.hi
      ensures Fate(cfg.world, proc.scope, batch, b).None?
    {
      assert !CutShort(cfg.world, proc.scope, batch.cut, b);
    }
  }

  /** The cursor to save after a batch. */
  function Reached(cfg: Config, proc: Proc, batch: Batch): int
    requires proc.Scan?
  {
    if proc.scope == TRX then batch.hi else W.CursorAfterBatch(cfg.retain, proc.from, batch.lo, batch.hi)
  }

  /** All events of the queue are enqueued, one by one, and the batch is settled. */
  lemma {:induction false} Publishes(cfg: Config, st: State, p: nat, proc: Proc, all: seq<B.ChainEvent>, tip: int) returns (n: nat)
    requires Underway(st, p, proc) && proc.pc.Publish? && HarmlessRuns.Whole(cfg, proc.scope, proc.pc.batch)
    ensures var batch := proc.pc.batch;
            var st' := Go(cfg, st, p, all, tip, n);
            && Moves(st, st', p, proc.(pc := Save(Reached(cfg, proc, batch), batch.hi)))
            && forall b :: batch.lo <= b <= batch.hi ==> (proc.scope, b) in st'.visited
    decreases |proc.pc.batch.queue|
  {
    var batch, input := proc.pc.batch, InFull(proc, all, tip);
    var st' := Apply(cfg, st, Act(p, input));
    if batch.queue == [] {
      SettleMoves(cfg, st, p, proc, input);
      n := 1;
      assert Go(cfg, st, p, all, tip, 1) == Go(cfg, st', p, all, tip, 0) == st';
    } else {
      EnqueueMoves(cfg, st, p, proc, input);
      var left := batch.(queue := batch.queue[1..]);
      var m := Publishes(cfg, st', p, proc.(pc := Publish(left)), all, tip);
      n := m + 1;
      assert Go(cfg, st, p, all, tip, n) == Go(cfg, st', p, all, tip, m);
    }
  }

  /** A cursor write by the holder of the lease. */
  lemma SaveMoves(cfg: Config, st: State, p: nat, proc: Proc, input: Input)
    requires Underway(st, p, proc) && proc.pc.Save? && input.reply.Ok?
    ensures var st' := Apply(cfg, st, Act(p, input));
            && Undisturbed(st, st', p, proc.scope)
            && st'.rows[proc.scope].highest == Max(proc.pc.cursor, st.rows[proc.scope].highest)
            && Underway(st', p, proc.(from := if proc.scope == TRX then proc.from else proc.pc.cursor,
                                      pc := if proc.scope == TRX && proc.pc.done < BatchEnd(proc)
                                            then PublishTrx(cfg, proc, proc.pc.done + 1, input.tip) else BatchDone))
  {
  }

  lemma DoneMoves(cfg: Config, st: State, p: nat, proc: Proc, input: Input)
    requires Underway(st, p, proc) && proc.pc.BatchDone? && input.reply.Ok?
    ensures Moves(st, Apply(cfg, st, Act(p, input)), p, proc.(batchStart := BatchEnd(proc) + 1, pc := Top))
  {
  }

  // ----- A batch of a contract

  /** The events of the range are in the answer. */
  lemma RangeIndexed(cfg: Config, proc: Proc, all: seq<B.ChainEvent>)
    requires proc.Scan? && proc.scope != TRX && Pl.Timed(cfg.world, cfg.time) && Answered(cfg, proc, all)
    ensures var returned := Range(proc.batchStart, BatchEnd(proc));
            && HoldsAll(proc.scope, returned, proc.batchStart, BatchEnd(proc))
            && AllIndexed(cfg, proc.scope, Answer(cfg, proc.scope, returned, all), proc.batchStart, BatchEnd(proc))
  {
    var returned := Range(proc.batchStart, BatchEnd(proc));
    forall b | proc.batchStart <= b <= BatchEnd(proc)
      ensures InSpan(returned, b) && Indexed(cfg.world, proc.scope, Answer(cfg, proc.scope, returned, all), b)
    {
      assert b in returned;
      Pl.SpanIsIndexed(cfg, proc.scope, returned, all, b);
    }
  }

  lemma Follows(cfg: Config, st: State, p: nat, all: seq<B.ChainEvent>, tip: int, proc: Proc, n: nat)
    requires Underway(st, p, proc) && n > 0
    ensures Go(cfg, st, p, all, tip, n) == Go(cfg, Apply(cfg, st, Act(p, InFull(proc, all, tip))), p, all, tip, n - 1)
  {
  }

  /** From the loop test to the point where the batch is published. */
  lemma ContractFetches(cfg: Config, st: State, p: nat, proc: Proc, all: seq<B.ChainEvent>, tip: int) returns (next: Proc, n: nat)
    requires Underway(st, p, proc) && proc.pc.Top? && proc.batchStart <= proc.latest && proc.scope != TRX
    requires Pl.Timed(cfg.world, cfg.time) && Answered(cfg, proc, all)
    ensures Moves(st, Go(cfg, st, p, all, tip, n), p, next)
    ensures next.Scan? && next.pc.Publish? && next == proc.(returned := Range(proc.batchStart, BatchEnd(proc)), pc := next.pc)
    ensures HarmlessRuns.Whole(cfg, proc.scope, next.pc.batch) && next.pc.batch.lo == proc.batchStart && next.pc.batch.hi == BatchEnd(proc)
  {
    var input := InFull(proc, all, tip);
    var s1 := Apply(cfg, st, Act(p, input));
    var p1 := proc.(pc := Fetch);
    TopMoves(cfg, st, p, proc, input);
    var s2 := Apply(cfg, s1, Act(p, input));
    var p2 := p1.(returned := input.blocks, pc := Fetched);
    FetchMoves(cfg, s1, p, p1, input);
    assert proc.batchStart in input.blocks;
    var s3 := Apply(cfg, s2, Act(p, input));
    var p3 := p2.(pc := Events);
    FetchedMoves(cfg, s2, p, p2, input);
    var s4 := Apply(cfg, s3, Act(p, input));
    var p4 := p3.(pc := EventsFetched(Answer(cfg, proc.scope, input.blocks, all)));
    EventsMoves(cfg, s3, p, p3, input);
    next := p4.(pc := Publish(NewBatch(cfg, proc.scope, proc.batchStart, BatchEnd(proc), input.blocks, p4.pc.fetched, tip)));
    MatchMoves(cfg, s4, p, p4, input);
    RangeIndexed(cfg, proc, all);
    Follows(cfg, st, p, all, tip, proc, 5);
    Follows(cfg, s1, p, all, tip, p1, 4);
    Follows(cfg, s2, p, all, tip, p2, 3);
    Follows(cfg, s3, p, all, tip, p3, 2);
    Follows(cfg, s4, p, all, tip, p4, 1);
    n := 5;
  }

  /** The cursor is written, and the scan is back at its loop test. */
  lemma SaveAndGoOn(cfg: Config, st: State, p: nat, proc: Proc, all: seq<B.ChainEvent>, tip: int) returns (n: nat)
    requires Underway(st, p, proc) && proc.pc.Save? && (proc.scope == TRX ==> proc.pc.done >= BatchEnd(proc))
    ensures var st' := Go(cfg, st, p, all, tip, n);
            && Undisturbed(st, st', p, proc.scope)
            && Underway(st', p, proc.(from := if proc.scope == TRX then proc.from else proc.pc.cursor, batchStart := BatchEnd(proc) + 1, pc := Top))
            && st'.rows[proc.scope].highest == Max(proc.pc.cursor, st.rows[proc.scope].highest)
  {
    var s1 := Apply(cfg, st, Act(p, InFull(proc, all, tip)));
    var p1 := proc.(from := if proc.scope == TRX then proc.from else proc.pc.cursor, pc := BatchDone);
    SaveMoves(cfg, st, p, proc, InFull(proc, all, tip));
    DoneMoves(cfg, s1, p, p1, InFull(p1, all, tip));
    Follows(cfg, st, p, all, tip, proc, 2);
    Follows(cfg, s1, p, all, tip, p1, 1);
    n := 2;
  }

  lemma StaysUndisturbed(st: State, s1: State, s2: State, p: nat, scope: string)
    requires Undisturbed(st, s1, p, scope) && Undisturbed(s1, s2, p, scope)
    ensures Undisturbed(st, s2, p, scope)
  {
  }

  ghost predicate AllVisited(st: State, scope: string, lo: int, hi: int) {
    forall b :: lo <= b <= hi ==> (scope, b) in st.visited
  }

  /** From the loop test to the cursor write. */
  lemma ContractPublishes(cfg: Config, st: State, p: nat, proc: Proc, all: seq<B.ChainEvent>, tip: int) returns (next: Proc, n: nat)
    requires Underway(st, p, proc) && proc.pc.Top? && proc.batchStart <= proc.latest && proc.scope != TRX
    requires Pl.Timed(cfg.world, cfg.time) && Answered(cfg, proc, all)
    ensures next == proc.(returned := Range(proc.batchStart, BatchEnd(proc)),
                          pc := Save(W.CursorAfterBatch(cfg.retain, proc.from, proc.batchStart, BatchEnd(proc)), BatchEnd(proc)))
    ensures Moves(st, Go(cfg, st, p, all, tip, n), p, next)
    ensures AllVisited(Go(cfg, st, p, all, tip, n), proc.scope, proc.batchStart, BatchEnd(proc))
  {
    var p1, i := ContractFetches(cfg, st, p, proc, all, tip);
    var s1 := Go(cfg, st, p, all, tip, i);
    var j := Publishes(cfg, s1, p, p1, all, tip);
    next, n := p1.(pc := Save(Reached(cfg, p1, p1.pc.batch), BatchEnd(proc))), i + j;
    GoOn(cfg, st, p, all, tip, i, j);
    StaysUndisturbed(st, s1, Go(cfg, s1, p, all, tip, j), p, proc.scope);
  }

  /** A whole batch of a contract. */
  lemma ContractBatch(cfg: Config, st: State, p: nat, proc: Proc, all: seq<B.ChainEvent>, tip: int) returns (n: nat)
    requires Underway(st, p, proc) && proc.pc.Top? && proc.batchStart <= proc.latest && proc.scope != TRX
    requires Pl.Timed(cfg.world, cfg.time) && Answered(cfg, proc, all)
    ensures var st' := Go(cfg, st, p, all, tip, n);
            var cursor := W.CursorAfterBatch(cfg.retain, proc.from, proc.batchStart, BatchEnd(proc));
            && Undisturbed(st, st', p, proc.scope)
            && Underway(st', p, proc.(returned := Range(proc.batchStart, BatchEnd(proc)), from := cursor, batchStart := BatchEnd(proc) + 1))
            && st'.rows[proc.scope].highest == Max(cursor, st.rows[proc.scope].highest)
            && AllVisited(st', proc.scope, proc.batchStart, BatchEnd(proc))
  {
    var p1, i := ContractPublishes(cfg, st, p, proc, all, tip);
    var s1 := Go(cfg, st, p, all, tip, i);
    var j := SaveAndGoOn(cfg, s1, p, p1, all, tip);
    n := i + j;
    GoOn(cfg, st, p, all, tip, i, j);
    StaysUndisturbed(st, s1, Go(cfg, s1, p, all, tip, j), p, proc.scope);
  }

  // ----- A batch of the native scan

  /** The scan is about to publish one native block, which it has. */
  ghost predicate OnBlock(cfg: Config, proc: Proc, block: int) {
    && proc.Scan? && proc.scope == TRX && proc.pc.Publish? && proc.pc.batch.lo == proc.pc.batch.hi == block
    && HarmlessRuns.Whole(cfg, TRX, proc.pc.batch)
  }

  lemma PublishIsOnBlock(cfg: Config, proc: Proc, block: int, tip: int)
    requires proc.Scan? && proc.scope == TRX && block in proc.returned
    ensures OnBlock(cfg, proc.(pc := PublishTrx(cfg, proc, block, tip)), block)
  {
  }

  /** From the loop test to the first block. */
  lemma NativeFetches(cfg: Config, st: State, p: nat, proc: Proc, all: seq<B.ChainEvent>, tip: int) returns (next: Proc, n: nat)
    requires Underway(st, p, proc) && proc.pc.Top? && proc.batchStart <= proc.latest && proc.scope == TRX
    ensures Moves(st, Go(cfg, st, p, all, tip, n), p, next)
    ensures OnBlock(cfg, next, proc.batchStart) && next == proc.(returned := Range(proc.batchStart, BatchEnd(proc)), pc := next.pc)
  {
    var input := InFull(proc, all, tip);
    var s1 := Apply(cfg, st, Act(p, input));
    var p1 := proc.(pc := Fetch);
    TopMoves(cfg, st, p, proc, input);
    var s2 := Apply(cfg, s1, Act(p, input));
    var p2 := p1.(returned := input.blocks, pc := Fetched);
    FetchMoves(cfg, s1, p, p1, input);
    assert proc.batchStart in input.blocks;
    FetchedMoves(cfg, s2, p, p2, input);
    next := p2.(pc := PublishTrx(cfg, p2, proc.batchStart, tip));
    PublishIsOnBlock(cfg, p2, proc.batchStart, tip);
    Follows(cfg, st, p, all, tip, proc, 3);
    Follows(cfg, s1, p, all, tip, p1, 2);
    Follows(cfg, s2, p, all, tip, p2, 1);
    n := 3;
  }

  /** The cursor write of a block leads to the next one, or to the end of the batch. */
  lemma NativeSave(cfg: Config, st: State, p: nat, proc: Proc, block: int, all: seq<B.ChainEvent>, tip: int) returns (next: Proc, n: nat)
    requires Underway(st, p, proc) && proc.scope == TRX && proc.pc == Save(block, block)
    requires proc.returned == Range(proc.batchStart, BatchEnd(proc)) && proc.batchStart <= block
    ensures next.Scan? && next == proc.(pc := next.pc) && if block < BatchEnd(proc) then OnBlock(cfg, next, block + 1) else next.pc.BatchDone?
    ensures var st' := Go(cfg, st, p, all, tip, n);
            Undisturbed(st, st', p, TRX) && Underway(st', p, next) && st'.rows[TRX].highest == Max(block, st.rows[TRX].highest)
  {
    next := proc.(pc := if block < BatchEnd(proc) then PublishTrx(cfg, proc, block + 1, tip) else BatchDone);
    if block < BatchEnd(proc) {
      PublishIsOnBlock(cfg, proc, block + 1, tip);
    }
    SaveMoves(cfg, st, p, proc, InFull(proc, all, tip));
    Follows(cfg, st, p, all, tip, proc, 1);
    n := 1;
  }

  /** One block: published, then saved. */
  lemma NativeBlock(cfg: Config, st: State, p: nat, proc: Proc, block: int, all: seq<B.ChainEvent>, tip: int) returns (next: Proc, n: nat)
    requires Underway(st, p, proc) && OnBlock(cfg, proc, block)
    requires proc.returned == Range(proc.batchStart, BatchEnd(proc)) && proc.batchStart <= block
    ensures next.Scan? && next == proc.(pc := next.pc) && if block < BatchEnd(proc) then OnBlock(cfg, next, block + 1) else next.pc.BatchDone?
    ensures var st' := Go(cfg, st, p, all, tip, n);
            && Undisturbed(st, st', p, TRX) && (TRX, block) in st'.visited && Underway(st', p, next)
            && st'.rows[TRX].highest == Max(block, st.rows[TRX].highest)
  {
    var i := Publishes(cfg, st, p, proc, all, tip);
    var s1 := Go(cfg, st, p, all, tip, i);
    var j: nat;
    next, j := NativeSave(cfg, s1, p, proc.(pc := Save(block, block)), block, all, tip);
    n := i + j;
    GoOn(cfg, st, p, all, tip, i, j);
    StaysUndisturbed(st, s1, Go(cfg, s1, p, all, tip, j), p, TRX);
  }

  lemma NativeDone(cfg: Config, st: State, p: nat, proc: Proc, all: seq<B.ChainEvent>, tip: int) returns (n: nat)
    requires Underway(st, p, proc) && proc.pc.BatchDone?
    ensures Moves(st, Go(cfg, st, p, all, tip, n), p, proc.(batchStart := BatchEnd(proc) + 1, pc := Top))
  {
    DoneMoves(cfg, st, p, proc, InFull(proc, all, tip));
    Follows(cfg, st, p, all, tip, proc, 1);
    n := 1;
  }

  /** The batch is done from `block` on. */
  ghost predicate NativeRest(st: State, st': State, p: nat, proc: Proc, block: int)
    requires proc.Scan?
  {
    && Undisturbed(st, st', p, TRX) && AllVisited(st', TRX, block, BatchEnd(proc))
    && st'.rows[TRX].highest == Max(BatchEnd(proc), st.rows[TRX].highest)
    && Underway(st', p, proc.(batchStart := BatchEnd(proc) + 1, pc := Top))
  }

  lemma JoinRest(st: State, s1: State, s2: State, p: nat, proc: Proc, next: Proc, block: int)
    requires proc.Scan? && next.Scan? && next == proc.(pc := next.pc) && block < BatchEnd(proc)
    requires Undisturbed(st, s1, p, TRX) && (TRX, block) in s1.visited && s1.rows[TRX].highest == Max(block, st.rows[TRX].highest)
    requires NativeRest(s1, s2, p, next, block + 1)
    ensures NativeRest(st, s2, p, proc, block)
  {
    StaysUndisturbed(st, s1, s2, p, TRX);
  }

  lemma JoinLast(st: State, s1: State, s2: State, p: nat, proc: Proc, next: Proc, block: int)
    requires proc.Scan? && next.Scan? && next == proc.(pc := BatchDone) && block == BatchEnd(proc) && proc.scope == TRX
    requires Undisturbed(st, s1, p, TRX) && (TRX, block) in s1.visited && s1.rows[TRX].highest == Max(block, st.rows[TRX].highest)
    requires Moves(s1, s2, p, next.(batchStart := BatchEnd(next) + 1, pc := Top))
    ensures NativeRest(st, s2, p, proc, block)
  {
    StaysUndisturbed(st, s1, s2, p, TRX);
  }

  /** The blocks of a batch, one after the other. */
  lemma {:induction false} NativeBlocks(cfg: Config, st: State, p: nat, proc: Proc, block: int, all: seq<B.ChainEvent>, tip: int) returns (n: nat)
    requires Underway(st, p, proc) && OnBlock(cfg, proc, block)
    requires proc.returned == Range(proc.batchStart, BatchEnd(proc)) && proc.batchStart <= block <= BatchEnd(proc)
    ensures NativeRest(st, Go(cfg, st, p, all, tip, n), p, proc, block)
    decreases BatchEnd(proc) - block
  {
    var next, i := NativeBlock(cfg, st, p, proc, block, all, tip);
    var s1 := Go(cfg, st, p, all, tip, i);
    var j: nat;
    if block == BatchEnd(proc) {
      j := NativeDone(cfg, s1, p, next, all, tip);
      JoinLast(st, s1, Go(cfg, s1, p, all, tip, j), p, proc, next, block);
    } else {
      j := NativeBlocks(cfg, s1, p, next, block + 1, all, tip);
      JoinRest(st, s1, Go(cfg, s1, p, all, tip, j), p, proc, next, block);
    }
    n := i + j;
    GoOn(cfg, st, p, all, tip, i, j);
  }

  lemma NativeBatch(cfg: Config, st: State, p: nat, proc: Proc, all: seq<B.ChainEvent>, tip: int) returns (n: nat)
    requires Underway(st, p, proc) && proc.pc.Top? && proc.batchStart <= proc.latest && proc.scope == TRX
    ensures var st' := Go(cfg, st, p, all, tip, n);
            && Undisturbed(st, st', p, TRX)
            && Underway(st', p, proc.(returned := Range(proc.batchStart, BatchEnd(proc)), batchStart := BatchEnd(proc) + 1))
            && st'.rows[TRX].highest == Max(BatchEnd(proc), st.rows[TRX].highest)
            && AllVisited(st', TRX, proc.batchStart, BatchEnd(proc))
  {
    var p1, i := NativeFetches(cfg, st, p, proc, all, tip);
    var s1 := Go(cfg, st, p, all, tip, i);
    var j := NativeBlocks(cfg, s1, p, p1, proc.batchStart, all, tip);
    n := i + j;
    GoOn(cfg, st, p, all, tip, i, j);
    StaysUndisturbed(st, s1, Go(cfg, s1, p, all, tip, j), p, TRX);
  }

  // ----- The loop

  /** Where a scan from `origin` stands after `k` batches. */
  ghost predicate InLoop(cfg: Config, st: State, p: nat, proc: Proc, origin: int, k: nat) {
    && Underway(st, p, proc) && proc.pc.Top? && origin < proc.latest
    && if proc.scope == TRX then origin < proc.batchStart <= proc.latest + 1 && st.rows[TRX].highest == proc.batchStart - 1
       else W.BatchLoop(origin, proc.latest, cfg.retain, k, proc.from, proc.batchStart) && st.rows[proc.scope].highest == proc.from
            && proc.batchStart <= proc.latest + 1 && (k > 0 ==> W.HasBatch(origin, proc.latest, k - 1))
  }

  /** Where a finished scan leaves the cursor of a scope. */
  function FinalCursor(cfg: Config, scope: string, origin: int, latest: int): int {
    if latest <= origin then origin
    else if scope == TRX || cfg.retain <= 0 then latest
    else Max(latest - cfg.retain, origin + 100 * ((latest - origin - 1) / 100))
  }

  /** One more batch. */
  lemma LoopOnce(cfg: Config, st: State, p: nat, proc: Proc, origin: int, k: nat, all: seq<B.ChainEvent>, tip: int) returns (next: Proc, n: nat)
    requires InLoop(cfg, st, p, proc, origin, k) && proc.batchStart <= proc.latest
    requires Pl.Timed(cfg.world, cfg.time) && Answered(cfg, proc, all)
    ensures next.Scan? && next.scope == proc.scope && next.worker == proc.worker && next.latest == proc.latest && next.batchStart == BatchEnd(proc) + 1
    ensures var st' := Go(cfg, st, p, all, tip, n);
            InLoop(cfg, st', p, next, origin, k + 1) && Undisturbed(st, st', p, proc.scope) && AllVisited(st', proc.scope, proc.batchStart, BatchEnd(proc))
  {
    if proc.scope == TRX {
      n := NativeBatch(cfg, st, p, proc, all, tip);
    } else {
      W.AfterOneMoreBatch(origin, proc.latest, cfg.retain, k, proc.from, proc.batchStart, BatchEnd(proc));
      n := ContractBatch(cfg, st, p, proc, all, tip);
    }
    next := Go(cfg, st, p, all, tip, n).procs[p];
  }

  lemma LeavesLoop(cfg: Config, st: State, p: nat, proc: Proc, all: seq<B.ChainEvent>, tip: int) returns (n: nat)
    requires Underway(st, p, proc) && (proc.pc.Leave? || (proc.pc.Top? && proc.batchStart > proc.latest))
    ensures var end := Go(cfg, st, p, all, tip, n);
            && p !in end.procs && Undisturbed(st, end, p, proc.scope) && !L.Holds(end.rows, proc.scope, proc.worker)
            && end.rows[proc.scope].highest == st.rows[proc.scope].highest
  {
    if proc.pc.Leave? {
      Follows(cfg, st, p, all, tip, proc, 1);
      n := 1;
    } else {
      var s1 := Apply(cfg, st, Act(p, InFull(proc, all, tip)));
      assert Underway(s1, p, proc.(pc := Leave));
      Follows(cfg, st, p, all, tip, proc, 2);
      Follows(cfg, s1, p, all, tip, proc.(pc := Leave), 1);
      n := 2;
    }
  }

  /** All batches that are left, and the end of the scan. */
  lemma {:induction false} LoopEnds(cfg: Config, st: State, p: nat, proc: Proc, origin: int, k: nat, all: seq<B.ChainEvent>, tip: int) returns (n: nat)
    requires InLoop(cfg, st, p, proc, origin, k)
    requires Pl.Timed(cfg.world, cfg.time) && Answered(cfg, proc, all)
    ensures var end := Go(cfg, st, p, all, tip, n);
            && p !in end.procs && Undisturbed(st, end, p, proc.scope) && !L.Holds(end.rows, proc.scope, proc.worker)
            && AllVisited(end, proc.scope, proc.batchStart, proc.latest)
            && end.rows[proc.scope].highest == FinalCursor(cfg, proc.scope, origin, proc.latest)
    decreases proc.latest - proc.batchStart
  {
    if proc.batchStart > proc.latest {
      n := LeavesLoop(cfg, st, p, proc, all, tip);
      if proc.scope != TRX {
        LastCursor(cfg, origin, proc.latest, k);
      }
    } else {
      var next, i := LoopOnce(cfg, st, p, proc, origin, k, all, tip);
      var s1 := Go(cfg, st, p, all, tip, i);
      var j := LoopEnds(cfg, s1, p, next, origin, k + 1, all, tip);
      n := i + j;
      GoOn(cfg, st, p, all, tip, i, j);
      StaysUndisturbed(st, s1, Go(cfg, s1, p, all, tip, j), p, proc.scope);
    }
  }

  lemma LastCursor(cfg: Config, origin: int, latest: int, k: nat)
    requires !W.HasBatch(origin, latest, k) && origin < latest && k > 0 && W.HasBatch(origin, latest, k - 1)
    ensures W.CursorAfter(origin, latest, cfg.retain, k) == if cfg.retain <= 0 then latest else Max(latest - cfg.retain, origin + 100 * ((latest - origin - 1) / 100))
  {
    W.CountsBatches(origin, latest, k);
    W.CountsBatches(origin, latest, k - 1);
    W.Trc20CursorClosedForm(origin, latest, cfg.retain);
  }

  // ----- A whole scan

  /** The lease is granted, and the origin is the stored cursor. */
  lemma Starts(cfg: Config, st: State, p: nat, worker: string, scope: string, latest: int, all: seq<B.ChainEvent>, tip: int)
    requires p !in st.procs && worker != "" && scope in cfg.scopes && scope in st.rows && st.rows[scope].highest > 0
    requires L.CanClaim(st.rows, scope, worker, st.now)
    ensures var origin := st.rows[scope].highest;
            var s1 := Apply(cfg, st, StartScan(p, worker, scope, latest, Ok));
            var s2 := Go(cfg, s1, p, all, tip, 1);
            var read := Scan(worker, scope, latest, 0, 0, {}, Read(origin));
            && Undisturbed(st, s2, p, scope) && s2.rows[scope].highest == origin
            && Underway(s2, p, if latest <= origin then read.(pc := Leave) else read.(from := origin, batchStart := origin + 1, pc := Top))
  {
    var s1 := Apply(cfg, st, StartScan(p, worker, scope, latest, Ok));
    var read := Scan(worker, scope, latest, 0, 0, {}, Read(st.rows[scope].highest));
    assert Underway(s1, p, read);
    Follows(cfg, s1, p, all, tip, read, 1);
  }

  /** Whatever state any run has led to: a scan that can have its lease, is answered in full and left alone ends. Then
      every block from its origin to its target is visited, nothing is lost, the lease is free and the cursor is where
      `ScanLoops.ScanTrc20` and `ScanTrxWithLease` leave it. */
  lemma ScanCompletes(cfg: Config, st: State, p: nat, worker: string, scope: string, latest: int, all: seq<B.ChainEvent>, tip: int)
    returns (steps: seq<Step>)
    requires p !in st.procs && worker != "" && scope in cfg.scopes && scope in st.rows && st.rows[scope].highest > 0
    requires L.CanClaim(st.rows, scope, worker, st.now) && Pl.Timed(cfg.world, cfg.time)
    requires scope != TRX ==> forall c :: OnChain(cfg.world, scope, c) ==> c in all
    ensures forall i :: 0 <= i < |steps| ==> steps[i].Act? && steps[i].p == p && steps[i].input.reply.Ok?
    ensures var origin := st.rows[scope].highest;
            var end := Run(cfg, Apply(cfg, st, StartScan(p, worker, scope, latest, Ok)), steps);
            && p !in end.procs && !L.Holds(end.rows, scope, worker) && Undisturbed(st, end, p, scope)
            && AllVisited(end, scope, origin + 1, latest)
            && end.rows[scope].highest == FinalCursor(cfg, scope, origin, latest)
  {
    var origin := st.rows[scope].highest;
    var s1 := Apply(cfg, st, StartScan(p, worker, scope, latest, Ok));
    Starts(cfg, st, p, worker, scope, latest, all, tip);
    var i: nat := 1;
    var s2 := Go(cfg, s1, p, all, tip, i);
    var proc := s2.procs[p];
    var j: nat;
    if latest <= origin {
      j := LeavesLoop(cfg, s2, p, proc, all, tip);
    } else {
      j := LoopEnds(cfg, s2, p, proc, origin, 0, all, tip);
    }
    GoOn(cfg, s1, p, all, tip, i, j);
    StaysUndisturbed(st, s2, Go(cfg, s2, p, all, tip, j), p, scope);
    steps := GoIsRun(cfg, s1, p, all, tip, i + j);
  }

  // ----- Scopes without a cursor

  /** A scope without cursor and start block is pinned to the safe tip by its first scan, which then ends. */
  lemma ColdScopeIsPinned(cfg: Config, st: State, p: nat, worker: string, scope: string, latest: int, all: seq<B.ChainEvent>, tip: int)
    requires p !in st.procs && worker != "" && scope in cfg.scopes && cfg.startBlock <= 0
    requires L.HighestBlock(st.rows, scope) == 0 && L.CanClaim(st.rows, scope, worker, st.now)
    ensures var end := Go(cfg, Apply(cfg, st, StartScan(p, worker, scope, latest, Ok)), p, all, tip, 3);
            && p !in end.procs && scope in end.rows && !L.Holds(end.rows, scope, worker)
            && end.rows[scope].highest == Max(latest, 0) && end.visited == st.visited && end.lost == st.lost
  {
    var s0 := Apply(cfg, st, StartScan(p, worker, scope, latest, Ok));
    var read := Scan(worker, scope, latest, 0, 0, {}, Read(0));
    assert Underway(s0, p, read);
    Follows(cfg, s0, p, all, tip, read, 3);
    var s1 := Apply(cfg, s0, Act(p, InFull(read, all, tip)));
    var cold := read.(pc := ColdSave);
    assert Underway(s1, p, cold);
    Follows(cfg, s1, p, all, tip, cold, 2);
    var s2 := Apply(cfg, s1, Act(p, InFull(cold, all, tip)));
    var leave := read.(pc := Leave);
    assert Underway(s2, p, leave);
    Follows(cfg, s2, p, all, tip, leave, 1);
  }

  /** With a configured start block its first scan begins at the block after it. */
  lemma FirstScanStartsAfter(cfg: Config, st: State, p: nat, worker: string, scope: string, latest: int, all: seq<B.ChainEvent>, tip: int)
    requires p !in st.procs && worker != "" && scope in cfg.scopes && 0 < cfg.startBlock < latest
    requires L.HighestBlock(st.rows, scope) == 0 && L.CanClaim(st.rows, scope, worker, st.now)
    ensures var s1 := Go(cfg, Apply(cfg, st, StartScan(p, worker, scope, latest, Ok)), p, all, tip, 1);
            Underway(s1, p, Scan(worker, scope, latest, cfg.startBlock, cfg.startBlock + 1, {}, Top)) && s1.rows[scope].highest == 0
  {
    var s0 := Apply(cfg, st, StartScan(p, worker, scope, latest, Ok));
    var read := Scan(worker, scope, latest, 0, 0, {}, Read(0));
    assert Underway(s0, p, read);
    Follows(cfg, s0, p, all, tip, read, 1);
  }
}
