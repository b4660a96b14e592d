/** Which keys whole scans and replays add. `ScanLoops` gives the outbox after a loop as the effects of its
    batches; here the node answers from a fixed chain and nothing is too large to enqueue, and the outbox gains exactly
    what the blocks asked for call for. */
module WholeScans {
  import opened Base
  import opened TransferKeys
  import opened CursorLease
  import opened ScanLoops
  import opened Plans
  import O = Outbox
  import B = BatchWindow

  // ----- Sets of blocks

  lemma ExpectedUnion(w: O.World, a: set<(string, int)>, b: set<(string, int)>)
    ensures O.Expected(w, a + b) == O.Expected(w, a) + O.Expected(w, b)
  {
    forall k
      ensures k in O.Expected(w, a + b) <==> k in O.Expected(w, a) + O.Expected(w, b)
    {
      if k in O.Expected(w, a + b) {
        var v :| v in a + b && k in O.BlockKeys(w, v.0, v.1);
        assert v in a ==> k in O.Expected(w, a);
      }
      if k in O.Expected(w, a) {
        var v :| v in a && k in O.BlockKeys(w, v.0, v.1);
        assert v in a + b;
      }
      if k in O.Expected(w, b) {
        var v :| v in b && k in O.BlockKeys(w, v.0, v.1);
        assert v in a + b;
      }
    }
  }

  lemma NothingExpected(w: O.World)
    ensures O.Expected(w, {}) == {}
  {
  }

  /** Adding first what some blocks call for and then what others do. */
  lemma AddsBoth(w: O.World, r0: O.Rows, r1: O.Rows, r2: O.Rows, a: set<(string, int)>, b: set<(string, int)>)
    requires O.Adds(r0, r1, O.Expected(w, a)) && O.Adds(r1, r2, O.Expected(w, b))
    ensures O.Adds(r0, r2, O.Expected(w, a + b))
  {
    O.AddsTwice(r0, r1, r2, O.Expected(w, a), O.Expected(w, b));
    ExpectedUnion(w, a, b);
  }

  lemma SpansMeet(contract: string, a: int, b: int, c: int)
    requires a - 1 <= b <= c
    ensures SpanOfBlocks(contract, a, b) + SpanOfBlocks(contract, b + 1, c) == SpanOfBlocks(contract, a, c)
  {
  }

  // ----- One batch of a contract

  /** The lowest block number. */
  function Lowest(blocks: seq<B.Block>): int
    requires blocks != []
  {
    if |blocks| == 1 then blocks[0].number else Min(blocks[0].number, Lowest(blocks[1..]))
  }

  function Highest(blocks: seq<B.Block>): int
    requires blocks != []
  {
    if |blocks| == 1 then blocks[0].number else Max(blocks[0].number, Highest(blocks[1..]))
  }

  lemma {:induction false} LowestToHighest(blocks: seq<B.Block>)
    requires blocks != []
    ensures B.Spans(blocks, Lowest(blocks), Highest(blocks))
  {
    if |blocks| == 1 {
      assert blocks[0] in blocks;
    } else {
      LowestToHighest(blocks[1..]);
      var i :| 0 <= i < |blocks[1..]| && blocks[1..][i].number == Lowest(blocks[1..]);
      var j :| 0 <= j < |blocks[1..]| && blocks[1..][j].number == Highest(blocks[1..]);
      assert blocks[i + 1].number == Lowest(blocks[1..]) && blocks[j + 1].number == Highest(blocks[1..]);
      assert forall k :: 1 <= k < |blocks| ==> blocks[k] == blocks[1..][k - 1];
    }
  }

  lemma {:induction false} TimesSpan(blocks: seq<B.Block>)
    requires blocks != [] && forall i :: 0 <= i < |blocks| ==> blocks[i].timestamp > 0
    ensures B.MinTime(blocks) > 0 && B.SpanOf(blocks, B.MinTime(blocks), B.MaxTime(blocks))
    decreases |blocks|
  {
    var front, n := blocks[..|blocks| - 1], |blocks| - 1;
    if front == [] {
      assert B.MinTime(front) == 0 && B.MaxTime(front) == 0;
      assert blocks[0].timestamp == B.MinTime(blocks) == B.MaxTime(blocks);
    } else {
      TimesSpan(front);
      assert forall k :: 0 <= k < n ==> blocks[k] == front[k];
      var i :| 0 <= i < |front| && front[i].timestamp == B.MinTime(front);
      var j :| 0 <= j < |front| && front[j].timestamp == B.MaxTime(front);
      assert blocks[i].timestamp == B.MinTime(blocks) || blocks[n].timestamp == B.MinTime(blocks);
      assert blocks[j].timestamp == B.MaxTime(blocks) || blocks[n].timestamp == B.MaxTime(blocks);
    }
  }

  /** The node answers from the chain: blocks of the range with their times, perhaps not all of them, and then all
      events of the time window asked for. `evs` are all events of the contract in the order of this answer. */
  ghost predicate Honest(w: O.World, time: int -> int, contract: string, r: BatchReplies, lo: int, hi: int, evs: seq<B.ChainEvent>) {
    r.blocks != [] ==>
      && (forall i :: 0 <= i < |r.blocks| ==> lo <= r.blocks[i].number <= hi)
      && B.OnChain(time, r.blocks, evs) && AllEvents(w, contract, evs)
      && r.events(B.MinTime(r.blocks), B.MaxTime(r.blocks)) == B.OfTime(evs, B.MinTime(r.blocks), B.MaxTime(r.blocks))
  }

  /** The blocks that a batch asks about. */
  ghost function Asked(contract: string, r: BatchReplies): set<(string, int)> {
    if r.blocks == [] then {} else SpanOfBlocks(contract, Lowest(r.blocks), Highest(r.blocks))
  }

  /** `sound` names the condition that all rows are of the current form. Like the effects in `Setting` it is passed
      on as a function value so that the inductions below need not look into the keys. */
  ghost predicate Names(sound: O.Rows -> bool) {
    forall rows {:trigger O.Current(rows)} :: sound(rows) == O.Current(rows)
  }

  /** What publishing goes by is the world's, and nothing is too large. */
  ghost predicate Smooth(w: O.World, s: Setting) {
    Genuine(s) && s.active == w.active && s.endpoints == w.endpoints && forall e :: !s.oversized(e)
  }

  lemma BatchRowsAdd(w: O.World, time: int -> int, s: Setting, contract: string, r: BatchReplies, lo: int, hi: int,
                     evs: seq<B.ChainEvent>, rows: O.Rows)
    requires O.PlainWorld(w) && O.Current(rows) && Plain(contract) && B.Rising(time)
    requires Smooth(w, s) && r.blocks != [] && Honest(w, time, contract, r, lo, hi, evs)
    ensures var fetched := r.events(B.MinTime(r.blocks), B.MaxTime(r.blocks));
            var after := BatchRows(s, rows, contract, fetched, lo, hi);
            O.Current(after) && O.Adds(rows, after, O.Expected(w, Asked(contract, r)))
  {
    var minTs, maxTs := B.MinTime(r.blocks), B.MaxTime(r.blocks);
    var kept := O.Distinct(TransferEventKey, B.MatchedWithin(w.active, contract, B.OfTime(evs, minTs, maxTs), lo, hi, s.tip), {});
    LowestToHighest(r.blocks);
    TimesSpan(r.blocks);
    CompleteBatchAddsSpan(w, time, contract, evs, r.blocks, lo, hi, Lowest(r.blocks), Highest(r.blocks), minTs, maxTs, s.tip, rows);
    B.AllSurvive(kept, lo, hi, w.endpoints, s.oversized);
    O.PublishAddsKeys(rows, contract, B.Grouped(kept, lo, hi), w.endpoints);
  }

  lemma BatchAdds(w: O.World, time: int -> int, s: Setting, contract: string, r: BatchReplies, lo: int, hi: int,
                  evs: seq<B.ChainEvent>, rows: O.Rows, sound: O.Rows -> bool)
    requires O.PlainWorld(w) && sound(rows) && Names(sound) && Plain(contract) && B.Rising(time)
    requires Smooth(w, s) && Honest(w, time, contract, r, lo, hi, evs)
    ensures var after := AfterBatch(rows, contract, s, r, lo, hi);
            sound(after) && O.Adds(rows, after, O.Expected(w, Asked(contract, r)))
  {
    if r.blocks == [] {
      NothingExpected(w);
    } else {
      assert O.Current(rows);
      BatchRowsAdd(w, time, s, contract, r, lo, hi, evs, rows);
    }
  }

  // ----- A scan or a replay of a contract

  ghost predicate AllHonest(w: O.World, time: int -> int, contract: string, replies: nat -> BatchReplies, from: int, latest: int,
                            k: nat, evs: nat -> seq<B.ChainEvent>) {
    forall i: nat :: i < k ==> Honest(w, time, contract, replies(i), BatchRange(from, latest, i).0, BatchRange(from, latest, i).1, evs(i))
  }

  ghost predicate EverHonest(w: O.World, time: int -> int, contract: string, replies: nat -> BatchReplies, from: int, latest: int,
                             evs: nat -> seq<B.ChainEvent>) {
    forall k: nat :: AllHonest(w, time, contract, replies, from, latest, k, evs)
  }

  /** The blocks that the first `k` batches ask about. */
  ghost function AskedBy(contract: string, replies: nat -> BatchReplies, k: nat): set<(string, int)> {
    if k == 0 then {} else AskedBy(contract, replies, k - 1) + Asked(contract, replies(k - 1))
  }

  lemma {:induction false} StaysCurrent(w: O.World, time: int -> int, s: Setting, contract: string, replies: nat -> BatchReplies,
                                        from: int, latest: int, k: nat, evs: nat -> seq<B.ChainEvent>, rows: O.Rows, sound: O.Rows -> bool)
    requires O.PlainWorld(w) && sound(rows) && Names(sound) && Plain(contract) && B.Rising(time)
    requires Smooth(w, s) && AllHonest(w, time, contract, replies, from, latest, k, evs)
    ensures sound(AfterBatches(rows, contract, s, replies, from, latest, k))
  {
    if k == 0 {
    } else {
      StaysCurrent(w, time, s, contract, replies, from, latest, k - 1, evs, rows, sound);
      BatchAdds(w, time, s, contract, replies(k - 1), BatchRange(from, latest, k - 1).0, BatchRange(from, latest, k - 1).1, evs(k - 1),
                AfterBatches(rows, contract, s, replies, from, latest, k - 1), sound);
    }
  }

  /** Batch `k` adds what the blocks it asks about call for. */
  ghost predicate StepAdds(w: O.World, s: Setting, contract: string, replies: nat -> BatchReplies, from: int, latest: int, k: nat, rows: O.Rows) {
    O.Adds(AfterBatches(rows, contract, s, replies, from, latest, k), AfterBatches(rows, contract, s, replies, from, latest, k + 1),
           O.Expected(w, Asked(contract, replies(k))))
  }

  lemma EachStepAdds(w: O.World, time: int -> int, s: Setting, contract: string, replies: nat -> BatchReplies,
                     from: int, latest: int, k: nat, evs: nat -> seq<B.ChainEvent>, rows: O.Rows, sound: O.Rows -> bool)
    requires O.PlainWorld(w) && sound(rows) && Names(sound) && Plain(contract) && B.Rising(time)
    requires Smooth(w, s) && AllHonest(w, time, contract, replies, from, latest, k + 1, evs)
    ensures StepAdds(w, s, contract, replies, from, latest, k, rows)
  {
    StaysCurrent(w, time, s, contract, replies, from, latest, k, evs, rows, sound);
    BatchAdds(w, time, s, contract, replies(k), BatchRange(from, latest, k).0, BatchRange(from, latest, k).1, evs(k),
              AfterBatches(rows, contract, s, replies, from, latest, k), sound);
  }

  lemma {:induction false} StepsAddUp(w: O.World, s: Setting, contract: string, replies: nat -> BatchReplies, from: int, latest: int, k: nat, rows: O.Rows)
    requires forall i: nat :: i < k ==> StepAdds(w, s, contract, replies, from, latest, i, rows)
    ensures O.Adds(rows, AfterBatches(rows, contract, s, replies, from, latest, k), O.Expected(w, AskedBy(contract, replies, k)))
  {
    if k == 0 {
      NothingExpected(w);
    } else {
      StepsAddUp(w, s, contract, replies, from, latest, k - 1, rows);
      assert StepAdds(w, s, contract, replies, from, latest, k - 1, rows);
      AddsBoth(w, rows, AfterBatches(rows, contract, s, replies, from, latest, k - 1), AfterBatches(rows, contract, s, replies, from, latest, k),
               AskedBy(contract, replies, k - 1), Asked(contract, replies(k - 1)));
    }
  }

  /** Wherever the loop of a contract stops: the outbox has its old rows and exactly the keys of the blocks asked
      about so far. */
  lemma BatchesAdd(w: O.World, time: int -> int, s: Setting, contract: string, replies: nat -> BatchReplies,
                   from: int, latest: int, k: nat, evs: nat -> seq<B.ChainEvent>, rows: O.Rows)
    requires O.PlainWorld(w) && O.Current(rows) && Plain(contract) && B.Rising(time)
    requires Smooth(w, s) && AllHonest(w, time, contract, replies, from, latest, k, evs)
    ensures O.Adds(rows, AfterBatches(rows, contract, s, replies, from, latest, k), O.Expected(w, AskedBy(contract, replies, k)))
  {
    var sound := (r: O.Rows) => O.Current(r);
    assert sound(rows);
    forall i: nat | i < k
      ensures StepAdds(w, s, contract, replies, from, latest, i, rows)
    {
      EachStepAdds(w, time, s, contract, replies, from, latest, i, evs, rows, sound);
    }
    StepsAddUp(w, s, contract, replies, from, latest, k, rows);
  }

  /** Both ends of each of the first `k` batches came back. */
  ghost predicate BothEnds(replies: nat -> BatchReplies, from: int, latest: int, k: nat) {
    forall i: nat :: i < k ==>
                       && replies(i).blocks != []
                       && Lowest(replies(i).blocks) == BatchRange(from, latest, i).0
                       && Highest(replies(i).blocks) == BatchRange(from, latest, i).1
  }

  /** Then no block of the range is left out. */
  lemma {:induction false} AskedIsRange(contract: string, replies: nat -> BatchReplies, from: int, latest: int, k: nat)
    requires BothEnds(replies, from, latest, k) && (k > 0 ==> HasBatch(from, latest, k - 1))
    ensures AskedBy(contract, replies, k) == SpanOfBlocks(contract, from + 1, if k == 0 then from else Min(from + Length(k), latest))
  {
    if k == 0 {
    } else {
      if k > 1 {
        LengthIs(k - 1);
        LengthIs(k - 2);
      }
      AskedIsRange(contract, replies, from, latest, k - 1);
      LengthIs(k - 1);
      var range := BatchRange(from, latest, k - 1);
      assert range.0 == from + Length(k - 1) + 1 && range.0 <= range.1;
      SpansMeet(contract, from + 1, from + Length(k - 1), range.1);
    }
  }

  lemma AskedIsAll(contract: string, replies: nat -> BatchReplies, from: int, latest: int, k: nat)
    requires (k > 0 ==> HasBatch(from, latest, k - 1)) && !HasBatch(from, latest, k) && from < latest && BothEnds(replies, from, latest, k)
    ensures AskedBy(contract, replies, k) == SpanOfBlocks(contract, from + 1, latest)
  {
    AskedIsRange(contract, replies, from, latest, k);
  }

  /** What the loop of a contract adds, stopped anywhere and finished. */
  lemma BatchesOutcome(w: O.World, time: int -> int, s: Setting, contract: string, replies: nat -> BatchReplies,
                       from: int, latest: int, k: nat, evs: nat -> seq<B.ChainEvent>, rows: O.Rows)
    requires O.PlainWorld(w) && O.Current(rows) && Plain(contract) && B.Rising(time)
    requires Smooth(w, s) && EverHonest(w, time, contract, replies, from, latest, evs) && (k > 0 ==> HasBatch(from, latest, k - 1))
    ensures var after := AfterBatches(rows, contract, s, replies, from, latest, k);
            && O.Adds(rows, after, O.Expected(w, AskedBy(contract, replies, k)))
            && (!HasBatch(from, latest, k) && from < latest && BothEnds(replies, from, latest, k) ==>
                  O.Adds(rows, after, O.Expected(w, SpanOfBlocks(contract, from + 1, latest))))
  {
    if !HasBatch(from, latest, k) && from < latest && BothEnds(replies, from, latest, k) {
      AskedIsAll(contract, replies, from, latest, k);
    }
    BatchesAdd(w, time, s, contract, replies, from, latest, k, evs, rows);
  }

  /** A scan of a contract against an honest node: wherever it stops the outbox has gained exactly the keys of the
      blocks asked about, and when it finishes and both ends of every batch came back, those of all blocks from its origin
      to its target. */
  method ScanContract(db: CursorTable, outbox: O.OutboxTable, contract: string, worker: string, latest: int, startBlock: int, retain: int,
                      s: Setting, replies: nat -> BatchReplies, ghost w: O.World, ghost time: int -> int, ghost evs: nat -> seq<B.ChainEvent>)
    returns (claimed: bool, ending: Ending, origin: int, queried: nat)
    requires worker != "" && HighestBlock(db.rows, contract) >= 0
    requires O.PlainWorld(w) && O.Current(outbox.rows) && Plain(contract) && B.Rising(time) && Smooth(w, s)
    requires EverHonest(w, time, contract, replies, ScanOrigin(HighestBlock(db.rows, contract), startBlock, latest), latest, evs)
    modifies db, outbox
    ensures !claimed ==> outbox.rows == old(outbox.rows)
    ensures claimed ==> O.Adds(old(outbox.rows), outbox.rows, O.Expected(w, AskedBy(contract, replies, queried)))
    ensures claimed && ending.Finished? && origin < latest && BothEnds(replies, origin, latest, queried) ==>
              O.Adds(old(outbox.rows), outbox.rows, O.Expected(w, SpanOfBlocks(contract, origin + 1, latest)))
    ensures claimed ==> (ending.Finished? <==> forall k: nat :: HasBatch(origin, latest, k) ==> Answered(replies(k)))
  {
    claimed, ending, origin, queried := ScanTrc20(db, outbox, contract, worker, latest, startBlock, retain, s, replies);
    if claimed {
      CountsBatches(origin, latest, queried);
      BatchesOutcome(w, time, s, contract, replies, origin, latest, queried, evs, old(outbox.rows));
    }
  }

  /** The same for a replay of [lo, hi]. */
  method ReplayContract(outbox: O.OutboxTable, contract: string, lo: int, hi: int, s: Setting, replies: nat -> BatchReplies,
                        ghost w: O.World, ghost time: int -> int, ghost evs: nat -> seq<B.ChainEvent>)
    returns (ok: bool, done: nat)
    requires O.PlainWorld(w) && O.Current(outbox.rows) && Plain(contract) && B.Rising(time) && Smooth(w, s)
    requires EverHonest(w, time, contract, replies, lo - 1, hi, evs)
    modifies outbox
    ensures O.Adds(old(outbox.rows), outbox.rows, O.Expected(w, AskedBy(contract, replies, done)))
    ensures ok && lo <= hi && BothEnds(replies, lo - 1, hi, done) ==>
              O.Adds(old(outbox.rows), outbox.rows, O.Expected(w, SpanOfBlocks(contract, lo, hi)))
  {
    ok, done := ReplayTrc20Range(outbox, contract, lo, hi, s, replies);
    BatchesOutcome(w, time, s, contract, replies, lo - 1, hi, done, evs, old(outbox.rows));
  }

  // ----- A scan or a replay of the native transfers

  /** What matched in a block that came back is what the watchlist matches in it. */
  ghost predicate HonestBlocks(w: O.World, tip: int, replies: nat -> BlockReplies, origin: int, k: nat) {
    forall i: nat :: i < k && replies(i).matched.Some? ==> replies(i).matched.value == O.BlockEvents(w, O.TRX, origin + 1 + i, tip)
  }

  ghost predicate EverHonestBlocks(w: O.World, tip: int, replies: nat -> BlockReplies, origin: int) {
    forall k: nat :: HonestBlocks(w, tip, replies, origin, k)
  }

  /** The blocks among the first `k` that came back. */
  ghost function Came(replies: nat -> BlockReplies, origin: int, k: nat): set<(string, int)> {
    if k == 0 then {} else Came(replies, origin, k - 1) + OneCame(replies, origin, k - 1)
  }

  lemma BlockRowsAdd(w: O.World, s: Setting, block: int, rows: O.Rows)
    requires O.PlainWorld(w) && O.Current(rows) && Smooth(w, s)
    ensures var after := BlockRows(s, rows, O.BlockEvents(w, O.TRX, block, s.tip));
            O.Current(after) && O.Adds(rows, after, O.Expected(w, {(O.TRX, block)}))
  {
    var events := O.BlockEvents(w, O.TRX, block, s.tip);
    O.NoErrorCutsNothing(events, s.endpoints, s.oversized);
    O.PublishAddsKeys(rows, O.TRX, events, w.endpoints);
    BlockShape(w, O.TRX, block, s.tip);
    OneExpected(w, O.TRX, block);
  }

  lemma OneExpected(w: O.World, scope: string, block: int)
    ensures O.Expected(w, {(scope, block)}) == O.BlockKeys(w, scope, block)
  {
    var one := (scope, block);
    assert one.0 == scope && one.1 == block;
    forall k
      ensures k in O.Expected(w, {one}) <==> k in O.BlockKeys(w, scope, block)
    {
      if k in O.BlockKeys(w, scope, block) {
        assert one in {one} && k in O.BlockKeys(w, one.0, one.1);
      }
    }
  }

  /** What block `k` adds: its keys if it came back, else nothing. */
  ghost function OneCame(replies: nat -> BlockReplies, origin: int, k: nat): set<(string, int)> {
    if replies(k).matched.Some? then {(O.TRX, origin + 1 + k)} else {}
  }

  lemma BlockAdds(w: O.World, s: Setting, replies: nat -> BlockReplies, origin: int, k: nat, rows: O.Rows, sound: O.Rows -> bool)
    requires O.PlainWorld(w) && sound(rows) && Names(sound) && Smooth(w, s) && HonestBlocks(w, s.tip, replies, origin, k + 1)
    ensures var after := AfterBlock(rows, s, replies(k));
            sound(after) && O.Adds(rows, after, O.Expected(w, OneCame(replies, origin, k)))
  {
    if replies(k).matched.Some? {
      assert O.Current(rows);
      BlockRowsAdd(w, s, origin + 1 + k, rows);
    } else {
      NothingExpected(w);
    }
  }

  lemma {:induction false} NativeStaysCurrent(w: O.World, s: Setting, replies: nat -> BlockReplies, origin: int, k: nat, rows: O.Rows, sound: O.Rows -> bool)
    requires O.PlainWorld(w) && sound(rows) && Names(sound) && Smooth(w, s) && HonestBlocks(w, s.tip, replies, origin, k)
    ensures sound(AfterBlocks(rows, s, replies, k))
  {
    if k == 0 {
    } else {
      NativeStaysCurrent(w, s, replies, origin, k - 1, rows, sound);
      BlockAdds(w, s, replies, origin, k - 1, AfterBlocks(rows, s, replies, k - 1), sound);
    }
  }

  ghost predicate BlockStepAdds(w: O.World, s: Setting, replies: nat -> BlockReplies, origin: int, k: nat, rows: O.Rows) {
    O.Adds(AfterBlocks(rows, s, replies, k), AfterBlocks(rows, s, replies, k + 1), O.Expected(w, OneCame(replies, origin, k)))
  }

  lemma EachBlockAdds(w: O.World, s: Setting, replies: nat -> BlockReplies, origin: int, k: nat, rows: O.Rows, sound: O.Rows -> bool)
    requires O.PlainWorld(w) && sound(rows) && Names(sound) && Smooth(w, s) && HonestBlocks(w, s.tip, replies, origin, k + 1)
    ensures BlockStepAdds(w, s, replies, origin, k, rows)
  {
    NativeStaysCurrent(w, s, replies, origin, k, rows, sound);
    BlockAdds(w, s, replies, origin, k, AfterBlocks(rows, s, replies, k), sound);
  }

  lemma {:induction false} BlocksAddUp(w: O.World, s: Setting, replies: nat -> BlockReplies, origin: int, k: nat, rows: O.Rows)
    requires forall i: nat :: i < k ==> BlockStepAdds(w, s, replies, origin, i, rows)
    ensures O.Adds(rows, AfterBlocks(rows, s, replies, k), O.Expected(w, Came(replies, origin, k)))
  {
    if k == 0 {
      NothingExpected(w);
    } else {
      BlocksAddUp(w, s, replies, origin, k - 1, rows);
      assert BlockStepAdds(w, s, replies, origin, k - 1, rows);
      AddsBoth(w, rows, AfterBlocks(rows, s, replies, k - 1), AfterBlocks(rows, s, replies, k),
               Came(replies, origin, k - 1), OneCame(replies, origin, k - 1));
    }
  }

  /** Wherever a native loop stops: the outbox has its old rows and exactly the keys of the blocks that came back. */
  lemma BlocksAdd(w: O.World, s: Setting, replies: nat -> BlockReplies, origin: int, k: nat, rows: O.Rows)
    requires O.PlainWorld(w) && O.Current(rows) && Smooth(w, s) && HonestBlocks(w, s.tip, replies, origin, k)
    ensures O.Adds(rows, AfterBlocks(rows, s, replies, k), O.Expected(w, Came(replies, origin, k)))
  {
    var sound := (r: O.Rows) => O.Current(r);
    assert sound(rows);
    forall i: nat | i < k
      ensures BlockStepAdds(w, s, replies, origin, i, rows)
    {
      EachBlockAdds(w, s, replies, origin, i, rows, sound);
    }
    BlocksAddUp(w, s, replies, origin, k, rows);
  }

  lemma {:induction false} CameIsRange(replies: nat -> BlockReplies, origin: int, k: nat)
    requires forall i: nat :: i < k ==> replies(i).matched.Some?
    ensures Came(replies, origin, k) == SpanOfBlocks(O.TRX, origin + 1, origin + k)
  {
    if k == 0 {
    } else {
      CameIsRange(replies, origin, k - 1);
      SpansMeet(O.TRX, origin + 1, origin + k - 1, origin + k);
      assert SpanOfBlocks(O.TRX, origin + k, origin + k) == {(O.TRX, origin + k)};
    }
  }

  /** A native scan against an honest node: wherever it stops the outbox has gained exactly the keys of the blocks
      that came back, and when it finishes and none was missing, those of all blocks from its origin to its target. */
  method ScanNative(db: CursorTable, outbox: O.OutboxTable, worker: string, origin: int, latest: int, s: Setting,
                    replies: nat -> BlockReplies, ghost w: O.World)
    returns (ending: Ending, passed: nat)
    requires OnlyScope(db.rows, db.rows, O.TRX, worker) && db.rows[O.TRX].highest <= origin
    requires O.PlainWorld(w) && O.Current(outbox.rows) && Smooth(w, s)
    requires EverHonestBlocks(w, s.tip, replies, origin)
    modifies db, outbox
    ensures O.Adds(old(outbox.rows), outbox.rows, O.Expected(w, Came(replies, origin, passed)))
    ensures ending.Finished? && origin <= latest && (forall i: nat :: i < passed ==> replies(i).matched.Some?) ==>
              O.Adds(old(outbox.rows), outbox.rows, O.Expected(w, SpanOfBlocks(O.TRX, origin + 1, latest)))
    ensures ending.Finished? <==> forall k: nat :: k < latest - origin ==> Good(replies(k))
  {
    ghost var committed;
    ending, passed, committed := ScanTrxWithLease(db, outbox, worker, origin, latest, s, replies);
    BlocksAdd(w, s, replies, origin, passed, old(outbox.rows));
    if ending.Finished? && origin <= latest && forall i: nat :: i < passed ==> replies(i).matched.Some? {
      CameIsRange(replies, origin, passed);
    }
  }

  /** The same for a replay of [lo, hi]. */
  method ReplayNative(outbox: O.OutboxTable, lo: int, hi: int, s: Setting, fetch: nat -> (Reply, map<int, seq<RawEvent>>), ghost w: O.World)
    returns (ok: bool, passed: nat)
    requires O.PlainWorld(w) && O.Current(outbox.rows) && Smooth(w, s)
    requires EverHonestBlocks(w, s.tip, Replayed(lo, fetch), lo - 1)
    modifies outbox
    ensures O.Adds(old(outbox.rows), outbox.rows, O.Expected(w, Came(Replayed(lo, fetch), lo - 1, passed)))
    ensures ok && lo <= hi && (forall i: nat :: i < passed ==> Replayed(lo, fetch)(i).matched.Some?) ==>
              O.Adds(old(outbox.rows), outbox.rows, O.Expected(w, SpanOfBlocks(O.TRX, lo, hi)))
  {
    ok, passed := ReplayTrxRange(outbox, lo, hi, s, fetch);
    BlocksAdd(w, s, Replayed(lo, fetch), lo - 1, passed, old(outbox.rows));
    if ok && lo <= hi && forall i: nat :: i < passed ==> Replayed(lo, fetch)(i).matched.Some? {
      CameIsRange(Replayed(lo, fetch), lo - 1, passed);
    }
  }
}
