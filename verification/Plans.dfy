/** What a batch plans to enqueue: only events of watched transfers on the chain, and for each block whose
    transfers were all at hand an event under every batch key that the block calls for. */
module Plans {
  import opened Base
  import opened TransferKeys
  import O = Outbox
  import B = BatchWindow
  import P = ScanProtocol

  // ----- Which events a plan holds

  lemma {:induction false} InMatchAll(active: set<string>, scope: string, ts: seq<O.Transfer>, block: int, tip: int, e: RawEvent)
    ensures e in O.MatchAll(active, scope, ts, block, tip) <==>
            exists i :: 0 <= i < |ts| && e in O.Matches(active, scope, ts[i], block, tip)
  {
    if ts == [] {
    } else {
      InMatchAll(active, scope, ts[1..], block, tip, e);
      if e in O.MatchAll(active, scope, ts[1..], block, tip) {
        var i :| 0 <= i < |ts[1..]| && e in O.Matches(active, scope, ts[1..][i], block, tip);
        assert ts[i + 1] == ts[1..][i];
      }
      if i :| 0 < i < |ts| && e in O.Matches(active, scope, ts[i], block, tip) {
        assert ts[1..][i - 1] == ts[i];
      }
    }
  }

  lemma {:induction false} InMatchEvents(active: set<string>, contract: string, evs: seq<B.ChainEvent>, tip: int, e: RawEvent)
    ensures e in B.MatchEvents(active, contract, evs, tip) <==>
            exists i :: 0 <= i < |evs| && e in O.Matches(active, contract, evs[i].transfer, evs[i].block, tip)
  {
    if evs == [] {
    } else {
      InMatchEvents(active, contract, evs[1..], tip, e);
      if e in B.MatchEvents(active, contract, evs[1..], tip) {
        var i :| 0 <= i < |evs[1..]| && e in O.Matches(active, contract, evs[1..][i].transfer, evs[1..][i].block, tip);
        assert evs[i + 1] == evs[1..][i];
      }
      if i :| 0 < i < |evs| && e in O.Matches(active, contract, evs[i].transfer, evs[i].block, tip) {
        assert evs[1..][i - 1] == evs[i];
      }
    }
  }

  lemma {:induction false} InBatchEvents(w: O.World, scope: string, blocks: seq<int>, tip: int, e: RawEvent)
    ensures e in O.BatchEvents(w, scope, blocks, tip) <==> exists b :: b in blocks && e in O.BlockEvents(w, scope, b, tip)
  {
    if blocks == [] {
    } else {
      InBatchEvents(w, scope, blocks[1..], tip, e);
      assert blocks == [blocks[0]] + blocks[1..];
    }
  }

  lemma {:induction false} InPresent(lo: int, hi: int, returned: set<int>, b: int)
    ensures b in P.Present(lo, hi, returned) <==> lo <= b <= hi && b in returned
    decreases hi - lo
  {
    if hi < lo {
    } else {
      InPresent(lo + 1, hi, returned, b);
    }
  }

  lemma {:induction false} InDistinct(key: RawEvent -> string, evs: seq<RawEvent>, seen: set<string>, e: RawEvent)
    ensures e in O.Distinct(key, evs, seen) ==> e in evs
    decreases |evs|
  {
    if evs == [] {
    } else {
      InDistinct(key, evs[1..], seen, e);
      InDistinct(key, evs[1..], seen + {key(evs[0])}, e);
    }
  }

  lemma {:induction false} InGrouped(evs: seq<RawEvent>, lo: int, hi: int, e: RawEvent)
    ensures e in B.Grouped(evs, lo, hi) <==> e in evs && lo <= e.block <= hi
    decreases hi - lo
  {
    if hi < lo {
    } else {
      InGrouped(evs, lo + 1, hi, e);
      B.OfBlockMembers(evs, lo, e);
    }
  }

  lemma {:induction false} InKeySet(key: RawEvent -> string, evs: seq<RawEvent>, k: string)
    ensures k in B.KeySet(key, evs) <==> exists i :: 0 <= i < |evs| && key(evs[i]) == k
  {
    if evs == [] {
    } else {
      InKeySet(key, evs[1..], k);
      if k in B.KeySet(key, evs[1..]) {
        var i :| 0 <= i < |evs[1..]| && key(evs[1..][i]) == k;
        assert evs[i + 1] == evs[1..][i];
      }
      if i :| 0 < i < |evs| && key(evs[i]) == k {
        assert evs[1..][i - 1] == evs[i];
      }
    }
  }

  /** Dropping repeats keeps every key. */
  lemma {:induction false} DistinctKeys(key: RawEvent -> string, evs: seq<RawEvent>, seen: set<string>)
    ensures B.KeySet(key, O.Distinct(key, evs, seen)) + seen == B.KeySet(key, evs) + seen
    decreases |evs|
  {
    if evs == [] {
    } else {
      var k := key(evs[0]);
      if k in seen {
        DistinctKeys(key, evs[1..], seen);
      } else {
        DistinctKeys(key, evs[1..], seen + {k});
        var rest := O.Distinct(key, evs[1..], seen + {k});
        assert ([evs[0]] + rest)[1..] == rest;
        assert B.KeySet(key, O.Distinct(key, evs, seen)) == {k} + B.KeySet(key, rest);
      }
    }
  }

  // ----- The events of one block

  /** The events of a block differ between tips in nothing that a key depends on. */
  lemma {:induction false} OnlyTipDiffers(active: set<string>, scope: string, ts: seq<O.Transfer>, block: int, tip: int)
    ensures |O.MatchAll(active, scope, ts, block, tip)| == |O.MatchAll(active, scope, ts, block, 0)|
    ensures forall i :: 0 <= i < |O.MatchAll(active, scope, ts, block, tip)| ==>
                          O.SameButTip(O.MatchAll(active, scope, ts, block, tip)[i], O.MatchAll(active, scope, ts, block, 0)[i])
  {
    if ts == [] {
    } else {
      OnlyTipDiffers(active, scope, ts[1..], block, tip);
      assert |O.Matches(active, scope, ts[0], block, tip)| == |O.Matches(active, scope, ts[0], block, 0)|;
    }
  }

  lemma SameBatchKey(a: RawEvent, b: RawEvent)
    requires O.SameButTip(a, b)
    ensures TransferEventKey(a) == TransferEventKey(b)
  {
    assert a.txHash == b.txHash && a.direction == b.direction && a.from == b.from && a.to == b.to && a.amount == b.amount;
  }

  lemma {:induction false} BlockOf(active: set<string>, scope: string, ts: seq<O.Transfer>, block: int, tip: int)
    ensures forall e :: e in O.MatchAll(active, scope, ts, block, tip) ==> e.block == block
  {
    if ts == [] {
    } else {
      BlockOf(active, scope, ts[1..], block, tip);
    }
  }

  lemma BlockShape(w: O.World, scope: string, b: int, tip: int)
    requires O.PlainWorld(w)
    ensures O.OneKind(scope, O.BlockEvents(w, scope, b, tip))
    ensures O.EventKeys(scope, O.BlockEvents(w, scope, b, tip), w.endpoints) == O.BlockKeys(w, scope, b)
    ensures forall e :: e in O.BlockEvents(w, scope, b, tip) ==> e.block == b
  {
    if (scope, b) in w.chain {
      O.MatchAllShape(w, scope, w.chain[(scope, b)], b, tip);
      BlockOf(w.active, scope, w.chain[(scope, b)], b, tip);
    }
  }

  /** An event stands for a watched transfer of its block on the chain. */
  ghost predicate Real(w: O.World, scope: string, e: RawEvent) {
    && PlainEvent(e) && e.kind == (if scope == O.TRX then Trx else Trc20)
    && O.KeysOf(scope, e, w.endpoints) <= O.BlockKeys(w, scope, e.block)
  }

  lemma BlockEventIsReal(w: O.World, scope: string, b: int, tip: int, e: RawEvent)
    requires O.PlainWorld(w) && e in O.BlockEvents(w, scope, b, tip)
    ensures Real(w, scope, e) && e.block == b
  {
    BlockShape(w, scope, b, tip);
    var evs := O.BlockEvents(w, scope, b, tip);
    var i :| 0 <= i < |evs| && evs[i] == e;
    forall k | k in O.KeysOf(scope, e, w.endpoints)
      ensures k in O.BlockKeys(w, scope, b)
    {
      O.EventKeysMembers(scope, evs, w.endpoints, k);
    }
  }

  /** The event is that of a watched role of a transfer of its block. */
  ghost predicate OfWatched(w: O.World, scope: string, tip: int, e: RawEvent) {
    && (scope, e.block) in w.chain
    && exists i, d ::
         && 0 <= i < |w.chain[(scope, e.block)]| && e == O.EventOf(scope, w.chain[(scope, e.block)][i], d, e.block, tip)
         && O.Party(w.chain[(scope, e.block)][i], d) != "" && O.Party(w.chain[(scope, e.block)][i], d) in w.active
  }

  lemma BlockEventIsOfWatched(w: O.World, scope: string, b: int, tip: int, e: RawEvent)
    requires e in O.BlockEvents(w, scope, b, tip)
    ensures OfWatched(w, scope, tip, e) && e.block == b
  {
    O.MatchAllIff(w.active, scope, w.chain[(scope, b)], b, tip, e);
  }

  /** A match of an event on the chain is an event of its block. */
  lemma ChainMatch(w: O.World, scope: string, c: B.ChainEvent, tip: int, e: RawEvent)
    requires P.OnChain(w, scope, c) && e in O.Matches(w.active, scope, c.transfer, c.block, tip)
    ensures e in O.BlockEvents(w, scope, c.block, tip)
  {
    var ts := w.chain[(scope, c.block)];
    var i :| 0 <= i < |ts| && ts[i] == c.transfer;
    InMatchAll(w.active, scope, ts, c.block, tip, e);
  }

  // ----- The plan of a batch

  /** All transfers of the block were at hand. */
  predicate Whole(w: O.World, scope: string, batch: P.Batch, b: int) {
    if scope == P.TRX then b in batch.returned else P.InSpan(batch.returned, b) && P.Indexed(w, scope, batch.fetched, b)
  }

  ghost predicate AllReal(w: O.World, scope: string, queue: seq<RawEvent>, lo: int, hi: int) {
    forall i :: 0 <= i < |queue| ==> Real(w, scope, queue[i]) && lo <= queue[i].block <= hi
  }

  ghost predicate AllOnChain(w: O.World, scope: string, evs: seq<B.ChainEvent>) {
    forall i :: 0 <= i < |evs| ==> P.OnChain(w, scope, evs[i])
  }

  lemma {:induction false} AnswerIsOnChain(cfg: P.Config, scope: string, returned: set<int>, events: seq<B.ChainEvent>)
    ensures AllOnChain(cfg.world, scope, P.Answer(cfg, scope, returned, events))
  {
    if events == [] {
    } else {
      AnswerIsOnChain(cfg, scope, returned, events[1..]);
    }
  }

  lemma PlanIsReal(cfg: P.Config, scope: string, lo: int, hi: int, returned: set<int>, fetched: seq<B.ChainEvent>, tip: int)
    requires O.PlainWorld(cfg.world) && AllOnChain(cfg.world, scope, fetched)
    ensures AllReal(cfg.world, scope, P.Plan(cfg, scope, lo, hi, returned, fetched, tip), lo, hi)
    ensures forall e :: e in P.Plan(cfg, scope, lo, hi, returned, fetched, tip) ==> OfWatched(cfg.world, scope, tip, e)
  {
    var plan := P.Plan(cfg, scope, lo, hi, returned, fetched, tip);
    forall i | 0 <= i < |plan|
      ensures Real(cfg.world, scope, plan[i]) && lo <= plan[i].block <= hi && OfWatched(cfg.world, scope, tip, plan[i])
    {
      if scope == P.TRX {
        TrxPlanned(cfg.world, lo, hi, returned, tip, plan[i]);
      } else {
        ContractPlanned(cfg.world, scope, lo, hi, fetched, tip, plan[i]);
      }
    }
  }

  lemma TrxPlanned(w: O.World, lo: int, hi: int, returned: set<int>, tip: int, e: RawEvent)
    requires O.PlainWorld(w) && e in O.BatchEvents(w, P.TRX, P.Present(lo, hi, returned), tip)
    ensures Real(w, P.TRX, e) && lo <= e.block <= hi && OfWatched(w, P.TRX, tip, e)
  {
    InBatchEvents(w, P.TRX, P.Present(lo, hi, returned), tip, e);
    var b :| b in P.Present(lo, hi, returned) && e in O.BlockEvents(w, P.TRX, b, tip);
    InPresent(lo, hi, returned, b);
    BlockEventIsReal(w, P.TRX, b, tip, e);
    BlockEventIsOfWatched(w, P.TRX, b, tip, e);
  }

  lemma ContractPlanned(w: O.World, scope: string, lo: int, hi: int, fetched: seq<B.ChainEvent>, tip: int, e: RawEvent)
    requires O.PlainWorld(w) && AllOnChain(w, scope, fetched)
    requires e in B.Grouped(O.Distinct(TransferEventKey, B.MatchedWithin(w.active, scope, fetched, lo, hi, tip), {}), lo, hi)
    ensures Real(w, scope, e) && lo <= e.block <= hi && OfWatched(w, scope, tip, e)
  {
    var matched := B.MatchedWithin(w.active, scope, fetched, lo, hi, tip);
    InGrouped(O.Distinct(TransferEventKey, matched, {}), lo, hi, e);
    InDistinct(TransferEventKey, matched, {}, e);
    var within := B.OfBlocks(fetched, lo, hi);
    InMatchEvents(w.active, scope, within, tip, e);
    var i :| 0 <= i < |within| && e in O.Matches(w.active, scope, within[i].transfer, within[i].block, tip);
    B.BlockFilterKeeps(fetched, lo, hi, within[i]);
    var j :| 0 <= j < |fetched| && fetched[j] == within[i];
    ChainMatch(w, scope, within[i], tip, e);
    BlockEventIsReal(w, scope, within[i].block, tip, e);
    BlockEventIsOfWatched(w, scope, within[i].block, tip, e);
  }

  /** The batch key of every event of the block is planned. */
  ghost predicate Planned(w: O.World, scope: string, queue: seq<RawEvent>, b: int) {
    forall i :: 0 <= i < |O.BlockEvents(w, scope, b, 0)| ==>
                  TransferEventKey(O.BlockEvents(w, scope, b, 0)[i]) in B.KeySet(TransferEventKey, queue)
  }

  lemma PlanHoldsWhole(cfg: P.Config, scope: string, lo: int, hi: int, returned: set<int>, fetched: seq<B.ChainEvent>, tip: int, b: int)
    requires lo <= b <= hi && Whole(cfg.world, scope, P.NewBatch(cfg, scope, lo, hi, returned, fetched, tip), b)
    ensures Planned(cfg.world, scope, P.Plan(cfg, scope, lo, hi, returned, fetched, tip), b)
  {
    var plan, first := P.Plan(cfg, scope, lo, hi, returned, fetched, tip), O.BlockEvents(cfg.world, scope, b, 0);
    var now := O.BlockEvents(cfg.world, scope, b, tip);
    if (scope, b) in cfg.world.chain {
      OnlyTipDiffers(cfg.world.active, scope, cfg.world.chain[(scope, b)], b, tip);
    }
    forall i | 0 <= i < |first|
      ensures TransferEventKey(first[i]) in B.KeySet(TransferEventKey, plan)
    {
      SameBatchKey(now[i], first[i]);
      if scope == P.TRX {
        TrxHolds(cfg.world, lo, hi, returned, tip, b, now[i]);
      } else {
        ContractHolds(cfg.world, scope, lo, hi, fetched, tip, b, now[i]);
      }
    }
  }

  lemma TrxHolds(w: O.World, lo: int, hi: int, returned: set<int>, tip: int, b: int, e: RawEvent)
    requires lo <= b <= hi && b in returned && e in O.BlockEvents(w, P.TRX, b, tip)
    ensures TransferEventKey(e) in B.KeySet(TransferEventKey, O.BatchEvents(w, P.TRX, P.Present(lo, hi, returned), tip))
  {
    InPresent(lo, hi, returned, b);
    InBatchEvents(w, P.TRX, P.Present(lo, hi, returned), tip, e);
    InKeySet(TransferEventKey, O.BatchEvents(w, P.TRX, P.Present(lo, hi, returned), tip), TransferEventKey(e));
  }

  lemma MatchedHolds(w: O.World, scope: string, lo: int, hi: int, fetched: seq<B.ChainEvent>, tip: int, b: int, e: RawEvent)
    requires lo <= b <= hi && P.Indexed(w, scope, fetched, b) && e in O.BlockEvents(w, scope, b, tip)
    ensures e in B.MatchedWithin(w.active, scope, fetched, lo, hi, tip)
  {
    var ts := w.chain[(scope, b)];
    InMatchAll(w.active, scope, ts, b, tip, e);
    var i :| 0 <= i < |ts| && e in O.Matches(w.active, scope, ts[i], b, tip);
    var c, within := B.ChainEvent(b, ts[i]), B.OfBlocks(fetched, lo, hi);
    B.BlockFilterKeeps(fetched, lo, hi, c);
    var j :| 0 <= j < |within| && within[j] == c;
    InMatchEvents(w.active, scope, within, tip, e);
  }

  lemma DistinctInBlocks(key: RawEvent -> string, evs: seq<RawEvent>, lo: int, hi: int, k: string)
    requires k in B.KeySet(key, evs) && forall e :: e in evs ==> lo <= e.block <= hi
    ensures k in B.KeySet(key, B.Grouped(O.Distinct(key, evs, {}), lo, hi))
  {
    var kept := O.Distinct(key, evs, {});
    DistinctKeys(key, evs, {});
    assert k in B.KeySet(key, kept) + {};
    InKeySet(key, kept, k);
    var i :| 0 <= i < |kept| && key(kept[i]) == k;
    InDistinct(key, evs, {}, kept[i]);
    InGrouped(kept, lo, hi, kept[i]);
    var grouped := B.Grouped(kept, lo, hi);
    var j :| 0 <= j < |grouped| && grouped[j] == kept[i];
    InKeySet(key, grouped, k);
  }

  lemma ContractHolds(w: O.World, scope: string, lo: int, hi: int, fetched: seq<B.ChainEvent>, tip: int, b: int, e: RawEvent)
    requires lo <= b <= hi && P.Indexed(w, scope, fetched, b) && e in O.BlockEvents(w, scope, b, tip)
    ensures TransferEventKey(e) in B.KeySet(TransferEventKey,
                                            B.Grouped(O.Distinct(TransferEventKey, B.MatchedWithin(w.active, scope, fetched, lo, hi, tip), {}), lo, hi))
  {
    var matched := B.MatchedWithin(w.active, scope, fetched, lo, hi, tip);
    MatchedHolds(w, scope, lo, hi, fetched, tip, b, e);
    InKeySet(TransferEventKey, matched, TransferEventKey(e));
    B.MatchedInRange(w.active, scope, fetched, lo, hi, tip);
    DistinctInBlocks(TransferEventKey, matched, lo, hi, TransferEventKey(e));
  }

  // ----- When an answer is enough

  /** A chain whose block times rise, and whose transfers carry the time of their block. */
  ghost predicate Timed(w: O.World, time: int -> int) {
    && B.Rising(time)
    && forall v :: v in w.chain ==> forall i :: 0 <= i < |w.chain[v]| ==> w.chain[v][i].timestamp == time(v.1)
  }

  /** The index has caught up: the answer holds every event inside the window. */
  ghost predicate CaughtUp(cfg: P.Config, scope: string, returned: set<int>, events: seq<B.ChainEvent>) {
    forall c :: P.OnChain(cfg.world, scope, c) && P.InWindow(cfg.time, returned, c.transfer.timestamp) ==> c in events
  }

  lemma {:induction false} AnswerHolds(cfg: P.Config, scope: string, returned: set<int>, events: seq<B.ChainEvent>, c: B.ChainEvent)
    ensures c in P.Answer(cfg, scope, returned, events) <==>
            c in events && P.OnChain(cfg.world, scope, c) && P.InWindow(cfg.time, returned, c.transfer.timestamp)
  {
    if events == [] {
    } else {
      AnswerHolds(cfg, scope, returned, events[1..], c);
      assert events == [events[0]] + events[1..];
    }
  }

  lemma WindowIsSpan(time: int -> int, returned: set<int>, b: int)
    requires B.Rising(time)
    ensures P.InWindow(time, returned, time(b)) <==> P.InSpan(returned, b)
  {
    if P.InSpan(returned, b) {
      var x, y :| x in returned && y in returned && x <= b <= y;
      assert time(x) <= time(b) <= time(y);
    }
    if P.InWindow(time, returned, time(b)) {
      var x, y :| x in returned && y in returned && time(x) <= time(b) <= time(y);
      assert x <= b <= y;
    }
  }

  /** The two causes that concern the events query, exactly: once the index has caught up every block inside
      the span of the blocks returned is indexed; and of a block outside the span no event is ever answered. */
  lemma SpanIsIndexed(cfg: P.Config, scope: string, returned: set<int>, events: seq<B.ChainEvent>, b: int)
    requires Timed(cfg.world, cfg.time)
    ensures CaughtUp(cfg, scope, returned, events) && P.InSpan(returned, b) ==>
              P.Indexed(cfg.world, scope, P.Answer(cfg, scope, returned, events), b)
    ensures !P.InSpan(returned, b) ==>
              forall c :: c in P.Answer(cfg, scope, returned, events) ==> c.block != b
  {
    WindowIsSpan(cfg.time, returned, b);
    if CaughtUp(cfg, scope, returned, events) && P.InSpan(returned, b) && (scope, b) in cfg.world.chain {
      var ts := cfg.world.chain[(scope, b)];
      forall i | 0 <= i < |ts|
        ensures B.ChainEvent(b, ts[i]) in P.Answer(cfg, scope, returned, events)
      {
        AnswerHolds(cfg, scope, returned, events, B.ChainEvent(b, ts[i]));
      }
    }
    if !P.InSpan(returned, b) {
      forall c | c in P.Answer(cfg, scope, returned, events)
        ensures c.block != b
      {
        AnswerHolds(cfg, scope, returned, events, c);
        var ts := cfg.world.chain[(scope, c.block)];
        var i :| 0 <= i < |ts| && ts[i] == c.transfer;
        assert c.transfer.timestamp == cfg.time(c.block);
      }
    }
  }

  // ----- One complete batch, from the time window to the outbox

  /** `evs` are the events of a contract, all of them, in any order and with any repeats. */
  ghost predicate AllEvents(w: O.World, contract: string, evs: seq<B.ChainEvent>) {
    forall c :: c in evs <==> P.OnChain(w, contract, c)
  }

  ghost function SpanOfBlocks(contract: string, first: int, last: int): set<(string, int)> {
    set b | b in P.Range(first, last) :: (contract, b)
  }

  lemma MatchHasBlock(w: O.World, contract: string, evs: seq<B.ChainEvent>, first: int, last: int, tip: int, e: RawEvent)
    requires AllEvents(w, contract, evs) && e in B.MatchEvents(w.active, contract, B.OfBlocks(evs, first, last), tip)
    ensures first <= e.block <= last && e in O.BlockEvents(w, contract, e.block, tip)
  {
    var within := B.OfBlocks(evs, first, last);
    InMatchEvents(w.active, contract, within, tip, e);
    var i :| 0 <= i < |within| && e in O.Matches(w.active, contract, within[i].transfer, within[i].block, tip);
    B.BlockFilterKeeps(evs, first, last, within[i]);
    ChainMatch(w, contract, within[i], tip, e);
  }

  lemma BlockIsMatched(w: O.World, contract: string, evs: seq<B.ChainEvent>, first: int, last: int, tip: int, b: int, e: RawEvent)
    requires AllEvents(w, contract, evs) && first <= b <= last && e in O.BlockEvents(w, contract, b, tip)
    ensures e in B.MatchEvents(w.active, contract, B.OfBlocks(evs, first, last), tip)
  {
    var within, ts := B.OfBlocks(evs, first, last), w.chain[(contract, b)];
    InMatchAll(w.active, contract, ts, b, tip, e);
    var i :| 0 <= i < |ts| && e in O.Matches(w.active, contract, ts[i], b, tip);
    var c := B.ChainEvent(b, ts[i]);
    B.BlockFilterKeeps(evs, first, last, c);
    var j :| 0 <= j < |within| && within[j] == c;
    InMatchEvents(w.active, contract, within, tip, e);
  }

  lemma SpanKeys(w: O.World, contract: string, evs: seq<B.ChainEvent>, first: int, last: int, tip: int)
    requires O.PlainWorld(w) && AllEvents(w, contract, evs)
    ensures var matched := B.MatchEvents(w.active, contract, B.OfBlocks(evs, first, last), tip);
            && O.OneKind(contract, matched)
            && O.EventKeys(contract, matched, w.endpoints) == O.Expected(w, SpanOfBlocks(contract, first, last))
  {
    var matched := B.MatchEvents(w.active, contract, B.OfBlocks(evs, first, last), tip);
    forall i | 0 <= i < |matched|
      ensures Real(w, contract, matched[i]) && first <= matched[i].block <= last
    {
      MatchHasBlock(w, contract, evs, first, last, tip, matched[i]);
      BlockEventIsReal(w, contract, matched[i].block, tip, matched[i]);
    }
    forall k
      ensures k in O.EventKeys(contract, matched, w.endpoints) <==> k in O.Expected(w, SpanOfBlocks(contract, first, last))
    {
      O.EventKeysMembers(contract, matched, w.endpoints, k);
      if k in O.EventKeys(contract, matched, w.endpoints) {
        var e :| e in matched && k in O.KeysOf(contract, e, w.endpoints);
        var i :| 0 <= i < |matched| && matched[i] == e;
        var v := (contract, e.block);
        assert e.block in P.Range(first, last);
        assert v in SpanOfBlocks(contract, first, last) && k in O.BlockKeys(w, v.0, v.1);
      }
      if k in O.Expected(w, SpanOfBlocks(contract, first, last)) {
        var v :| v in SpanOfBlocks(contract, first, last) && k in O.BlockKeys(w, v.0, v.1);
        KeyHasEvent(w, contract, v.1, tip, k);
        var e :| e in O.BlockEvents(w, contract, v.1, tip) && k in O.KeysOf(contract, e, w.endpoints);
        BlockIsMatched(w, contract, evs, first, last, tip, v.1, e);
      }
    }
  }

  lemma KeyHasEvent(w: O.World, scope: string, b: int, tip: int, k: string)
    requires O.PlainWorld(w) && k in O.BlockKeys(w, scope, b)
    ensures exists e :: e in O.BlockEvents(w, scope, b, tip) && k in O.KeysOf(scope, e, w.endpoints)
  {
    BlockShape(w, scope, b, tip);
    O.EventKeysMembers(scope, O.BlockEvents(w, scope, b, tip), w.endpoints, k);
  }

  /** From the chain to the outbox: a batch whose events query is answered in full for the time span of the
      blocks returned adds exactly the keys of the blocks from the lowest to the highest one returned. */
  lemma CompleteBatchAddsSpan(w: O.World, time: int -> int, contract: string, evs: seq<B.ChainEvent>, blocks: seq<B.Block>, lo: int, hi: int,
                              first: int, last: int, minTs: int, maxTs: int, tip: int, rows: O.Rows)
    requires O.PlainWorld(w) && O.Current(rows) && Plain(contract) && AllEvents(w, contract, evs)
    requires B.Rising(time) && B.OnChain(time, blocks, evs) && B.Spans(blocks, first, last) && B.SpanOf(blocks, minTs, maxTs)
    requires lo <= first && last <= hi
    ensures var kept := O.Distinct(TransferEventKey, B.MatchedWithin(w.active, contract, B.OfTime(evs, minTs, maxTs), lo, hi, tip), {});
            O.Adds(rows, O.Publish(rows, contract, B.Grouped(kept, lo, hi), w.endpoints), O.Expected(w, SpanOfBlocks(contract, first, last)))
  {
    var fetched := B.OfTime(evs, minTs, maxTs);
    B.TimeWindowIsBlockWindow(time, blocks, evs, lo, hi, first, last, minTs, maxTs);
    SpanKeys(w, contract, evs, first, last, tip);
    B.BatchAddsRangeKeys(rows, w.active, contract, fetched, lo, hi, tip, w.endpoints);
  }
}
