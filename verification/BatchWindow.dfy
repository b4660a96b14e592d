/** One batch of a TRC-20 contract: the events of a block range are asked for by the time span of
    its blocks, filtered back to the range, freed of repeats, grouped by block and published in block
    order. The claim: the outbox gains exactly the keys of the range's events. */
module BatchWindow {
  import opened TransferKeys
  import opened Outbox

  datatype Block = Block(number: int, timestamp: int)

  datatype ChainEvent = ChainEvent(block: int, transfer: Transfer)

  /** The smallest block time so far; zero doubles as "none yet". */
  function MinTime(blocks: seq<Block>): int {
    if blocks == [] then 0
    else
      var m, ts := MinTime(blocks[..|blocks| - 1]), blocks[|blocks| - 1].timestamp;
      if m == 0 || ts < m then ts else m
  }

  function MaxTime(blocks: seq<Block>): int {
    if blocks == [] then 0
    else
      var m, ts := MaxTime(blocks[..|blocks| - 1]), blocks[|blocks| - 1].timestamp;
      if ts > m then ts else m
  }

  /** The time window that is asked for. When all times are positive it is spanned by two of them. */
  method TimeSpan(blocks: seq<Block>) returns (minTs: int, maxTs: int)
    ensures minTs == MinTime(blocks) && maxTs == MaxTime(blocks)
    ensures blocks != [] && (forall i :: 0 <= i < |blocks| ==> blocks[i].timestamp > 0) ==> SpanOf(blocks, minTs, maxTs)
  {
    minTs, maxTs := 0, 0;
    for i := 0 to |blocks|
      invariant minTs == MinTime(blocks[..i]) && maxTs == MaxTime(blocks[..i])
      invariant i > 0 && (forall j :: 0 <= j < |blocks| ==> blocks[j].timestamp > 0) ==> minTs > 0 && SpanOf(blocks[..i], minTs, maxTs)
    {
      var ts := blocks[i].timestamp;
      assert blocks[..i + 1][..i] == blocks[..i];
      assert forall j :: 0 <= j < i ==> blocks[..i + 1][j] == blocks[..i][j];
      assert blocks[..i + 1][i] == blocks[i];
      if minTs == 0 || ts < minTs {
        minTs := ts;
      }
      if ts > maxTs {
        maxTs := ts;
      }
    }
    assert blocks[..|blocks|] == blocks;
  }

  function OfTime(evs: seq<ChainEvent>, minTs: int, maxTs: int): seq<ChainEvent> {
    if evs == [] then []
    else (if minTs <= evs[0].transfer.timestamp <= maxTs then [evs[0]] else []) + OfTime(evs[1..], minTs, maxTs)
  }

  function OfBlocks(evs: seq<ChainEvent>, lo: int, hi: int): seq<ChainEvent> {
    if evs == [] then [] else (if lo <= evs[0].block <= hi then [evs[0]] else []) + OfBlocks(evs[1..], lo, hi)
  }

  /** A chain whose block times are positive and rise with the block number. */
  ghost predicate Rising(time: int -> int) {
    (forall n :: time(n) > 0) && forall m, n :: m < n ==> time(m) < time(n)
  }

  ghost predicate OnChain(time: int -> int, blocks: seq<Block>, evs: seq<ChainEvent>) {
    && (forall i :: 0 <= i < |blocks| ==> blocks[i].timestamp == time(blocks[i].number))
    && (forall i :: 0 <= i < |evs| ==> evs[i].transfer.timestamp == time(evs[i].block))
  }

  /** `first` and `last` are the lowest and highest block of a response. */
  ghost predicate Spans(blocks: seq<Block>, first: int, last: int) {
    && (forall i :: 0 <= i < |blocks| ==> first <= blocks[i].number <= last)
    && (exists i :: 0 <= i < |blocks| && blocks[i].number == first)
    && (exists i :: 0 <= i < |blocks| && blocks[i].number == last)
  }

  ghost predicate SpanOf(blocks: seq<Block>, minTs: int, maxTs: int) {
    && (forall i :: 0 <= i < |blocks| ==> minTs <= blocks[i].timestamp <= maxTs)
    && (exists i :: 0 <= i < |blocks| && blocks[i].timestamp == minTs)
    && (exists i :: 0 <= i < |blocks| && blocks[i].timestamp == maxTs)
  }

  lemma {:induction false} WindowFilter(time: int -> int, evs: seq<ChainEvent>, lo: int, hi: int, first: int, last: int)
    requires Rising(time) && lo <= first <= last <= hi && OnChain(time, [], evs)
    ensures OfBlocks(OfTime(evs, time(first), time(last)), lo, hi) == OfBlocks(evs, first, last)
  {
    if evs == [] {
    } else {
      WindowFilter(time, evs[1..], lo, hi, first, last);
      var e := evs[0];
      assert e.transfer.timestamp == time(e.block);
      assert time(first) <= time(e.block) <= time(last) <==> first <= e.block <= last;
      var tail := OfTime(evs[1..], time(first), time(last));
      assert ([e] + tail)[0] == e && ([e] + tail)[1..] == tail;
      assert [] + tail == tail;
    }
  }

  /** The time-window query, filtered back to the batch, yields exactly the events between
      the lowest and the highest block that the range response contained. Blocks missing inside lose nothing;
      blocks missing at an end lose their events. */
  lemma TimeWindowIsBlockWindow(time: int -> int, blocks: seq<Block>, evs: seq<ChainEvent>, lo: int, hi: int,
                                first: int, last: int, minTs: int, maxTs: int)
    requires Rising(time) && OnChain(time, blocks, evs) && Spans(blocks, first, last) && SpanOf(blocks, minTs, maxTs)
    requires lo <= first && last <= hi
    ensures OfBlocks(OfTime(evs, minTs, maxTs), lo, hi) == OfBlocks(evs, first, last)
  {
    var f :| 0 <= f < |blocks| && blocks[f].number == first;
    var l :| 0 <= l < |blocks| && blocks[l].number == last;
    var a :| 0 <= a < |blocks| && blocks[a].timestamp == minTs;
    var b :| 0 <= b < |blocks| && blocks[b].timestamp == maxTs;
    assert first <= blocks[a].number && blocks[b].number <= last;
    assert minTs == time(first) && maxTs == time(last);
    WindowFilter(time, evs, lo, hi, first, last);
  }

  lemma {:induction false} BlockFilterKeeps(evs: seq<ChainEvent>, lo: int, hi: int, e: ChainEvent)
    ensures e in OfBlocks(evs, lo, hi) <==> e in evs && lo <= e.block <= hi
  {
    if evs == [] {
    } else {
      BlockFilterKeeps(evs[1..], lo, hi, e);
      assert evs == [evs[0]] + evs[1..];
    }
  }

  /** An event of the batch survives the window if and only if some returned block is at or
      below its own and some is at or above. */
  lemma EventKeptIff(time: int -> int, blocks: seq<Block>, evs: seq<ChainEvent>, lo: int, hi: int,
                     first: int, last: int, minTs: int, maxTs: int, e: ChainEvent)
    requires Rising(time) && OnChain(time, blocks, evs) && Spans(blocks, first, last) && SpanOf(blocks, minTs, maxTs)
    requires lo <= first && last <= hi && e in evs
    ensures e in OfBlocks(OfTime(evs, minTs, maxTs), lo, hi) <==>
            && (exists i :: 0 <= i < |blocks| && blocks[i].number <= e.block)
            && (exists i :: 0 <= i < |blocks| && e.block <= blocks[i].number)
  {
    TimeWindowIsBlockWindow(time, blocks, evs, lo, hi, first, last, minTs, maxTs);
    BlockFilterKeeps(evs, first, last, e);
    var f :| 0 <= f < |blocks| && blocks[f].number == first;
    var l :| 0 <= l < |blocks| && blocks[l].number == last;
  }

  // ----- Grouping by block

  function OfBlock(evs: seq<RawEvent>, block: int): seq<RawEvent> {
    if evs == [] then [] else (if evs[0].block == block then [evs[0]] else []) + OfBlock(evs[1..], block)
  }

  /** The events of each block in turn. */
  function Grouped(evs: seq<RawEvent>, lo: int, hi: int): seq<RawEvent>
    decreases hi - lo
  {
    if lo > hi then [] else OfBlock(evs, lo) + Grouped(evs, lo + 1, hi)
  }

  lemma {:induction false} OfBlockCount(evs: seq<RawEvent>, block: int, e: RawEvent)
    ensures multiset(OfBlock(evs, block))[e] == if e.block == block then multiset(evs)[e] else 0
  {
    if evs == [] {
    } else {
      OfBlockCount(evs[1..], block, e);
      assert evs == [evs[0]] + evs[1..];
      assert multiset(OfBlock(evs, block)) == multiset(if evs[0].block == block then [evs[0]] else []) + multiset(OfBlock(evs[1..], block));
    }
  }

  lemma {:induction false} GroupedCount(evs: seq<RawEvent>, lo: int, hi: int, e: RawEvent)
    ensures multiset(Grouped(evs, lo, hi))[e] == if lo <= e.block <= hi then multiset(evs)[e] else 0
    decreases hi - lo
  {
    if hi < lo {
    } else {
      OfBlockCount(evs, lo, e);
      GroupedCount(evs, lo + 1, hi, e);
    }
  }

  ghost predicate InRange(evs: seq<RawEvent>, lo: int, hi: int) {
    forall i :: 0 <= i < |evs| ==> lo <= evs[i].block <= hi
  }

  /** Grouping publishes every event exactly as often as it was kept. */
  lemma GroupedPermutes(evs: seq<RawEvent>, lo: int, hi: int)
    requires InRange(evs, lo, hi)
    ensures multiset(Grouped(evs, lo, hi)) == multiset(evs)
  {
    forall e: RawEvent
      ensures multiset(Grouped(evs, lo, hi))[e] == multiset(evs)[e]
    {
      GroupedCount(evs, lo, hi, e);
      if e in evs {
        var i :| 0 <= i < |evs| && evs[i] == e;
      }
    }
  }

  lemma SameEventsSameKeys(scope: string, a: seq<RawEvent>, b: seq<RawEvent>, eps: seq<Endpoint>)
    requires multiset(a) == multiset(b)
    ensures EventKeys(scope, a, eps) == EventKeys(scope, b, eps)
  {
    forall k
      ensures k in EventKeys(scope, a, eps) <==> k in EventKeys(scope, b, eps)
    {
      EventKeysMembers(scope, a, eps, k);
      EventKeysMembers(scope, b, eps, k);
      assert forall e: RawEvent :: e in a <==> e in multiset(a);
      assert forall e: RawEvent :: e in b <==> e in multiset(b);
    }
  }

  // ----- The loops of the batch

  function MatchEvents(active: set<string>, contract: string, evs: seq<ChainEvent>, tip: int): seq<RawEvent> {
    if evs == [] then []
    else Matches(active, contract, evs[0].transfer, evs[0].block, tip) + MatchEvents(active, contract, evs[1..], tip)
  }

  lemma {:induction false} MatchEventsAppend(active: set<string>, contract: string, a: seq<ChainEvent>, b: seq<ChainEvent>, tip: int)
    ensures MatchEvents(active, contract, a + b, tip) == MatchEvents(active, contract, a, tip) + MatchEvents(active, contract, b, tip)
  {
    if a == [] {
      assert a + b == b;
    } else {
      assert (a + b)[0] == a[0] && (a + b)[1..] == a[1..] + b;
      MatchEventsAppend(active, contract, a[1..], b, tip);
    }
  }

  lemma {:induction false} OfBlocksLast(evs: seq<ChainEvent>, e: ChainEvent, lo: int, hi: int)
    ensures OfBlocks(evs + [e], lo, hi) == OfBlocks(evs, lo, hi) + if lo <= e.block <= hi then [e] else []
  {
    if evs == [] {
      assert [e][1..] == [];
    } else {
      assert (evs + [e])[0] == evs[0] && (evs + [e])[1..] == evs[1..] + [e];
      OfBlocksLast(evs[1..], e, lo, hi);
      var head, tail := if lo <= evs[0].block <= hi then [evs[0]] else [], if lo <= e.block <= hi then [e] else [];
      assert head + (OfBlocks(evs[1..], lo, hi) + tail) == head + OfBlocks(evs[1..], lo, hi) + tail;
    }
  }

  function KeySet(key: RawEvent -> string, evs: seq<RawEvent>): set<string> {
    if evs == [] then {} else {key(evs[0])} + KeySet(key, evs[1..])
  }

  lemma {:induction false} DistinctLast(key: RawEvent -> string, evs: seq<RawEvent>, e: RawEvent, seen: set<string>)
    ensures Distinct(key, evs + [e], seen)
            == if key(e) in seen + KeySet(key, evs) then Distinct(key, evs, seen) else Distinct(key, evs, seen) + [e]
    ensures KeySet(key, evs + [e]) == KeySet(key, evs) + {key(e)}
  {
    if evs == [] {
      assert [e][1..] == [];
    } else {
      assert (evs + [e])[0] == evs[0] && (evs + [e])[1..] == evs[1..] + [e];
      DistinctLast(key, evs[1..], e, seen);
      DistinctLast(key, evs[1..], e, seen + {key(evs[0])});
    }
  }

  lemma {:induction false} OfBlockLast(evs: seq<RawEvent>, e: RawEvent, block: int)
    ensures OfBlock(evs + [e], block) == OfBlock(evs, block) + if e.block == block then [e] else []
  {
    if evs == [] {
      assert [e][1..] == [];
    } else {
      assert (evs + [e])[0] == evs[0] && (evs + [e])[1..] == evs[1..] + [e];
      OfBlockLast(evs[1..], e, block);
      var head, tail := if evs[0].block == block then [evs[0]] else [], if e.block == block then [e] else [];
      assert head + (OfBlock(evs[1..], block) + tail) == head + OfBlock(evs[1..], block) + tail;
    }
  }

  /** `byBlock` holds `kept` by block number. */
  ghost predicate Indexes(byBlock: map<int, seq<RawEvent>>, kept: seq<RawEvent>) {
    forall n :: (if n in byBlock then byBlock[n] else []) == OfBlock(kept, n)
  }

  lemma IndexesOneMore(byBlock: map<int, seq<RawEvent>>, kept: seq<RawEvent>, ev: RawEvent)
    requires Indexes(byBlock, kept)
    ensures Indexes(byBlock[ev.block := (if ev.block in byBlock then byBlock[ev.block] else []) + [ev]], kept + [ev])
  {
    forall n
      ensures OfBlock(kept + [ev], n) == OfBlock(kept, n) + if ev.block == n then [ev] else []
    {
      OfBlockLast(kept, ev, n);
    }
  }

  /** `byBlock` holds the distinct events of `evs` by block, and `seen` their keys. */
  ghost predicate Filed(key: RawEvent -> string, byBlock: map<int, seq<RawEvent>>, seen: set<string>, evs: seq<RawEvent>) {
    Indexes(byBlock, Distinct(key, evs, {})) && seen == KeySet(key, evs)
  }

  /** Files one event under its block unless its key was seen. */
  method FileOne(key: RawEvent -> string, ev: RawEvent, byBlock: map<int, seq<RawEvent>>, seen: set<string>, ghost before: seq<RawEvent>)
    returns (byBlock': map<int, seq<RawEvent>>, seen': set<string>)
    requires Filed(key, byBlock, seen, before)
    ensures Filed(key, byBlock', seen', before + [ev])
  {
    DistinctLast(key, before, ev, {});
    if key(ev) in seen {
      assert seen + {key(ev)} == seen;
      return byBlock, seen;
    }
    seen' := seen + {key(ev)};
    IndexesOneMore(byBlock, Distinct(key, before, {}), ev);
    byBlock' := byBlock[ev.block := (if ev.block in byBlock then byBlock[ev.block] else []) + [ev]];
  }

  /** Files the matched events of one chain event. */
  method FileMatches(key: RawEvent -> string, matched: seq<RawEvent>, byBlock: map<int, seq<RawEvent>>, seen: set<string>,
                     ghost before: seq<RawEvent>)
    returns (byBlock': map<int, seq<RawEvent>>, seen': set<string>)
    requires Filed(key, byBlock, seen, before)
    ensures Filed(key, byBlock', seen', before + matched)
  {
    byBlock', seen' := byBlock, seen;
    ghost var sofar := before;
    for i := 0 to |matched|
      invariant sofar == before + matched[..i]
      invariant Filed(key, byBlock', seen', sofar)
    {
      byBlock', seen' := FileOne(key, matched[i], byBlock', seen', sofar);
      sofar := sofar + [matched[i]];
    }
    assert sofar == before + matched;
  }

  /** The events that match among the fetched ones inside [lo, hi]. */
  function MatchedWithin(active: set<string>, contract: string, evs: seq<ChainEvent>, lo: int, hi: int, tip: int): seq<RawEvent> {
    MatchEvents(active, contract, OfBlocks(evs, lo, hi), tip)
  }

  lemma MatchStep(active: set<string>, contract: string, evs: seq<ChainEvent>, i: nat, lo: int, hi: int, tip: int)
    requires i < |evs|
    ensures var all := MatchedWithin(active, contract, evs[..i], lo, hi, tip);
            MatchedWithin(active, contract, evs[..i + 1], lo, hi, tip)
            == if lo <= evs[i].block <= hi then all + Matches(active, contract, evs[i].transfer, evs[i].block, tip) else all
  {
    var front, e := evs[..i], evs[i];
    assert evs[..i + 1] == front + [e];
    OfBlocksLast(front, e, lo, hi);
    MatchEventsAppend(active, contract, OfBlocks(front, lo, hi), [e], tip);
    assert [e][1..] == [] && MatchEvents(active, contract, [], tip) == [];
    assert OfBlocks(front, lo, hi) + [] == OfBlocks(front, lo, hi);
  }

  /** Matches the fetched events inside [lo, hi], drops repeats and files the rest by block. */
  method FileEvents(key: RawEvent -> string, active: set<string>, contract: string, fetched: seq<ChainEvent>, lo: int, hi: int, tip: int)
    returns (byBlock: map<int, seq<RawEvent>>)
    ensures Indexes(byBlock, Distinct(key, MatchedWithin(active, contract, fetched, lo, hi, tip), {}))
  {
    byBlock := map[];
    var seen: set<string> := {};
    ghost var all: seq<RawEvent> := [];
    for i := 0 to |fetched|
      invariant all == MatchedWithin(active, contract, fetched[..i], lo, hi, tip)
      invariant Filed(key, byBlock, seen, all)
    {
      var e := fetched[i];
      MatchStep(active, contract, fetched, i, lo, hi, tip);
      if e.block < lo || e.block > hi {
        continue;
      }
      var matched := Matches(active, contract, e.transfer, e.block, tip);
      byBlock, seen := FileMatches(key, matched, byBlock, seen, all);
      all := all + matched;
    }
    assert fetched[..|fetched|] == fetched;
  }

  /** Publishes the events fetched for [lo, hi] of a contract. Without enqueue errors the rows are
      those of publishing the distinct matched events block by block; an error costs the rest of its own
      block and nothing else. */
  method PublishBatch(outbox: OutboxTable, active: set<string>, contract: string, fetched: seq<ChainEvent>, lo: int, hi: int,
                      tip: int, endpoints: seq<Endpoint>, oversized: RawEvent -> bool)
    modifies outbox
    ensures var kept := Distinct(TransferEventKey, MatchedWithin(active, contract, fetched, lo, hi, tip), {});
            && outbox.rows == Publish(old(outbox.rows), contract, Surviving(kept, lo, hi, endpoints, oversized), endpoints)
            && ((forall e :: e in kept ==> !Fails(e, endpoints, oversized)) ==>
                  outbox.rows == Publish(old(outbox.rows), contract, Grouped(kept, lo, hi), endpoints))
  {
    var byBlock := FileEvents(TransferEventKey, active, contract, fetched, lo, hi, tip);
    ghost var kept := Distinct(TransferEventKey, MatchedWithin(active, contract, fetched, lo, hi, tip), {});
    CommitBlocks(outbox, contract, byBlock, lo, hi, endpoints, oversized, kept);
    if forall e :: e in kept ==> !Fails(e, endpoints, oversized) {
      AllSurvive(kept, lo, hi, endpoints, oversized);
    }
  }

  lemma {:induction false} PublishAppend(rows: Rows, scope: string, a: seq<RawEvent>, b: seq<RawEvent>, eps: seq<Endpoint>)
    ensures Publish(rows, scope, a + b, eps) == Publish(Publish(rows, scope, a, eps), scope, b, eps)
    decreases |a|
  {
    if a == [] {
      assert a + b == b;
    } else {
      assert (a + b)[0] == a[0] && (a + b)[1..] == a[1..] + b;
      PublishAppend(FanOut(rows, scope, a[0], eps, {}), scope, a[1..], b, eps);
    }
  }

  /** What reaches the outbox block by block: in each block, the events before its first error. */
  function Surviving(evs: seq<RawEvent>, lo: int, hi: int, eps: seq<Endpoint>, oversized: RawEvent -> bool): seq<RawEvent>
    decreases hi - lo
  {
    if lo > hi then [] else BeforeError(OfBlock(evs, lo), eps, oversized) + Surviving(evs, lo + 1, hi, eps, oversized)
  }

  lemma {:induction false} SurvivingUpTo(evs: seq<RawEvent>, lo: int, mid: int, eps: seq<Endpoint>, oversized: RawEvent -> bool)
    requires lo <= mid + 1
    ensures Surviving(evs, lo, mid + 1, eps, oversized)
            == Surviving(evs, lo, mid, eps, oversized) + BeforeError(OfBlock(evs, mid + 1), eps, oversized)
    decreases mid - lo
  {
    if lo <= mid {
      SurvivingUpTo(evs, lo + 1, mid, eps, oversized);
      var head, last := BeforeError(OfBlock(evs, lo), eps, oversized), BeforeError(OfBlock(evs, mid + 1), eps, oversized);
      assert head + (Surviving(evs, lo + 1, mid, eps, oversized) + last) == (head + Surviving(evs, lo + 1, mid, eps, oversized)) + last;
    } else {
      assert Surviving(evs, lo + 1, mid + 1, eps, oversized) == [];
    }
  }

  lemma {:induction false} OfBlockMembers(evs: seq<RawEvent>, block: int, e: RawEvent)
    ensures e in OfBlock(evs, block) <==> e in evs && e.block == block
  {
    if evs == [] {
    } else {
      OfBlockMembers(evs[1..], block, e);
      assert evs == [evs[0]] + evs[1..];
    }
  }

  /** Where nothing fails nothing is lost. */
  lemma {:induction false} AllSurvive(evs: seq<RawEvent>, lo: int, hi: int, eps: seq<Endpoint>, oversized: RawEvent -> bool)
    requires forall e :: e in evs ==> !Fails(e, eps, oversized)
    ensures Surviving(evs, lo, hi, eps, oversized) == Grouped(evs, lo, hi)
    decreases hi - lo
  {
    if hi < lo {
    } else {
      AllSurvive(evs, lo + 1, hi, eps, oversized);
      var here := OfBlock(evs, lo);
      forall i | 0 <= i < |here|
        ensures !Fails(here[i], eps, oversized)
      {
        OfBlockMembers(evs, lo, here[i]);
      }
      NoErrorCutsNothing(here, eps, oversized);
    }
  }

  /** Publishes what is filed under one block; an error is logged and passed over. */
  method CommitBlock(outbox: OutboxTable, contract: string, byBlock: map<int, seq<RawEvent>>, block: int,
                     endpoints: seq<Endpoint>, oversized: RawEvent -> bool)
    modifies outbox
    ensures var evs := if block in byBlock then byBlock[block] else [];
            outbox.rows == Publish(old(outbox.rows), contract, BeforeError(evs, endpoints, oversized), endpoints)
  {
    var evs := if block in byBlock then byBlock[block] else [];
    if |evs| > 0 {
      var n, ok := outbox.EnqueueOutboxEvents(contract, evs, endpoints, oversized);
    }
  }

  /** Publishes block by block. An error ends its block, and the next block is published. */
  method CommitBlocks(outbox: OutboxTable, contract: string, byBlock: map<int, seq<RawEvent>>, lo: int, hi: int,
                      endpoints: seq<Endpoint>, oversized: RawEvent -> bool, ghost kept: seq<RawEvent>)
    requires Indexes(byBlock, kept)
    modifies outbox
    ensures outbox.rows == Publish(old(outbox.rows), contract, Surviving(kept, lo, hi, endpoints, oversized), endpoints)
  {
    var block := lo;
    ghost var out: seq<RawEvent> := [];
    while block <= hi
      invariant lo <= block && (block <= hi + 1 || block == lo)
      invariant out == Surviving(kept, lo, block - 1, endpoints, oversized)
      invariant outbox.rows == Publish(old(outbox.rows), contract, out, endpoints)
    {
      ghost var part := BeforeError(OfBlock(kept, block), endpoints, oversized);
      PublishAppend(old(outbox.rows), contract, out, part, endpoints);
      SurvivingUpTo(kept, lo, block - 1, endpoints, oversized);
      CommitBlock(outbox, contract, byBlock, block, endpoints, oversized);
      out := out + part;
      block := block + 1;
    }
  }

  /** From fetch to outbox: a complete batch adds exactly the keys of the watched transfers of
      its block range, whatever order, repetition and surplus the events came with. */
  lemma BatchAddsRangeKeys(rows: Rows, active: set<string>, contract: string, fetched: seq<ChainEvent>, lo: int, hi: int,
                           tip: int, eps: seq<Endpoint>)
    requires Current(rows) && PlainIds(eps) && Plain(contract)
    requires OneKind(contract, MatchedWithin(active, contract, fetched, lo, hi, tip))
    ensures var matched := MatchedWithin(active, contract, fetched, lo, hi, tip);
            var published := Grouped(Distinct(TransferEventKey, matched, {}), lo, hi);
            && multiset(published) == multiset(Distinct(TransferEventKey, matched, {}))
            && Adds(rows, Publish(rows, contract, published, eps), EventKeys(contract, matched, eps))
  {
    var matched := MatchedWithin(active, contract, fetched, lo, hi, tip);
    var kept := Distinct(TransferEventKey, matched, {});
    MatchedInRange(active, contract, fetched, lo, hi, tip);
    DistinctInRange(TransferEventKey, matched, {}, lo, hi);
    GroupedPermutes(kept, lo, hi);
    SameEventsSameKeys(contract, Grouped(kept, lo, hi), kept, eps);
    assert Accounted(contract, {}, {}, eps);
    DistinctKeepsKeys(contract, matched, {}, {}, eps);
    PublishAddsKeys(rows, contract, Grouped(kept, lo, hi), eps);
  }

  lemma {:induction false} MatchedInRange(active: set<string>, contract: string, fetched: seq<ChainEvent>, lo: int, hi: int, tip: int)
    ensures InRange(MatchedWithin(active, contract, fetched, lo, hi, tip), lo, hi)
  {
    if fetched == [] {
    } else {
      MatchedInRange(active, contract, fetched[1..], lo, hi, tip);
      var rest := OfBlocks(fetched[1..], lo, hi);
      assert ([fetched[0]] + rest)[1..] == rest;
      assert [] + rest == rest;
    }
  }

  lemma {:induction false} DistinctInRange(key: RawEvent -> string, evs: seq<RawEvent>, seen: set<string>, lo: int, hi: int)
    requires InRange(evs, lo, hi)
    ensures InRange(Distinct(key, evs, seen), lo, hi)
    decreases |evs|
  {
    if evs == [] {
    } else {
      DistinctInRange(key, evs[1..], seen, lo, hi);
      DistinctInRange(key, evs[1..], seen + {key(evs[0])}, lo, hi);
    }
  }
}
