/** The forward-scan loops of the poller and the arithmetic of their cursors. */
module ScanLoops {
  import opened Base
  import opened CursorLease
  import opened TransferKeys
  import O = Outbox
  import B = BatchWindow

  const BATCH := 100

  function BatchEnd(batchStart: int, latest: int): int {
    Min(batchStart + BATCH - 1, latest)
  }

  /** The cursor to persist after [batchStart, batchEnd]: `retain` blocks behind the batch end,
      but never behind the batch start or the cursor already reached. */
  function CursorAfterBatch(retain: int, fromBlock: int, batchStart: int, batchEnd: int): int {
    if retain <= 0 then batchEnd
    else
      var candidate := batchEnd - retain;
      var candidate := if candidate < batchStart - 1 then batchStart - 1 else candidate;
      if candidate < fromBlock then fromBlock else candidate
  }

  /** Where a scan starts: the stored cursor, or for a scope without one the configured start
      block, or the safe tip. */
  function ScanOrigin(cursor: int, startBlock: int, latest: int): int {
    if cursor != 0 then cursor else if startBlock > 0 then startBlock else latest
  }

  // ----- What the loops reach, independently of how they get there

  /** The length of `k` full batches. */
  function Length(k: nat): int {
    if k == 0 then 0 else Length(k - 1) + BATCH
  }

  lemma {:induction false} LengthIs(k: nat)
    ensures Length(k) == 100 * k
  {
    if k == 0 {
    } else {
      LengthIs(k - 1);
    }
  }

  lemma LengthIsPositive()
    ensures forall k: nat :: Length(k) >= 0
  {
    forall k: nat
      ensures Length(k) >= 0
    {
      LengthIs(k);
    }
  }

  /** There is a batch `k`: the `k` batches before it do not reach the target. */
  predicate HasBatch(from: int, latest: int, k: nat) {
    from + Length(k) < latest
  }

  function BatchCount(from: int, latest: int): nat {
    if latest <= from then 0 else (latest - from - 1) / 100 + 1
  }

  lemma CountsBatches(from: int, latest: int, k: nat)
    ensures HasBatch(from, latest, k) <==> k < BatchCount(from, latest)
  {
    LengthIs(k);
  }

  lemma NoMoreBatches(from: int, latest: int, n: nat)
    requires !HasBatch(from, latest, n)
    ensures forall k: nat :: HasBatch(from, latest, k) ==> k < n
  {
    forall k: nat | HasBatch(from, latest, k)
      ensures k < n
    {
      CountsBatches(from, latest, k);
      CountsBatches(from, latest, n);
    }
  }

  /** Blocks in the last batch of a complete scan. */
  function LastBatch(from: int, latest: int): int {
    (latest - from - 1) % 100 + 1
  }

  /** The cursor after `k` committed batches of a TRC-20 scan. */
  function CursorAfter(from: int, latest: int, retain: int, k: nat): int {
    if k == 0 then from
    else
      var end := Min(from + Length(k), latest);
      if retain <= 0 then end else Max(end - retain, from + Length(k - 1))
  }

  function BatchRange(from: int, latest: int, i: nat): (int, int) {
    (from + Length(i) + 1, Min(from + Length(i + 1), latest))
  }

  /** A complete TRC-20 scan ends at the larger of `retain` blocks behind its target and the
      start of its last batch; without a retain window it ends at the target. */
  lemma Trc20CursorClosedForm(from: int, latest: int, retain: int)
    requires from < latest
    ensures var cursor := CursorAfter(from, latest, retain, BatchCount(from, latest));
            && (retain > 0 ==> cursor == Max(latest - retain, from + 100 * ((latest - from - 1) / 100)))
            && (retain > 0 ==> latest - cursor == Min(retain, LastBatch(from, latest)))
            && (retain <= 0 ==> cursor == latest)
            && from <= cursor <= latest
  {
    LengthIs(BatchCount(from, latest));
    LengthIs(BatchCount(from, latest) - 1);
  }

  /** The batches of a range partition it: each block above `from` up to `latest` lies in exactly
      one of them, and no batch is empty or longer than a request allows. */
  lemma BatchesPartition(from: int, latest: int, b: int, i: nat)
    requires i < BatchCount(from, latest)
    ensures var (lo, hi) := BatchRange(from, latest, i);
            && from < lo <= hi <= latest && hi - lo < BATCH
            && (lo <= b <= hi <==> from < b <= latest && i == (b - from - 1) / 100)
    ensures from < b <= latest ==> 0 <= (b - from - 1) / 100 < BatchCount(from, latest)
  {
    LengthIs(i);
    LengthIs(i + 1);
  }

  // ----- What the loops publish

  /** What publishing depends on besides the events: the confirmed addresses, the endpoints, which
      payloads are too large, and the chain tip. `batch` and `block` name the effects of publishing on the outbox;
      `Genuine` says that they are `BatchRows` and `BlockRows`. They are function values for one reason: the proofs of
      the loops pass the effects on without looking into them, and unfolding the keys and the fan-out in every
      loop would cost the verifier more than the loops themselves. `WholeScans` says which keys they add. */
  datatype Setting = Setting(active: set<string>, endpoints: seq<O.Endpoint>, oversized: RawEvent -> bool, tip: int,
                             batch: (O.Rows, string, seq<B.ChainEvent>, int, int) -> O.Rows,
                             block: (O.Rows, seq<RawEvent>) -> O.Rows)

  /** The outbox after the events fetched for [lo, hi] of a contract: matched, freed of repeats, and
      published block by block up to each block's first error. */
  function BatchRows(w: Setting, rows: O.Rows, contract: string, fetched: seq<B.ChainEvent>, lo: int, hi: int): O.Rows {
    var kept := O.Distinct(TransferEventKey, B.MatchedWithin(w.active, contract, fetched, lo, hi, w.tip), {});
    O.Publish(rows, contract, B.Surviving(kept, lo, hi, w.endpoints, w.oversized), w.endpoints)
  }

  /** The outbox after the matched events of a native block, up to the first error. */
  function BlockRows(w: Setting, rows: O.Rows, events: seq<RawEvent>): O.Rows {
    O.Publish(rows, O.TRX, O.BeforeError(events, w.endpoints, w.oversized), w.endpoints)
  }

  ghost predicate Genuine(w: Setting) {
    && (forall rows, contract, fetched, lo, hi {:trigger BatchRows(w, rows, contract, fetched, lo, hi)} ::
          w.batch(rows, contract, fetched, lo, hi) == BatchRows(w, rows, contract, fetched, lo, hi))
    && (forall rows, events {:trigger BlockRows(w, rows, events)} :: w.block(rows, events) == BlockRows(w, rows, events))
  }

  /** There is such a setting for any addresses, endpoints, payload sizes and tip. */
  function GenuineSetting(active: set<string>, endpoints: seq<O.Endpoint>, oversized: RawEvent -> bool, tip: int): (w: Setting)
    ensures Genuine(w) && w.active == active && w.endpoints == endpoints && w.oversized == oversized && w.tip == tip
  {
    var bare := Setting(active, endpoints, oversized, tip, (rows, contract, fetched, lo, hi) => rows, (rows, events) => rows);
    bare.(batch := (rows, contract, fetched, lo, hi) => BatchRows(bare, rows, contract, fetched, lo, hi),
          block := (rows, events) => BlockRows(bare, rows, events))
  }

  /** What the outside world answers during one batch of a contract: the blocks of the range, and
      the events of a time window. `lostRenewal` is the index of the first lease renewal of the batch that
      errors, if any does. */
  datatype BatchReplies = BatchReplies(now: int, fetch: Reply, blocks: seq<B.Block>, answer: Reply,
                                       events: (int, int) -> seq<B.ChainEvent>, save: Reply, lostRenewal: Option<nat>)

  /** The outbox after a batch. The events are asked for by the time span of the blocks; without
      blocks nothing is asked for. */
  function AfterBatch(rows: O.Rows, contract: string, w: Setting, r: BatchReplies, lo: int, hi: int): O.Rows {
    if r.blocks == [] then rows else w.batch(rows, contract, r.events(B.MinTime(r.blocks), B.MaxTime(r.blocks)), lo, hi)
  }

  /** The outbox after the first `k` batches of (from, latest]. */
  function AfterBatches(rows: O.Rows, contract: string, w: Setting, replies: nat -> BatchReplies, from: int, latest: int, k: nat): O.Rows {
    if k == 0 then rows
    else
      var range := BatchRange(from, latest, k - 1);
      AfterBatch(AfterBatches(rows, contract, w, replies, from, latest, k - 1), contract, w, replies(k - 1), range.0, range.1)
  }

  method PublishReplies(outbox: O.OutboxTable, contract: string, w: Setting, r: BatchReplies, lo: int, hi: int)
    requires r.blocks != [] && Genuine(w)
    modifies outbox
    ensures outbox.rows == AfterBatch(old(outbox.rows), contract, w, r, lo, hi)
  {
    var minTs, maxTs := B.TimeSpan(r.blocks);
    var fetched := r.events(minTs, maxTs);
    B.PublishBatch(outbox, w.active, contract, fetched, lo, hi, w.tip, w.endpoints, w.oversized);
    assert outbox.rows == BatchRows(w, old(outbox.rows), contract, fetched, lo, hi);
  }

  // ----- The loops

  datatype Ending = Finished | NoBlocks | Failed

  predicate IsError(r: Reply) {
    r.Err? || r.ErrApplied?
  }

  /** `rows` is `before` except for the cursor and the deadline of a scope that `worker` still holds. */
  ghost predicate OnlyScope(before: Cursors, rows: Cursors, scope: string, worker: string) {
    && worker != ""
    && rows.Keys == before.Keys
    && Holds(rows, scope, worker)
    && forall s :: s in rows && s != scope ==> rows[s] == before[s]
  }

  method RenewScopeLease(db: CursorTable, scope: string, worker: string, r: BatchReplies, index: nat) returns (ok: bool)
    requires OnlyScope(db.rows, db.rows, scope, worker)
    modifies db
    ensures OnlyScope(old(db.rows), db.rows, scope, worker) && db.rows[scope].highest == old(db.rows[scope].highest)
    ensures ok <==> r.lostRenewal != Some(index)
  {
    var held := db.RenewScannerScopeLease(scope, worker, r.now, DEFAULT_LEASE);
    ok := held && r.lostRenewal != Some(index);
  }

  /** The renewals up to this one all succeed. */
  predicate RenewedUpTo(r: BatchReplies, index: nat) {
    r.lostRenewal.Some? ==> r.lostRenewal.value > index
  }

  /** Nothing fails before the events of the batch are at hand. */
  predicate Gathered(r: BatchReplies) {
    !IsError(r.fetch) && r.blocks != [] && !IsError(r.answer) && RenewedUpTo(r, 2)
  }

  /** Nothing fails during the batch, and blocks come back. */
  predicate Answered(r: BatchReplies) {
    !IsError(r.fetch) && r.blocks != [] && !IsError(r.answer) && !IsError(r.save) && RenewedUpTo(r, 3)
  }

  /** One batch of a TRC-20 scan. Fetching blocks, fetching events, renewing the lease and
      writing the cursor may fail; publishing errors are only logged. */
  method ScanTrc20Batch(db: CursorTable, outbox: O.OutboxTable, scope: string, worker: string, retain: int, w: Setting,
                        fromBlock: int, batchStart: int, batchEnd: int, r: BatchReplies)
    returns (ending: Ending, queried: bool)
    requires Genuine(w)
    requires OnlyScope(db.rows, db.rows, scope, worker)
    modifies db, outbox
    ensures OnlyScope(old(db.rows), db.rows, scope, worker)
    ensures var cursor := Max(CursorAfterBatch(retain, fromBlock, batchStart, batchEnd), old(db.rows[scope].highest));
            && (ending.Finished? ==> queried && db.rows[scope].highest == cursor)
            && (!queried ==> db.rows[scope].highest == old(db.rows[scope].highest))
            && (db.rows[scope].highest == cursor || db.rows[scope].highest == old(db.rows[scope].highest))
    ensures ending.NoBlocks? <==> !IsError(r.fetch) && RenewedUpTo(r, 1) && r.blocks == []
    ensures queried <==> Gathered(r)
    ensures outbox.rows == if queried then AfterBatch(old(outbox.rows), scope, w, r, batchStart, batchEnd) else old(outbox.rows)
    ensures ending.Finished? <==> Answered(r)
    ensures queried && !r.save.Err? ==> db.rows[scope].highest == Max(CursorAfterBatch(retain, fromBlock, batchStart, batchEnd), old(db.rows[scope].highest))
    ensures r.save.Err? ==> db.rows[scope].highest == old(db.rows[scope].highest)
  {
    queried := false;
    var ok := RenewScopeLease(db, scope, worker, r, 0);
    if !ok || IsError(r.fetch) {
      return Failed, queried;
    }
    ok := RenewScopeLease(db, scope, worker, r, 1);
    if !ok {
      return Failed, queried;
    }
    if |r.blocks| == 0 {
      return NoBlocks, queried;
    }
    if IsError(r.answer) {
      return Failed, queried;
    }
    ok := RenewScopeLease(db, scope, worker, r, 2);
    if !ok {
      return Failed, queried;
    }
    queried := true;
    PublishReplies(outbox, scope, w, r, batchStart, batchEnd);
    if r.save.Err? {
      return Failed, queried;
    }
    ok := db.SetScannedBlock(scope, CursorAfterBatch(retain, fromBlock, batchStart, batchEnd), worker, r.now);
    if !ok || r.save.ErrApplied? {
      return Failed, queried;
    }
    ok := RenewScopeLease(db, scope, worker, r, 3);
    ending := if ok then Finished else Failed;
  }

  /** How far one scan gets: it publishes the first `queried` batches towards its target, and the
      cursor writes of the first `committed` ones take effect. */
  datatype Scan = Scan(target: int, committed: nat, queried: nat)

  /** The last batch published may be one whose cursor write failed. */
  predicate Possible(cursor: int, s: Scan) {
    s.committed <= s.queried <= s.committed + 1 && (s.queried > 0 ==> HasBatch(cursor, s.target, s.queried - 1))
  }

  /** Where the scan of a held scope starts. A scope that never had a cursor and has no
      configured start block is pinned to the safe tip. */
  method StartScan(db: CursorTable, scope: string, worker: string, latest: int, cursorAtClaim: int, startBlock: int, now: int)
    returns (origin: int)
    requires OnlyScope(db.rows, db.rows, scope, worker) && cursorAtClaim <= db.rows[scope].highest
    modifies db
    ensures OnlyScope(old(db.rows), db.rows, scope, worker)
    ensures origin == ScanOrigin(old(db.rows[scope].highest), startBlock, latest)
    ensures old(db.rows[scope].highest) != 0 ==> origin == old(db.rows[scope].highest)
    ensures old(db.rows[scope].highest) == 0 ==> origin == if startBlock > 0 then startBlock else latest
    ensures db.rows[scope].highest == if old(db.rows[scope].highest) == 0 && startBlock <= 0 then Max(latest, 0)
                                      else old(db.rows[scope].highest)
  {
    var read := db.GetScannedBlock(scope);
    var fromBlock := Max(cursorAtClaim, read);
    if fromBlock == 0 {
      if startBlock > 0 {
        fromBlock := startBlock;
      } else {
        fromBlock := latest;
        var saved := db.SetScannedBlock(scope, fromBlock, worker, now);
      }
    }
    origin := fromBlock;
  }

  /** Batch `k` of a scan from `origin`: after it `queried` batches were asked for and the writes of
      `committed` took effect. */
  method ScanBatchAt(db: CursorTable, outbox: O.OutboxTable, scope: string, worker: string, origin: int, latest: int, retain: int,
                     w: Setting, replies: nat -> BatchReplies, k: nat, fromBlock: int, batchStart: int, ghost rows: O.Rows)
    returns (ending: Ending, queried: nat, ghost committed: nat, cursor: int, batchEnd: int)
    requires Genuine(w)
    requires OnlyScope(db.rows, db.rows, scope, worker) && db.rows[scope].highest <= fromBlock
    requires BatchLoop(origin, latest, retain, k, fromBlock, batchStart) && batchStart <= latest
    requires outbox.rows == AfterBatches(rows, scope, w, replies, origin, latest, k)
    modifies db, outbox
    ensures OnlyScope(old(db.rows), db.rows, scope, worker)
    ensures k <= committed <= queried <= k + 1 && HasBatch(origin, latest, k)
    ensures BatchLoop(origin, latest, retain, k + 1, cursor, batchEnd + 1) && batchEnd >= batchStart
    ensures db.rows[scope].highest == if committed == k then old(db.rows[scope].highest) else cursor
    ensures ending.Finished? ==> committed == k + 1
    ensures ending.Finished? <==> Answered(replies(k))
    ensures queried == if Gathered(replies(k)) then k + 1 else k
    ensures ending.NoBlocks? ==> queried == k && replies(k).blocks == []
    ensures outbox.rows == AfterBatches(rows, scope, w, replies, origin, latest, queried)
  {
    batchEnd := batchStart + BATCH - 1;
    if batchEnd > latest {
      batchEnd := latest;
    }
    AfterOneMoreBatch(origin, latest, retain, k, fromBlock, batchStart, batchEnd);
    cursor := CursorAfterBatch(retain, fromBlock, batchStart, batchEnd);
    var asked;
    ending, asked := ScanTrc20Batch(db, outbox, scope, worker, retain, w, fromBlock, batchStart, batchEnd, replies(k));
    queried := if asked then k + 1 else k;
    committed := if asked && db.rows[scope].highest == cursor then k + 1 else k;
  }

  /** The batch loop of a TRC-20 contract scan. Wherever it stops: the first `queried` batches from the
      origin on were asked for, the outbox has what they brought, and the cursor is that of the last batch whose
      write took effect, the last one queried or the one before. */
  method ScanTrc20WithLease(db: CursorTable, outbox: O.OutboxTable, scope: string, worker: string, origin: int, latest: int,
                            retain: int, w: Setting, replies: nat -> BatchReplies)
    returns (ending: Ending, queried: nat, ghost committed: nat)
    requires Genuine(w)
    requires OnlyScope(db.rows, db.rows, scope, worker) && db.rows[scope].highest <= origin
    modifies db, outbox
    ensures OnlyScope(old(db.rows), db.rows, scope, worker)
    ensures Possible(origin, Scan(latest, committed, queried))
    ensures outbox.rows == AfterBatches(old(outbox.rows), scope, w, replies, origin, latest, queried)
    ensures db.rows[scope].highest == if committed == 0 then old(db.rows[scope].highest) else CursorAfter(origin, latest, retain, committed)
    ensures ending.Finished? ==> committed == queried && !HasBatch(origin, latest, queried)
    ensures ending.NoBlocks? ==> committed == queried && HasBatch(origin, latest, queried) && replies(queried).blocks == []
    ensures ending.Finished? <==> forall k: nat :: HasBatch(origin, latest, k) ==> Answered(replies(k))
    ensures !ending.Finished? ==> exists k: nat :: HasBatch(origin, latest, k) && BreaksOff(replies, k, queried)
  {
    queried, committed := 0, 0;
    var fromBlock := origin;
    var batchStart := fromBlock + 1;
    while batchStart <= latest
      invariant OnlyScope(old(db.rows), db.rows, scope, worker)
      invariant committed == queried && (queried > 0 ==> HasBatch(origin, latest, queried - 1))
      invariant forall k: nat :: k < queried ==> Answered(replies(k))
      invariant BatchLoop(origin, latest, retain, queried, fromBlock, batchStart)
      invariant db.rows[scope].highest <= fromBlock
      invariant db.rows[scope].highest == if queried == 0 then old(db.rows[scope].highest) else fromBlock
      invariant outbox.rows == AfterBatches(old(outbox.rows), scope, w, replies, origin, latest, queried)
      decreases latest - batchStart
    {
      var batchEnd;
      ghost var k := queried;
      ending, queried, committed, fromBlock, batchEnd :=
        ScanBatchAt(db, outbox, scope, worker, origin, latest, retain, w, replies, queried, fromBlock, batchStart, old(outbox.rows));
      if !ending.Finished? {
        assert BreaksOff(replies, k, queried);
        return;
      }
      batchStart := batchEnd + 1;
    }
    NoMoreBatches(origin, latest, queried);
    ending := Finished;
  }

  /** Batch `k` is the first that goes wrong, after its events were published or before. */
  ghost predicate BreaksOff(replies: nat -> BatchReplies, k: nat, queried: nat) {
    && !Answered(replies(k)) && (forall i: nat :: i < k ==> Answered(replies(i)))
    && queried == if Gathered(replies(k)) then k + 1 else k
  }

  /** Where the batch loop stands after `k` batches. */
  predicate BatchLoop(origin: int, latest: int, retain: int, k: nat, fromBlock: int, batchStart: int) {
    && fromBlock == CursorAfter(origin, latest, retain, k)
    && (batchStart <= latest ==> batchStart == origin + Length(k) + 1)
    && (batchStart > latest ==> !HasBatch(origin, latest, k))
  }

  lemma AfterOneMoreBatch(origin: int, latest: int, retain: int, k: nat, fromBlock: int, batchStart: int, batchEnd: int)
    requires BatchLoop(origin, latest, retain, k, fromBlock, batchStart) && batchStart <= latest
    requires batchEnd == BatchEnd(batchStart, latest)
    ensures var cursor := CursorAfterBatch(retain, fromBlock, batchStart, batchEnd);
            BatchLoop(origin, latest, retain, k + 1, cursor, batchEnd + 1) && cursor >= fromBlock && batchEnd >= batchStart
    ensures HasBatch(origin, latest, k) && BatchRange(origin, latest, k) == (batchStart, batchEnd)
  {
  }

  /** One native-transfer block: `before` is the outcome of the fetches and lease renewals due before
      it, `matched` what matched in it, or nothing when the response did not hold it. */
  datatype BlockReplies = BlockReplies(now: int, before: Reply, matched: Option<seq<RawEvent>>, save: Reply)

  predicate Good(r: BlockReplies) {
    !IsError(r.before) && !IsError(r.save)
  }

  /** Block `k` is the first from `done` on with an erring reply, and it counts as passed unless
      it could not be fetched. */
  ghost predicate StopsAt(replies: nat -> BlockReplies, done: nat, k: nat, passed: nat) {
    && done <= k && !Good(replies(k)) && (forall j: nat :: done <= j < k ==> Good(replies(j)))
    && passed == if IsError(replies(k).before) then k else k + 1
  }

  /** The outbox after a block. A missing block is passed over; an enqueue error costs the rest of
      its block. */
  function AfterBlock(rows: O.Rows, w: Setting, r: BlockReplies): O.Rows {
    if r.matched.None? then rows else w.block(rows, r.matched.value)
  }

  function AfterBlocks(rows: O.Rows, w: Setting, replies: nat -> BlockReplies, k: nat): O.Rows {
    if k == 0 then rows else AfterBlock(AfterBlocks(rows, w, replies, k - 1), w, replies(k - 1))
  }

  /** One block: publish, then persist its number. */
  method ScanTrxBlock(db: CursorTable, outbox: O.OutboxTable, worker: string, block: int, w: Setting, r: BlockReplies)
    returns (ok: bool, passed: bool, ghost committed: bool)
    requires Genuine(w)
    requires OnlyScope(db.rows, db.rows, O.TRX, worker) && db.rows[O.TRX].highest < block
    modifies db, outbox
    ensures OnlyScope(old(db.rows), db.rows, O.TRX, worker)
    ensures passed <==> !IsError(r.before)
    ensures (ok ==> committed) && (committed ==> passed)
    ensures ok <==> Good(r)
    ensures db.rows[O.TRX].highest == if committed then block else old(db.rows[O.TRX].highest)
    ensures outbox.rows == if passed then AfterBlock(old(outbox.rows), w, r) else old(outbox.rows)
  {
    ok, passed, committed := false, false, false;
    if IsError(r.before) {
      return;
    }
    PublishBlock(outbox, w, r);
    passed := true;
    if r.save.Err? {
      return;
    }
    var saved := db.SetScannedBlock(O.TRX, block, worker, r.now);
    committed := saved;
    ok := saved && !r.save.ErrApplied?;
  }

  /** The blocks of one batch, in order. */
  method ScanTrxBatch(db: CursorTable, outbox: O.OutboxTable, worker: string, origin: int, batchEnd: int, w: Setting,
                      replies: nat -> BlockReplies, done: nat, ghost rows: O.Rows)
    returns (ok: bool, passed: nat, ghost committed: nat)
    requires Genuine(w)
    requires OnlyScope(db.rows, db.rows, O.TRX, worker) && db.rows[O.TRX].highest <= origin + done <= batchEnd
    requires outbox.rows == AfterBlocks(rows, w, replies, done)
    modifies db, outbox
    ensures OnlyScope(old(db.rows), db.rows, O.TRX, worker)
    ensures done <= committed <= passed <= committed + 1 && origin + passed <= batchEnd
    ensures db.rows[O.TRX].highest == if committed == done then old(db.rows[O.TRX].highest) else origin + committed
    ensures outbox.rows == AfterBlocks(rows, w, replies, passed)
    ensures ok ==> origin + committed == origin + passed == batchEnd
    ensures ok <==> forall k: nat :: done <= k < batchEnd - origin ==> Good(replies(k))
    ensures !ok ==> exists k: nat :: k < batchEnd - origin && StopsAt(replies, done, k, passed)
  {
    passed, committed := done, done;
    var block := origin + done + 1;
    while block <= batchEnd
      invariant block <= batchEnd + 1
      invariant OnlyScope(old(db.rows), db.rows, O.TRX, worker)
      invariant block == origin + passed + 1 && done <= passed == committed
      invariant forall j: nat :: done <= j < passed ==> Good(replies(j))
      invariant db.rows[O.TRX].highest == if passed == done then old(db.rows[O.TRX].highest) else origin + passed
      invariant outbox.rows == AfterBlocks(rows, w, replies, passed)
    {
      var through;
      ghost var k, saved := passed, false;
      ok, through, saved := ScanTrxBlock(db, outbox, worker, block, w, replies(passed));
      if through {
        passed := passed + 1;
      }
      if saved {
        committed := passed;
      }
      if !ok {
        assert StopsAt(replies, done, k, passed);
        return false, passed, committed;
      }
      block := block + 1;
    }
    ok := true;
  }

  /** The loop of a native TRX scan, block by block. Each block is published before the cursor passes
      it, so wherever the scan stops the cursor is the last block passed, or the one before it when only the
      write failed, and the outbox has what the blocks passed brought. */
  method ScanTrxWithLease(db: CursorTable, outbox: O.OutboxTable, worker: string, origin: int, latest: int, w: Setting, replies: nat -> BlockReplies)
    returns (ending: Ending, passed: nat, ghost committed: nat)
    requires Genuine(w)
    requires OnlyScope(db.rows, db.rows, O.TRX, worker) && db.rows[O.TRX].highest <= origin
    modifies db, outbox
    ensures OnlyScope(old(db.rows), db.rows, O.TRX, worker)
    ensures committed <= passed <= committed + 1 && passed <= Max(0, latest - origin)
    ensures db.rows[O.TRX].highest == if committed == 0 then old(db.rows[O.TRX].highest) else origin + committed
    ensures outbox.rows == AfterBlocks(old(outbox.rows), w, replies, passed)
    ensures ending.Finished? ==> passed == committed == Max(0, latest - origin)
    ensures ending.Finished? <==> forall k: nat :: k < latest - origin ==> Good(replies(k))
    ensures !ending.Finished? ==> ending.Failed? && exists k: nat :: k < latest - origin && StopsAt(replies, 0, k, passed)
  {
    passed, committed := 0, 0;
    var batchStart := origin + 1;
    while batchStart <= latest
      invariant OnlyScope(old(db.rows), db.rows, O.TRX, worker)
      invariant batchStart == origin + passed + 1 && passed == committed <= Max(0, latest - origin)
      invariant forall j: nat :: j < passed ==> Good(replies(j))
      invariant db.rows[O.TRX].highest == if passed == 0 then old(db.rows[O.TRX].highest) else origin + passed
      invariant outbox.rows == AfterBlocks(old(outbox.rows), w, replies, passed)
      decreases latest - batchStart
    {
      var batchEnd := batchStart + BATCH - 1;
      if batchEnd > latest {
        batchEnd := latest;
      }
      var ok;
      ghost var done := passed;
      ok, passed, committed := ScanTrxBatch(db, outbox, worker, origin, batchEnd, w, replies, passed, old(outbox.rows));
      if !ok {
        ghost var k: nat :| k < batchEnd - origin && StopsAt(replies, done, k, passed);
        assert StopsAt(replies, 0, k, passed);
        return Failed, passed, committed;
      }
      batchStart := batchEnd + 1;
    }
    ending := Finished;
  }

  /** Start and loop of a scan of a held scope. */
  method ScanHeldTrc20(db: CursorTable, outbox: O.OutboxTable, scope: string, worker: string, latest: int, cursorAtClaim: int,
                       startBlock: int, retain: int, w: Setting, replies: nat -> BatchReplies)
    returns (ending: Ending, origin: int, queried: nat)
    requires Genuine(w)
    requires OnlyScope(db.rows, db.rows, scope, worker) && 0 <= db.rows[scope].highest && cursorAtClaim <= db.rows[scope].highest
    modifies db, outbox
    ensures OnlyScope(old(db.rows), db.rows, scope, worker)
    ensures origin == ScanOrigin(old(db.rows[scope].highest), startBlock, latest)
    ensures queried > 0 ==> HasBatch(origin, latest, queried - 1)
    ensures outbox.rows == AfterBatches(old(outbox.rows), scope, w, replies, origin, latest, queried)
    ensures ending.Finished? && origin < latest ==>
              && queried > 0 && HasBatch(origin, latest, queried - 1) && !HasBatch(origin, latest, queried)
              && db.rows[scope].highest == CursorAfter(origin, latest, retain, queried)
    ensures ending.Finished? <==> forall k: nat :: HasBatch(origin, latest, k) ==> Answered(replies(k))
    ensures !ending.Finished? ==> exists k: nat :: HasBatch(origin, latest, k) && BreaksOff(replies, k, queried)
  {
    origin := StartScan(db, scope, worker, latest, cursorAtClaim, startBlock, replies(0).now);
    ending, queried := Finished, 0;
    LengthIsPositive();
    if latest - origin > 0 {
      ghost var committed;
      ending, queried, committed := ScanTrc20WithLease(db, outbox, scope, worker, origin, latest, retain, w, replies);
    }
  }

  /** A whole TRC-20 scan of one contract: claim the scope, scan, release. */
  method ScanTrc20(db: CursorTable, outbox: O.OutboxTable, scope: string, worker: string, latest: int, startBlock: int, retain: int,
                   w: Setting, replies: nat -> BatchReplies)
    returns (claimed: bool, ending: Ending, origin: int, queried: nat)
    requires Genuine(w)
    requires worker != "" && HighestBlock(db.rows, scope) >= 0
    modifies db, outbox
    ensures claimed == CanClaim(old(db.rows), scope, worker, replies(0).now)
    ensures !claimed ==> db.rows == old(db.rows) && outbox.rows == old(outbox.rows)
    ensures claimed ==> scope in db.rows && !Holds(db.rows, scope, worker)
                        && origin == ScanOrigin(HighestBlock(old(db.rows), scope), startBlock, latest)
                        && (queried > 0 ==> HasBatch(origin, latest, queried - 1))
                        && outbox.rows == AfterBatches(old(outbox.rows), scope, w, replies, origin, latest, queried)
    ensures claimed && ending.Finished? && origin < latest ==>
              && queried == BatchCount(origin, latest)
              && HighestBlock(db.rows, scope) == if retain <= 0 then latest
                                                 else Max(latest - retain, origin + 100 * ((latest - origin - 1) / 100))
    ensures claimed ==> (ending.Finished? <==> forall k: nat :: HasBatch(origin, latest, k) ==> Answered(replies(k)))
    ensures !ending.Finished? ==> exists k: nat :: HasBatch(origin, latest, k) && BreaksOff(replies, k, queried)
    ensures forall s :: s in old(db.rows) && s != scope ==> s in db.rows && db.rows[s] == old(db.rows)[s]
  {
    queried, origin := 0, 0;
    var cursor;
    cursor, claimed := db.TryClaimScannerScope(scope, worker, replies(0).now, DEFAULT_LEASE);
    if !claimed {
      return claimed, Finished, origin, queried;
    }
    ending, origin, queried := ScanHeldTrc20(db, outbox, scope, worker, latest, cursor, startBlock, retain, w, replies);
    if origin < latest && queried > 0 {
      Trc20CursorClosedForm(origin, latest, retain);
      CountsBatches(origin, latest, queried - 1);
      CountsBatches(origin, latest, queried);
    }
    var released := db.ReleaseScannerScope(scope, worker);
  }

  // ----- Replays: the same batches without a cursor

  /** The replies to a replay of native blocks from `lo` on, block by block: batch `i` brings the outcome of its
      fetch and, for each block returned, what matched in it. */
  function Replayed(lo: int, fetch: nat -> (Reply, map<int, seq<RawEvent>>)): nat -> BlockReplies {
    (k: nat) => BlockReplies(0, fetch(k / 100).0, Fetched(fetch(k / 100).1, lo + k), Ok)
  }

  function Fetched(blocks: map<int, seq<RawEvent>>, block: int): Option<seq<RawEvent>> {
    if block in blocks then Some(blocks[block]) else None
  }

  /** The blocks of one batch of a replay. */
  method ReplayTrxBatch(outbox: O.OutboxTable, lo: int, batchEnd: int, w: Setting, fetch: nat -> (Reply, map<int, seq<RawEvent>>), i: nat,
                        ghost rows: O.Rows)
    requires Genuine(w) && lo + 100 * i <= batchEnd < lo + 100 * i + 100
    requires outbox.rows == AfterBlocks(rows, w, Replayed(lo, fetch), 100 * i)
    modifies outbox
    ensures outbox.rows == AfterBlocks(rows, w, Replayed(lo, fetch), batchEnd - lo + 1)
  {
    var blocks := fetch(i).1;
    var block := lo + 100 * i;
    while block <= batchEnd
      invariant lo + 100 * i <= block <= batchEnd + 1
      invariant outbox.rows == AfterBlocks(rows, w, Replayed(lo, fetch), block - lo)
    {
      assert (block - lo) / 100 == i;
      var matched := if block in blocks then Some(blocks[block]) else None;
      PublishBlock(outbox, w, BlockReplies(0, Ok, matched, Ok));
      assert Replayed(lo, fetch)(block - lo).matched == matched;
      block := block + 1;
    }
  }

  method PublishBlock(outbox: O.OutboxTable, w: Setting, r: BlockReplies)
    requires Genuine(w)
    modifies outbox
    ensures outbox.rows == AfterBlock(old(outbox.rows), w, r)
  {
    var events := if r.matched.None? then [] else r.matched.value;
    if |events| > 0 {
      var n, done := outbox.EnqueueOutboxEvents(O.TRX, events, w.endpoints, w.oversized);
    }
    assert outbox.rows == BlockRows(w, old(outbox.rows), events);
  }

  /** Replays the native transfers of [lo, hi] and publishes what matched in the blocks returned; a block missing
      from its response is passed over. It stops only when a fetch fails, before the first block of that batch. */
  method ReplayTrxRange(outbox: O.OutboxTable, lo: int, hi: int, w: Setting, fetch: nat -> (Reply, map<int, seq<RawEvent>>))
    returns (ok: bool, passed: nat)
    requires Genuine(w)
    modifies outbox
    ensures ok ==> passed == Max(0, hi - lo + 1)
    ensures !ok ==> passed < hi - lo + 1 && passed % 100 == 0 && IsError(fetch(passed / 100).0)
    ensures !ok ==> HasBatch(lo - 1, hi, passed / 100)
    ensures forall i: nat :: 100 * i < passed ==> !IsError(fetch(i).0)
    ensures outbox.rows == AfterBlocks(old(outbox.rows), w, Replayed(lo, fetch), passed)
  {
    passed := 0;
    var batchStart := lo;
    var i: nat := 0;
    while batchStart <= hi
      invariant batchStart == lo + passed && passed <= Max(0, hi - lo + 1)
      invariant batchStart <= hi ==> passed == 100 * i
      invariant passed <= 100 * i
      invariant forall k: nat :: k < i ==> !IsError(fetch(k).0)
      invariant outbox.rows == AfterBlocks(old(outbox.rows), w, Replayed(lo, fetch), passed)
      decreases hi - batchStart
    {
      var batchEnd := batchStart + BATCH - 1;
      if batchEnd > hi {
        batchEnd := hi;
      }
      if IsError(fetch(i).0) {
        LengthIs(i);
        return false, passed;
      }
      ReplayTrxBatch(outbox, lo, batchEnd, w, fetch, i, old(outbox.rows));
      passed := batchEnd - lo + 1;
      batchStart := batchEnd + 1;
      i := i + 1;
    }
    ok := true;
  }

  /** The batch ends a replay: its blocks cannot be fetched, or there are some and their events cannot. */
  predicate Breaks(r: BatchReplies) {
    IsError(r.fetch) || (r.blocks != [] && IsError(r.answer))
  }

  /** Replays the events of a contract for [lo, hi]: `done` batches, those without blocks skipped. It
      stops only on an error, has published what the other batches brought, and neither reads nor writes a cursor. */
  method ReplayTrc20Range(outbox: O.OutboxTable, contract: string, lo: int, hi: int, w: Setting, replies: nat -> BatchReplies)
    returns (ok: bool, done: nat)
    requires Genuine(w)
    modifies outbox
    ensures (done > 0 ==> HasBatch(lo - 1, hi, done - 1)) && (ok <==> !HasBatch(lo - 1, hi, done))
    ensures !ok ==> Breaks(replies(done)) && forall i: nat :: i < done ==> !Breaks(replies(i))
    ensures ok ==> forall i: nat :: i < done ==> !Breaks(replies(i))
    ensures outbox.rows == AfterBatches(old(outbox.rows), contract, w, replies, lo - 1, hi, done)
  {
    done := 0;
    var batchStart := lo;
    while batchStart <= hi
      invariant batchStart <= hi ==> batchStart == lo + Length(done)
      invariant batchStart > hi ==> !HasBatch(lo - 1, hi, done)
      invariant done > 0 ==> HasBatch(lo - 1, hi, done - 1)
      invariant forall i: nat :: i < done ==> !Breaks(replies(i))
      invariant outbox.rows == AfterBatches(old(outbox.rows), contract, w, replies, lo - 1, hi, done)
      decreases hi - batchStart
    {
      var batchEnd := batchStart + BATCH - 1;
      if batchEnd > hi {
        batchEnd := hi;
      }
      AfterOneMoreBatch(lo - 1, hi, 0, done, CursorAfter(lo - 1, hi, 0, done), batchStart, batchEnd);
      var r := replies(done);
      if IsError(r.fetch) {
        return false, done;
      }
      if |r.blocks| == 0 {
        done := done + 1;
        batchStart := batchEnd + 1;
        continue;
      }
      if IsError(r.answer) {
        return false, done;
      }
      PublishReplies(outbox, contract, w, r, batchStart, batchEnd);
      done := done + 1;
      batchStart := batchEnd + 1;
    }
    ok := true;
  }

  // ----- The retain window over many polls

  /** The cursor a scan leaves, finished or stopped anywhere. */
  function AfterScan(cursor: int, s: Scan, retain: int): int {
    CursorAfter(cursor, s.target, retain, s.committed)
  }

  /** The cursor after the first `i` of a series of scans. */
  function CursorBefore(start: int, scans: seq<Scan>, retain: int, i: nat): int
    requires i <= |scans|
  {
    if i == 0 then start else AfterScan(CursorBefore(start, scans, retain, i - 1), scans[i - 1], retain)
  }

  /** The series can happen: each of the first `i` scans starts where the one before left the cursor. */
  ghost predicate Series(start: int, scans: seq<Scan>, retain: int, i: nat)
    requires i <= |scans|
  {
    i > 0 ==> Series(start, scans, retain, i - 1) && Possible(CursorBefore(start, scans, retain, i - 1), scans[i - 1])
  }

  /** The last block of the first `k` batches. */
  function Reach(cursor: int, target: int, k: nat): int {
    if k == 0 then cursor else Min(cursor + Length(k), target)
  }

  /** The blocks that a scan asks for. */
  predicate QueriedBy(start: int, scans: seq<Scan>, retain: int, i: nat, block: int)
    requires i < |scans|
  {
    CursorBefore(start, scans, retain, i) < block <= Reach(CursorBefore(start, scans, retain, i), scans[i].target, scans[i].queried)
  }

  /** How far behind its end the last committed batch leaves the cursor. */
  function Lag(cursor: int, s: Scan, retain: int): int
    requires s.committed > 0
  {
    var length := Reach(cursor, s.target, s.committed) - (cursor + Length(s.committed - 1));
    if retain <= 0 then 0 else Min(retain, length)
  }

  /** A scan leaves a block open if it commits nothing, or the block is within the lag of its last
      committed batch. */
  predicate LeftOpen(cursor: int, s: Scan, retain: int, block: int) {
    s.committed > 0 ==> Reach(cursor, s.target, s.committed) - block < Lag(cursor, s, retain)
  }

  lemma ScanPassesBlockIff(cursor: int, s: Scan, retain: int, block: int)
    requires Possible(cursor, s)
    ensures AfterScan(cursor, s, retain) < block <==> cursor < block && LeftOpen(cursor, s, retain, block)
  {
    if s.committed > 0 {
      LengthIs(s.committed - 1);
      LengthIs(s.queried - 1);
    }
  }

  /** Every one of the first `i` scans left the block open. */
  ghost predicate KeptOpen(start: int, scans: seq<Scan>, retain: int, i: nat, block: int)
    requires i <= |scans|
  {
    i > 0 ==> && KeptOpen(start, scans, retain, i - 1, block)
              && LeftOpen(CursorBefore(start, scans, retain, i - 1), scans[i - 1], retain, block)
  }

  lemma {:induction false} AboveCursorIffKeptOpen(start: int, scans: seq<Scan>, retain: int, i: nat, block: int)
    requires start < block && i <= |scans| && Series(start, scans, retain, i)
    ensures CursorBefore(start, scans, retain, i) < block <==> KeptOpen(start, scans, retain, i, block)
  {
    if i == 0 {
    } else {
      AboveCursorIffKeptOpen(start, scans, retain, i - 1, block);
      ScanPassesBlockIff(CursorBefore(start, scans, retain, i - 1), scans[i - 1], retain, block);
    }
  }

  /** For every series of scans, each finished or stopped after any number of batches, its last cursor
      write done or not: a block above the initial cursor is asked for by scan `i` exactly when the scan gets
      that far and every earlier scan left the block open. */
  lemma RequeriedExactly(start: int, scans: seq<Scan>, retain: int, i: nat, block: int)
    requires start < block && i < |scans| && Series(start, scans, retain, i)
    ensures QueriedBy(start, scans, retain, i, block) <==>
            && block <= Reach(CursorBefore(start, scans, retain, i), scans[i].target, scans[i].queried)
            && KeptOpen(start, scans, retain, i, block)
  {
    AboveCursorIffKeptOpen(start, scans, retain, i, block);
  }

  /** Not yet `retain` blocks behind the target of any of the first `i` scans that moved the cursor. */
  ghost predicate Recent(scans: seq<Scan>, retain: int, i: nat, block: int)
    requires i <= |scans|
  {
    forall j :: 0 <= j < i && scans[j].committed > 0 ==> scans[j].target - block < retain
  }

  /** None of the first `i` scans starts more than one batch behind its target. */
  ghost predicate OneBatchEach(start: int, scans: seq<Scan>, retain: int, i: nat)
    requires i <= |scans|
  {
    i > 0 ==> && OneBatchEach(start, scans, retain, i - 1)
              && scans[i - 1].target - CursorBefore(start, scans, retain, i - 1) <= BATCH
  }

  lemma RecentUnfold(scans: seq<Scan>, retain: int, i: nat, block: int)
    requires 0 < i <= |scans|
    ensures Recent(scans, retain, i, block) <==>
            Recent(scans, retain, i - 1, block) && (scans[i - 1].committed > 0 ==> scans[i - 1].target - block < retain)
  {
  }

  lemma OneBatchPassesBlockIff(cursor: int, s: Scan, retain: int, block: int)
    requires retain > 0 && s.target - cursor <= BATCH && Possible(cursor, s)
    ensures AfterScan(cursor, s, retain) < block <==> cursor < block && (s.committed > 0 ==> s.target - block < retain)
  {
    ScanPassesBlockIff(cursor, s, retain, block);
    if s.committed > 0 {
      LengthIs(s.committed - 1);
    }
  }

  lemma {:induction false} AboveCursorIffRecent(start: int, scans: seq<Scan>, retain: int, i: nat, block: int)
    requires retain > 0 && start < block && i <= |scans| && Series(start, scans, retain, i) && OneBatchEach(start, scans, retain, i)
    ensures CursorBefore(start, scans, retain, i) < block <==> Recent(scans, retain, i, block)
  {
    if i == 0 {
    } else {
      AboveCursorIffRecent(start, scans, retain, i - 1, block);
      OneBatchPassesBlockIff(CursorBefore(start, scans, retain, i - 1), scans[i - 1], retain, block);
      RecentUnfold(scans, retain, i, block);
    }
  }

  /** Series in which no scan starts more than one batch behind, whether it succeeds or fails: a block is
      asked for again by each later scan that gets that far, until it is `retain` blocks behind the target of
      some scan that moved the cursor, and by none after. */
  lemma RetainGuarantee(start: int, scans: seq<Scan>, retain: int, i: nat, block: int)
    requires retain > 0 && start < block && i < |scans| && Series(start, scans, retain, i) && OneBatchEach(start, scans, retain, i)
    ensures QueriedBy(start, scans, retain, i, block) <==>
            && block <= Reach(CursorBefore(start, scans, retain, i), scans[i].target, scans[i].queried)
            && Recent(scans, retain, i, block)
  {
    AboveCursorIffRecent(start, scans, retain, i, block);
  }

  /** The scan that gets all the way. */
  function Complete(cursor: int, latest: int): Scan {
    Scan(latest, BatchCount(cursor, latest), BatchCount(cursor, latest))
  }

  /** A complete scan leaves the whole retain window open if and only if its last batch is that long. */
  lemma FullWindowIff(cursor: int, latest: int, retain: int)
    requires retain > 0 && cursor < latest
    ensures latest - AfterScan(cursor, Complete(cursor, latest), retain) == retain <==> LastBatch(cursor, latest) >= retain
  {
    Trc20CursorClosedForm(cursor, latest, retain);
  }

  /** A scan that is 101 blocks behind keeps one block open instead of fifty. */
  lemma ShortWindowExample()
    ensures var scans := [Complete(1000, 1101), Complete(1100, 1102)];
            AfterScan(1000, scans[0], 50) == 1100 && Series(1000, scans, 50, 2) && !QueriedBy(1000, scans, 50, 1, 1080)
  {
    var scans := [Complete(1000, 1101), Complete(1100, 1102)];
    assert CursorBefore(1000, scans, 50, 0) == 1000;
    assert CursorBefore(1000, scans, 50, 1) == 1100;
    assert Series(1000, scans, 50, 0) && Series(1000, scans, 50, 1);
  }
}
