# Tronvent: a verified model of the scanner, the outbox and the delivery worker

Tronvent watches a chain for transfers that touch watched addresses and delivers a webhook for each
of them. Any number of replicas share one database. This project models the state machines around its
rows and proves what holds over every run of them:

- a block that a cursor has passed was published in full, or waits in a job that will be handed out or that a
  process is replaying, or one of eight named causes says why not, across crashes, lease takeovers, retained
  rescans, startup reconciles and replays (`ScanProtocol`, `ScanLoops`, `CursorLease`, `Reconcile`, `JobQueue`);
  each cause has a run that ends in it (`LostBlocks`), a job whose taker is gone stays so (`OrphanedJobs`), and a
  run in which no answer is incomplete, no enqueue fails and each job is marked records no cause (`HarmlessRuns`);
- a scan, replay or reconcile that is left alone and answered in full gets done, from whatever state
  (`CompleteScans`, `CompleteReplays`, `CompleteReconciles`); what an error or a lost lease does to it is stated
  exactly, and a renewed lease shields its scope from all others (`Failures`);
- an index that lags by less than the retain window loses no block (`RetainWindow`);
- the outbox ends with the same rows however blocks are scanned, rescanned and replayed (`Outbox`,
  `BatchWindow`, `TransferKeys`), and a whole scan or replay adds exactly the keys of the blocks it asked for
  (`WholeScans`). In the interleaved protocol the outbox holds at every moment what the visited blocks
  call for, and nothing but what the blocks begun call for (`Plans`, `EndToEnd`). It is exact as soon as every
  block begun has been visited; without crashes, as soon as no batch is under way and every block begun that was
  ever passed over has been visited since (`Quiescence`);
- the in-memory prefilter with its confirmation cache matches what the watchlist itself would, and
  follows the watchlist across lost connections (`Matching`, `WatchSync`);
- deliveries are attempted as often as allowed and when scheduled (`Delivery`, `RetrySchedule`),
  endpoints can be deleted while events are fanned out (`EndpointLocks`), and the in-memory endpoint
  list, signing keys and API keys behave (`EndpointStore`, `KeyPool`).

`dafny verify dfyconfig.toml` checks everything.

## How it is modelled

A database statement or transaction is one atomic change of a map of rows, and all of them read one
clock that never goes back. Each table, store, cache and pool that the program updates in place is a
class; its methods have the program's loops and branches and are proved against specification
functions. A protocol with several actors is a datatype of steps, a total function `Apply` (a step that is
not enabled changes nothing) and `Run` over a sequence of steps, so "for every run" is "for every sequence
of steps". Fetches and database calls take their outcome as a parameter: `Ok`, `Empty`, `Err` (failed
without effect) or `ErrApplied` (took effect, then reported an error). A crash is a step that
forgets a process between any two actions.

## Where the code promises less than one would hope

Each of these is stated exactly, with a run or an input that shows it:

- A reconcile whose enqueue of a range fails still moves the cursor over that range
  (`cmd/tronvent/main.go:282-294`). It leaves no hole if and only if no enqueue failed:
  `Reconcile.HoleIffEnqueueFailed`, `LostBlocks.FailedEnqueueLeavesGap`.
- A job whose replays fail ten times is dead (`internal/db/db.go:137`): nobody takes it again although the
  cursor has passed its blocks: `LostBlocks.DeadJobLeavesGap`.
- A job is left `running` for good when its taker crashes, or when marking it failed or completed fails, which
  is only logged (`internal/scanner/poller.go:245-257`): the queue hands out pending and failed jobs only
  (`internal/db/db.go:72`). `LostBlocks.OrphanedJobLeavesGap`, `OrphanedJobs.OrphanedForever`.
- A TRC-20 replay skips a batch for which no blocks came back, and its job still completes
  (`internal/scanner/poller.go:811-815`), while a forward scan stops there and tries again:
  `LostBlocks.EmptyReplayLeavesGap`. A native block missing from a response is passed over in
  scans and replays alike (`internal/scanner/poller.go:453-455`): `LostBlocks.MissingBlockLeavesGap`.
- The events of a TRC-20 block are asked for by time span. Those of a block outside the span of the
  returned blocks are missed although the cursor passes it: `BatchWindow.EventKeptIff`,
  `Plans.SpanIsIndexed`, `LostBlocks.PartialResponseLeavesGap`. Those that the index does not hold yet are missed
  unless the retain window asks again: `LostBlocks.LateIndexLeavesGap`. When the window is enough is said by
  `RetainWindow.LagWithinWindowLosesNothing`.
- An error while an event is enqueued is logged, the rest of its block is dropped, and the cursor moves on
  (`internal/scanner/poller.go:456-466`): `LostBlocks.FailedPublishLeavesGap`.
- The comment on `trc20CursorAfterBatch` says that the cursor stays `retain` blocks behind. It does so
  if and only if the last batch is that long; a scan that is 101 blocks behind keeps one block open:
  `ScanLoops.FullWindowIff`, `ScanLoops.ShortWindowExample`.
- The comment on `SetScannedBlock` ("must not be actively leased to a different worker") leaves out
  that no lease at all is needed. At the deadline itself another worker may already write the cursor but not
  yet claim the scope: `CursorLease.DeadlineEdges`.
- Marks do not check who holds the row, so a worker that was given up on can turn a delivered event
  back to failed: `Delivery.LateMarkUndoesDelivery`. A delivered event stays delivered exactly when no outstanding
  claim is first marked as a failure: `Delivery.StaysDeliveredIff`.
- A failed reload on a notification, or two overlapping reloads, can leave an active address out of
  the filter until the next reload: `WatchSync.FailedReloadLosesWatch`, `WatchSync.OverlappingReloadsLoseWatch`,
  exactly when `WatchSync.LostWatchIff` says.
- An administrator's retry between the check and the delete of an unforced endpoint deletion is
  discarded with the endpoint: `EndpointLocks.RetryAfterCheckIsDiscarded`. Such a status change after the check
  is the only way to lose an undelivered row: `EndpointLocks.DiscardsUndeliveredIff`.
- The stale-lock clause of the job claim (`internal/db/db.go:74`) never decides anything:
  `JobQueue.EligibleIffWaitingAndDue`.
- Outbox keys join their fields with colons, and are ambiguous for fields that hold one:
  `TransferKeys.ColonsMakeKeysAmbiguous`. Chain addresses, hashes and amounts hold none.

## Model

| member | source | states |
|---|---|---|
| EndToEnd.WatchedTransfersReachOutbox | internal/scanner/poller.go:355-948 | Over every interleaved run, whatever fails: the outbox has the keys of each block a cursor has passed, or the block waits in a job that will be handed out or that a live process is replaying, or a named cause passed it over |
| EndToEnd.EachTransferReachesOutbox | internal/scanner/matched_events.go:37-46 | The same per transfer: for each transfer of a passed block, each of its roles with a watched address and each active endpoint that takes events of that type, the key is in the outbox, or the block waits in such a job, or has a cause |
| EndToEnd.OutboxBounds | internal/scanner/poller.go:650-659 | In every state of every run, crashes between any two enqueue transactions included: the outbox holds its old rows untouched, all keys that the visited blocks call for, and no key but those that the blocks begun call for: none for an address that is not watched in its role, an inactive endpoint, or a type that the endpoint did not ask for |
| EndToEnd.StepKeepsRows | internal/scanner/poller.go:935-948 | Each single action keeps those bounds, and every event of a batch under way is enqueued, still queued, or cut off by an error |
| EndToEnd.EventStaysAccounted | internal/scanner/poller.go:623-659 | One enqueue transaction: an event dropped as a repeat is taken care of by the one that was kept, in whatever block that is |
| EndToEnd.PublishedAlone | internal/scanner/poller.go:935-948 | Without errors and interruptions the single transactions of a batch add up to publishing its events in order |
| Quiescence.ExactWhenQuiet | internal/scanner/poller.go:650-659 | In every run without crashes, once no block begun is under way, and each one for which a loss was ever recorded has been visited, by a rescan or a replay: the outbox holds exactly its old rows and the keys of the visited blocks |
| Quiescence.ExactWhenVisited | internal/scanner/poller.go:650-659 | In every run, crashes included: whenever all blocks begun have been visited, the outbox holds exactly its old rows and the keys of the visited blocks |
| Quiescence.StepKeepsBegun | internal/scanner/poller.go:650-659 | Each action but a crash keeps: a block of which an event was enqueued is visited, lost for a cause, or in a batch under way |
| Plans.PlanIsReal | internal/scanner/poller.go:589-644 | A batch plans to enqueue only events of roles with a watched address, of transfers that are on the chain in the batch's range |
| Plans.PlanHoldsWhole | internal/scanner/poller.go:623-629 | For each block whose transfers were all at hand, every batch key the block calls for is planned, repeats dropped or not |
| Plans.SpanIsIndexed | internal/scanner/poller.go:561-573 | When the index has caught up, every block inside the span of the blocks returned has all its events answered; of a block outside the span none ever is |
| Plans.CompleteBatchAddsSpan | internal/scanner/poller.go:561-659 | From the time window to the outbox: a fully answered batch adds exactly the keys of the blocks from the lowest to the highest one returned |
| ScanProtocol.NoGap | internal/scanner/poller.go:355-689 | Every block between a scope's initial and current cursor was published in full, waits in a job that is pending, failed or being replayed by a live process, or is recorded under one of eight causes, for all interleavings of scans, reconciles, replays, takeovers, expiries, failures, partial answers and crashes |
| ScanProtocol.NoGapWithoutLoss | cmd/tronvent/main.go:224-303 | A passed block with no cause recorded against it was published in full, or waits in a job that will be handed out or that a live process is replaying |
| ScanProtocol.StepKeepsInv | internal/scanner/poller.go:497-689 | Each single action keeps: no process may ever write a cursor beyond ground that is covered in its scope, where a job covers ground only while it waits or some process has it |
| ScanProtocol.RunKeepsInv | internal/scanner/poller.go:695-737 | The same invariant over every run |
| ScanProtocol.SaveKeepsInv | internal/db/scanner.go:616-664 | A cursor write is covered even by a worker whose lease was lost meanwhile |
| ScanProtocol.EnqueueKeepsInv | cmd/tronvent/main.go:272-287 | A reconciled range counts as covered only through an inserted job or a loss recorded for the reconciled scope, and stale cursor reads only overlap |
| ScanProtocol.ReplayFinishKeepsInv | internal/db/db.go:126-149 | A job is completed only after each scope has passed its whole range; when it dies, or its mark itself fails, what nobody has passed is recorded |
| ScanProtocol.MarkKeepsInv | internal/db/db.go:114-149 | A mark that took effect keeps the invariant: no block of a completed or dead job is left without having been passed or recorded |
| ScanProtocol.GoneKeepsInv | internal/scanner/poller.go:245-257 | The taker of a job is gone without a mark, by a crash or by a mark that failed: the blocks of its range that nobody has passed are recorded as orphaned |
| ScanProtocol.SettledPasses | internal/scanner/poller.go:409-467 | At the end of a batch each of its blocks is visited or has the cause that kept it from being so: not returned, outside the span, not indexed, or not published |
| HarmlessRuns.StepLosesNothing | internal/scanner/poller.go:355-924 | An action records no loss unless a response is incomplete, an enqueue fails, a taken job is left without its mark, or a job fails for the last time; errors of fetches, renewals and cursor writes never cost a block |
| HarmlessRuns.HarmlessRunIsComplete | internal/scanner/poller.go:355-924 | In every run without such actions, whatever else fails, crashes or is taken over: each block that a cursor has passed was published in full, with its keys in the outbox, or waits in a job that will be handed out or that a process is replaying |
| CompleteScans.ScanCompletes | internal/scanner/poller.go:384-689 | From every state: a scan that can have its lease, is answered in full and left alone ends, with every block from its origin to its target visited, nothing lost, the lease free, everything else untouched and the cursor where the loops of `ScanLoops` leave it |
| CompleteScans.Publishes | internal/scanner/poller.go:456-466 | In such a scan a batch enqueues its whole queue, one transaction per event, before its cursor is saved |
| CompleteReplays.ReplayCompletes | internal/scanner/poller.go:695-737 | From every state: a due job that is taken, answered in full and marked is completed, with every block of its range visited in every scope, nothing lost, and no cursor and no other job changed |
| CompleteReconciles.ReconcileCompletes | cmd/tronvent/main.go:224-303 | From every state: a reconcile that can have its lease and gets no error queues exactly the tiling of its gap into full ranges, and moves the cursor to the safe block; nothing else changes |
| CompleteReconciles.ReconcileStartsIff | cmd/tronvent/main.go:225-245 | A reconcile acts exactly on scopes with a cursor that is a whole batch or more behind, 1000 blocks by default |
| CompleteReconciles.ClaimGoesOnIff | cmd/tronvent/main.go:247-256 | It goes on from its claim exactly when it gets the lease, and otherwise ends with nothing queued |
| CompleteReconciles.RenewalGoesOnIff | cmd/tronvent/main.go:272-277 | It goes on from a renewal exactly when it still has the lease, and otherwise leaves with its cursor where it was |
| CompleteScans.ColdScopeIsPinned | internal/scanner/poller.go:361-379 | A scope without cursor and start block is pinned to the safe tip by its first scan, which scans nothing |
| CompleteScans.FirstScanStartsAfter | internal/scanner/poller.go:361-382 | With a configured start block the first scan begins at the block after it |
| Failures.ScanStartsIff | internal/db/scanner.go:546-574 | A scan starts exactly when its claim succeeds and is answered; if only the answer is lost the lease is taken for nobody |
| Failures.ReplayStartsIff | internal/db/db.go:55-110 | A replay starts exactly when its job waits and is due and the claim is answered; if only the answer is lost the job runs for nobody, and that is recorded |
| Failures.ReversedJobFails | internal/scanner/poller.go:695-698 | The replay of a job with a reversed range ends at once in a failure |
| Failures.ScanStopsIff | internal/scanner/poller.go:384-689 | A scan short of its target goes on to leave exactly on an error of a read, fetch, renewal or cursor write, without its lease, against another's lease, or without blocks for a contract; enqueue errors never end it |
| Failures.FailedActionHasNoEffect | internal/scanner/poller.go:384-689 | An action that failed without effect leaves cursors, leases, jobs and outbox as they are |
| Failures.ReplayKeepsToRange | internal/scanner/poller.go:695-924 | A replay visits and passes over only blocks of the range of its job |
| Failures.LeaseShields | internal/db/scanner.go:546-664 | In every run, until the deadline of a lease, nothing that other processes do, crashes included, changes its row or the scan that holds it |
| Failures.RenewedScanKeepsScope | internal/scanner/scope_lease.go:64-69 | So a scan keeps its scope for ten minutes from each renewal |
| LostBlocks.FailedEnqueueLeavesGap | cmd/tronvent/main.go:282-294 | A run in which one failed enqueue leaves a passed block that nobody published and no job holds, for every chain and outbox |
| LostBlocks.EmptyReplayLeavesGap | internal/scanner/poller.go:811-815 | The same for an empty replay batch, although every enqueue succeeded |
| LostBlocks.MissingBlockLeavesGap | internal/scanner/poller.go:453-455 | The same for a native block missing from its response |
| LostBlocks.PartialResponseLeavesGap | internal/scanner/poller.go:561-573 | The same for a TRC-20 block outside the span of the blocks returned |
| LostBlocks.LateIndexLeavesGap | internal/scanner/poller.go:974-990 | The same, without a retain window, for a TRC-20 block whose events the index did not hold yet |
| LostBlocks.FailedPublishLeavesGap | internal/scanner/poller.go:456-466 | The same for a native block whose only event could not be enqueued |
| LostBlocks.DeadJobLeavesGap | internal/db/db.go:134-143 | The same for a job whose replays failed ten times |
| LostBlocks.OrphanedJobLeavesGap | internal/db/db.go:66-77 | The same for a job whose taker crashed: the job stays running and no process has it |
| OrphanedJobs.OrphanedForever | internal/db/db.go:66-77 | In every continuation of every run a running job that no process has stays exactly as it is, and no process ever has it again |
| RetainWindow.LagWithinWindowLosesNothing | internal/scanner/poller.go:974-990 | In every interleaved run, crashes and failures included, whose scans of a contract are at most one batch behind and that no reconcile jumps over: if the scans that ask for a block when it is `retain` or more blocks behind their target find it, then a cursor past the block means that it was published in full and its keys are in the outbox, whatever earlier scans were answered |
| RetainWindow.StepKeeps | internal/scanner/poller.go:497-689 | Each action keeps: only a scan that has visited the block, or holds all it needs to, may put the cursor past it |
| RetainWindow.SettleKeeps | internal/scanner/poller.go:646-680 | A batch whose cursor write would pass the block has asked for it late, and so ends with the block visited |
| RetainWindow.FoundWhenCaughtUp | internal/scanner/poller.go:561-573 | A scan finds a block when its response spans it and the index has caught up |
| ScanLoops.Trc20CursorClosedForm | internal/scanner/poller.go:977-990 | A complete TRC-20 scan ends at the larger of `retain` blocks behind its target and the start of its last batch, or at the target without a window |
| ScanLoops.BatchesPartition | internal/scanner/poller.go:526-533 | The batches of a range are non-empty, at most 100 long, and each block lies in exactly one |
| ScanLoops.RenewScopeLease | internal/scanner/scope_lease.go:64-69 | Renewing keeps every other row and the cursor, and fails exactly when the database does |
| ScanLoops.ScanTrc20Batch | internal/scanner/poller.go:526-680 | A batch asks for events exactly when nothing failed before and blocks came back, then publishes them and only then moves the cursor, never back; it finishes if and only if nothing fails, and a failed write keeps the cursor |
| ScanLoops.StartScan | internal/scanner/poller.go:502-514 | The origin of a scan is the stored cursor, else the configured start block, else the safe tip, to which only a scope without cursor and start block is pinned |
| ScanLoops.ScanTrc20WithLease | internal/scanner/poller.go:526-689 | The loop finishes if and only if every batch is answered without a failure, and otherwise stops at the first that is not; wherever it stops, the outbox has what the batches asked for brought (as keys: `WholeScans.BatchesAdd`), those are the first ones from the origin, and the cursor is that of the last write that took effect, one batch behind at most |
| ScanLoops.ScanTrxWithLease | internal/scanner/poller.go:384-489 | The loop finishes if and only if no block has an erring reply, and otherwise stops at the first that has; wherever it stops, the outbox has what the blocks passed brought (as keys: `WholeScans.BlocksAdd`), missing blocks bring nothing, an enqueue error costs the rest of its block, and the cursor is the last block passed or the one before |
| ScanLoops.ScanTrxBlock | internal/scanner/poller.go:420-467 | A block is published before the cursor reaches it; only a fetch or renewal error keeps it unpublished, and without an error in fetch, renewal or write its number is saved |
| ScanLoops.ScanTrxBatch | internal/scanner/poller.go:409-467 | All blocks of a batch are saved if and only if none has an erring reply; a failure names the first such block, which has been published unless it could not be fetched |
| ScanLoops.PublishReplies | internal/scanner/poller.go:561-659 | The events of a batch are asked for by the smallest and largest time of the blocks returned, and published |
| ScanLoops.ScanTrc20 | internal/scanner/poller.go:491-495 | A whole scan touches no other scope, leaves no lease behind, publishes what its batches brought (as keys: `WholeScans.ScanContract`), and when it finishes the cursor has its closed form |
| ScanLoops.ReplayTrxRange | internal/scanner/poller.go:741-798 | A replay publishes the matched events of every block that came back, block by block, an enqueue error costing the rest of its block and a missing block bringing nothing; it stops exactly at the first batch whose fetch fails and passes the whole range otherwise (as keys: `WholeScans.ReplayNative`) |
| ScanLoops.ReplayTrc20Range | internal/scanner/poller.go:800-924 | A replay publishes what each batch brought, nothing for one without blocks, stops exactly at the first batch whose blocks or events cannot be fetched, and otherwise does every batch of the range (as keys: `WholeScans.ReplayContract`) |
| WholeScans.BatchesAdd | internal/scanner/poller.go:526-680 | Against a node that answers from the chain, with nothing too large: wherever the loop of a contract stops, the outbox has its old rows and exactly the keys of the blocks from the lowest to the highest one returned of each batch so far |
| WholeScans.AskedIsRange | internal/scanner/poller.go:526-573 | When both ends of every batch came back, those are all blocks of the range |
| WholeScans.ScanContract | internal/scanner/poller.go:491-689 | A finished scan of a contract for which both ends of every batch came back adds exactly the keys of the blocks from its origin to its target; stopped earlier, exactly those of the blocks asked about; refused, nothing |
| WholeScans.ReplayContract | internal/scanner/poller.go:800-924 | The same for a replay of a range |
| WholeScans.BlocksAdd | internal/scanner/poller.go:409-467 | Wherever a native loop stops, the outbox has its old rows and exactly the keys of the blocks that came back |
| WholeScans.ScanNative | internal/scanner/poller.go:384-489 | A finished native scan without a missing block adds exactly the keys of the blocks from its origin to its target; otherwise exactly those of the blocks that came back |
| WholeScans.ReplayNative | internal/scanner/poller.go:741-798 | The same for a replay of a range |
| ScanLoops.RequeriedExactly | internal/scanner/poller.go:974-990 | For every series of scans, finished or stopped after any number of batches, the last cursor write done or not: scan i asks for a block if and only if it gets that far and every earlier scan left the block open |
| ScanLoops.RetainGuarantee | internal/scanner/poller.go:974-990 | When no scan starts more than a batch behind, succeeding or failing: a block is asked for by each scan that gets that far until it is `retain` blocks behind the target of one that moved the cursor, and by none after |
| ScanLoops.FullWindowIff | internal/scanner/poller.go:974-990 | The whole window stays open if and only if the last batch is at least that long |
| ScanLoops.ShortWindowExample | internal/scanner/poller.go:974-990 | A scan 101 blocks behind with a window of 50 keeps one block open |
| CursorLease.LeaseSpan | internal/db/scanner.go:547-553 | A granted lease lasts at least a second and loses less than a second to truncation |
| CursorLease.CursorTable.GetScannedBlock | internal/db/scanner.go:491-503 | The cursor of the row, zero without one |
| CursorLease.CursorTable.TryClaimScannerScope | internal/db/scanner.go:546-574 | A claim succeeds exactly on a free, expired or own row; then the worker holds the scope to the end of its span and is told the cursor, which stays; nothing else changes |
| CursorLease.CursorTable.RenewScannerScopeLease | internal/db/scanner.go:577-598 | A renewal succeeds for the holder only, expired or not |
| CursorLease.CursorTable.ReleaseScannerScope | internal/db/scanner.go:602-612 | Afterwards the worker does not hold the scope; a row held by another is not touched |
| CursorLease.CursorTable.SetScannedBlock | internal/db/scanner.go:616-674 | The cursor becomes the larger of itself and the block, or the write is refused, which happens exactly against another's live lease; leases and other rows stay |
| CursorLease.StepKeepsGrantsBacked | internal/db/scanner.go:555-566 | Each operation keeps: what a worker believes to hold is in the row to the same deadline, or is over |
| CursorLease.AtMostOneHolder | internal/scanner/scope_lease.go:41-69 | At every instant of every run at most one worker has an unreleased grant whose deadline has not passed |
| CursorLease.LiveGrantFreezesRow | internal/db/scanner.go:546-664 | While a grant lasts nothing that other workers do, however often and interleaved with time, changes the row |
| CursorLease.OtherStepChangesNothing | internal/db/scanner.go:645-647 | Against a live grant every claim, renewal, release and write by another worker is refused |
| CursorLease.DeadlineEdges | internal/db/scanner.go:562-564 | Another worker may write from the deadline on, but claim only after it |
| CursorLease.CursorNeverDecreases | internal/db/scanner.go:648-656 | Over every run rows stay and cursors never move back |
| CursorLease.ClaimLasts | internal/db/scanner.go:546-574 | A successful claim is a live grant for the whole span of its lease |
| CursorLease.RenewalLasts | internal/db/scanner.go:577-598 | So is a renewal, from its own time on |
| CursorLease.ReleaseFrees | internal/db/scanner.go:602-612 | After a release every worker can claim and write at once, and the cursor has not moved |
| Reconcile.TilingPartitions | cmd/tronvent/main.go:272-281 | Every block of the gap lies in exactly one range, and no other block in any |
| Reconcile.TilesInside | cmd/tronvent/main.go:278-281 | Every range is non-empty and inside the gap |
| Reconcile.HoleIffEnqueueFailed | cmd/tronvent/main.go:282-286 | The jump leaves no hole if and only if no enqueue failed |
| Reconcile.EnqueueRanges | cmd/tronvent/main.go:270-287 | The loop queues full ranges of the batch size, the last one cut at the safe block, in order; an attempt yields its job exactly when its insert succeeds under a new id; it stops early only when a renewal fails, with the ranges so far queued |
| Reconcile.InsertedAreQueued | cmd/tronvent/main.go:282-287 | No job that was queued is replaced by a later one of the same reconcile |
| Reconcile.ReconcileScope | cmd/tronvent/main.go:224-303 | Each outcome has its exact condition: skipped, too small a gap, not claimed; a lost lease and a failed jump only when the database failed; otherwise the gap is tiled into jobs and the cursor is the safe block exactly. No lease is left behind and the rows of all other scopes stay as they were |
| JobQueue.JobTable.EnqueueBlockRangeJob | internal/db/db.go:42-54 | Adds one pending job and touches no other |
| JobQueue.JobTable.ClaimBlockRangeJobs | internal/db/db.go:56-101 | Exactly the eligible candidates are handed out, each with one more attempt; all other rows stay |
| JobQueue.JobTable.CompleteJob | internal/db/db.go:114-124 | Completes one job, whatever its status was |
| JobQueue.JobTable.FailJob | internal/db/db.go:126-149 | Fails one job, for good when its attempts are used up |
| JobQueue.AttemptsBounded | internal/db/db.go:126-149 | Over every run a job is handed out exactly `attempts` times and never more than its cap; failed means attempts left, dead means none |
| JobQueue.RunningMeansOneClaim | internal/db/db.go:60-83 | A job is running if and only if one claim on it is outstanding, and never more than one is |
| JobQueue.TerminalForever | internal/db/db.go:114-149 | Completed and dead jobs never change again |
| JobQueue.EligibleIffWaitingAndDue | internal/db/db.go:72-74 | A job can be claimed if and only if it waits and is due: the stale-lock clause adds nothing |
| JobQueue.EachAttemptIsGiven | internal/db/db.go:55-149 | A job whose replays keep failing is handed out each time it is due, exactly as often as its cap says, ten times unless set otherwise, and is then dead with its range unchanged |
| JobQueue.FailedJobRests | internal/db/db.go:126-149 | A failed job rests for the delay it was given, a minute by default, whatever the replicas do meanwhile |
| TransferKeys.TrimSpace | internal/webhookpayload/transfer.go:6-8 | Trimmed text neither begins nor ends with a space and gains no separator |
| TransferKeys.TrimDropsOnlyBlanks | internal/webhookpayload/transfer.go:6-8 | Trimming drops blanks at both ends and nothing else |
| TransferKeys.IsSpaceIff | internal/webhookpayload/transfer.go:6-8 | The blanks are the 25 characters with the White_Space property of Unicode |
| TransferKeys.DedupeKeyText | internal/db/scanner.go:814-818 | The order of the fields in the stored key and in the batch key |
| TransferKeys.JoinInjective | internal/webhookpayload/transfer.go:6-8 | Lists of colon-free fields join to the same text if and only if they are equal |
| TransferKeys.DedupeKeyFaithful | internal/db/scanner.go:814-818 | Two outbox keys are equal if and only if scope, transaction, type, trimmed addresses and amount, and endpoint are |
| TransferKeys.EventTypeFaithful | internal/webhookpayload/envelope.go:50-69 | Kind and direction can be read back from the event type |
| TransferKeys.ColonsMakeKeysAmbiguous | internal/webhookpayload/transfer.go:6-8 | Two different transfers with colons in their addresses that share a key |
| TransferKeys.BatchKeyAgreesWithOutboxKey | internal/scanner/transfer_key.go:9-11 | Within a scope the batch key tells events apart exactly as the outbox keys do |
| TransferKeys.CurrentKeyIsNeverLegacy | internal/db/scanner.go:733-736 | A key of the current form never equals either older form of its transaction |
| Outbox.OutboxTable.EnqueueWebhookEvent | internal/db/scanner.go:744-853 | The transaction adds the fan-out of the event, or nothing at all exactly when its payload is too large and some existing endpoint wants it; an id is reported exactly when a row was added |
| Outbox.OutboxTable.EnqueueOutboxEvents | internal/scanner/poller.go:935-948 | Exactly the events before the first failing one are published, in order; an error is reported exactly when one was cut, and the number reported is that of the events that added a row |
| Outbox.InsertingIff | internal/scanner/poller.go:935-948 | That number is zero exactly when nothing was added |
| Outbox.BeforeErrorAppend | internal/scanner/poller.go:935-948 | Events that succeed come through whatever follows, and an error after them cuts only what comes later |
| Outbox.FanOutAddsKeys | internal/db/scanner.go:765-842 | Without older rows, exactly the missing keys of the active subscribed endpoints are added, and no row is overwritten |
| Outbox.WantsIff | internal/webhookpayload/envelope.go:108-116 | An endpoint is served exactly when it is active and lists the type of the event, blanks aside, or lists none |
| Outbox.KeysOfIff | internal/db/scanner.go:769-813 | The keys of an event are those of the endpoints that are active and list its type or none |
| Outbox.FanOutIff | internal/db/scanner.go:765-842 | Over any rows, older ones included: a key is there afterwards exactly when it was before, or is that of an active endpoint that takes the type, is not deleted, and has no older row of the same transfer; rows stay as they are and new ones hold this event |
| Outbox.LegacyIff | internal/db/scanner.go:724-741 | The skip for older rows looks at the key of the transaction, and of the transaction with the endpoint, and compares addresses and amount |
| Outbox.FailsIff | internal/db/scanner.go:769-806 | An enqueue fails for its size exactly when the payload is too large and some active endpoint takes the type |
| Outbox.CurrentRowsHideNothing | internal/db/scanner.go:819-825 | Rows of the current form never trigger the skip for older rows |
| Outbox.DistinctKeepsKeys | internal/scanner/poller.go:623-629 | Dropping repeated batch keys loses no outbox key |
| Outbox.RunReachesExpected | internal/scanner/poller.go:695-948 | After every sequence of scans, rescans and replays the old rows are untouched and the new keys are exactly those of the matched legs of the visited blocks for each active subscribed endpoint |
| Outbox.MatchesIff | internal/scanner/matched_events.go:13-46 | A transfer yields the event of its receiver or sender exactly when that address is named and watched, each once, the receiver's first |
| Outbox.MatchAllIff | internal/scanner/matched_events.go:13-46 | The same for a block: no event without a watched address in its role, with the confirmations that the tip gives |
| Outbox.RunAddsIff | internal/scanner/poller.go:695-948 | After every run a key is in the outbox exactly when it was before, or belongs to a watched role of a transfer in a visited block and an active endpoint that takes its type |
| Outbox.PublishedOnce | internal/scanner/poller.go:623-629 | A contract batch publishes each batch key once, a native batch all of its events |
| Outbox.Converges | internal/scanner/poller.go:691-694 | Two runs over the same blocks, in any order, batching and repetition, end with the same keys |
| Outbox.RescanIsIdempotent | internal/db/scanner.go:826-837 | Covering blocks again changes no row at all |
| BatchWindow.TimeSpan | internal/scanner/poller.go:562-571 | For positive timestamps the smallest and the largest one, both attained |
| BatchWindow.TimeWindowIsBlockWindow | internal/scanner/poller.go:561-600 | On a chain whose times rise, the time query filtered to the batch is exactly the events from the lowest to the highest returned block |
| BatchWindow.EventKeptIff | internal/scanner/poller.go:561-600 | An event survives if and only if some returned block is at or below its own and some at or above |
| BatchWindow.GroupedPermutes | internal/scanner/poller.go:642-659 | Grouping by block publishes each kept event exactly as often as it was kept |
| BatchWindow.FileEvents | internal/scanner/poller.go:589-644 | Block by block the map holds the matched events of the batch without repeats, in order |
| BatchWindow.CommitBlocks | internal/scanner/poller.go:650-659 | An enqueue error costs the rest of its own block and nothing of any other block |
| BatchWindow.PublishBatch | internal/scanner/poller.go:589-659 | From fetched events to rows: the matched events inside the batch, without repeats, block by block up to each block's first error, and all of them when none fails |
| BatchWindow.AllSurvive | internal/scanner/poller.go:650-659 | When no event fails, what reaches the outbox is every kept event in block order |
| BatchWindow.BatchAddsRangeKeys | internal/scanner/poller.go:561-659 | A batch adds exactly the keys of the matched transfers of its block range, whatever order, repetition and surplus the events came with |
| Matching.BloomFilter.Add | internal/scanner/bloom.go:37-42 | The address is contained afterwards and nothing contained is lost |
| Matching.BloomFilter.AddBatch | internal/scanner/bloom.go:45-52 | Every address of the batch is contained afterwards and nothing contained is lost |
| Matching.LocationsIff | internal/scanner/bloom.go:37-52 | The bits of an address are the values of all its hash functions, and no others |
| Matching.LookupWithRetry | internal/scanner/address_confirm.go:92-130 | At most three calls, and more than one only after faults; the result tells an answer, a stop by cancellation or interrupted pause, and three faults apart |
| Matching.UniqueStringsNotCached | internal/scanner/address_confirm.go:164-183 | Each non-empty address the cache does not know, exactly once |
| Matching.AddressConfirm.PopulateCache | internal/scanner/address_confirm.go:72-90 | The address gets an entry with a reason, known entries stay |
| Matching.AddressConfirm.Prefetch | internal/scanner/address_confirm.go:36-58 | Exactly the non-empty addresses asked for get entries with reasons, known entries stay; a stopped lookup lets all through, an exhausted one is repeated address by address; otherwise three calls at most |
| Matching.AddressConfirm.IsActive | internal/scanner/address_confirm.go:60-70 | Answers the cached verdict, which it first obtains; empty is never active |
| Matching.BloomConfirmCandidates | internal/scanner/address_confirm.go:153-162 | The addresses of the transfer past the prefilter, each once |
| Matching.MatchedTransferEvents | internal/scanner/matched_events.go:13-46 | The events are exactly those of the receiver and the sender, each if named, past the prefilter and confirmed; addresses whose verdict is known cost no lookup |
| Matching.NeverRefusesWatched | internal/scanner/address_confirm.go:132-136 | Whatever fails, an address active at every call is accepted, and a refusal has a call behind it that said so |
| Matching.MatchBatch | internal/scanner/matched_events.go:13-46 | Over a batch of transfers, whatever fails in between, the events are exactly those for the addresses accepted: one verdict per address; after a prefetch that ends in an answer no further lookup is made |
| Matching.MatchBatchUnderFaults | internal/scanner/matched_events.go:13-46 | Under any faults every receiver and sender that is active throughout, past a covering filter, gets its event |
| Matching.CacheIsExact | internal/scanner/address_confirm.go:60-130 | When retries overcome every fault and the watchlist is steady, the verdicts are the watchlist |
| Matching.ConfirmBatchExactly | internal/scanner/matched_events.go:13-46 | With a covering filter and faults that the retries overcome the events are exactly those of the roles with an address on the watchlist, prefetched or not |
| WatchSync.AddressStore.Reload | internal/store/address_store.go:33-46 | A successful reload swaps in a new filter that covers the listed addresses; a failed one keeps the old |
| WatchSync.AddressStore.Add | internal/store/address_store.go:49-54 | Adds to the live filter and loses nothing |
| WatchSync.NoLostWatch | internal/pgnotify/listener.go:90-153 | In every run without overlapping reloads and failed notified reloads, once resynced with an empty queue and no reload under way the filter covers the active addresses, however connections dropped and additions raced with swaps |
| WatchSync.StepKeepsInv | cmd/tronvent/main.go:108-131 | Each step keeps: an active address is in the filter or list about to be used, or a notification for it is queued |
| WatchSync.IdleIsReachable | cmd/tronvent/main.go:132-145 | The first connection and reload lead to the synced idle state |
| WatchSync.DeafWhileDown | internal/pgnotify/listener.go:90-153 | From a disconnect to the next connection nothing is queued, whatever is added, and what was queued before is gone |
| WatchSync.FailedResyncDisconnects | internal/pgnotify/listener.go:90-153 | A failed resync drops the connection and keeps the filter |
| WatchSync.FailedReloadLosesWatch | cmd/tronvent/main.go:115-118 | A failed notified reload leaves an active address out |
| WatchSync.OverlappingReloadsLoseWatch | cmd/tronvent/main.go:154-170 | So does a periodic reload that lists early and swaps late |
| WatchSync.LostWatchIff | internal/store/address_store.go:33-54 | Whatever failed and overlapped: after the last swap an active address is missing if and only if it was not active when the swapped rows were listed and was not added on this replica since |
| RetrySchedule.DueInWindow | internal/webhookspec/retry.go:30-59 | For every draw the next attempt is due inside its window; with a Retry-After (section 10.2.3 of RFC 9110) it is due at the later of the two |
| RetrySchedule.EachInstantDrawn | internal/webhookspec/retry.go:30-47 | Every instant of the window is drawn |
| RetrySchedule.ScheduleGaps | internal/webhookspec/retry.go:16-27 | The attempts are 5 seconds, 5 and 30 minutes, and 2, 5, 10, 14, 20 and 24 hours apart |
| RetrySchedule.WindowsAscend | internal/webhookspec/retry.go:16-27 | The windows of different attempts are disjoint and follow each other |
| RetrySchedule.LifeCycleAscends | internal/webhookspec/retry.go:16-59 | Over a life cycle due times strictly increase for all draws and end within 1.1 times 272105 seconds |
| RetrySchedule.RetryIff | internal/webhookspec/retry.go:86-109 | Exactly transport errors, 429 and everything from 500 on are retried; exactly 2xx succeed; exactly 410 is gone |
| Delivery.AttemptCap | internal/webhook/worker.go:44-47 | Between one and ten, and the configured number when that is in range |
| Delivery.EventTable.ClaimPendingWebhookEvents | internal/db/scanner.go:856-905 | Exactly the candidates that wait and are due, or whose worker has been silent for more than five minutes, are handed out, each once; a silent worker costs an attempt; all other rows stay |
| Delivery.EventTable.MarkWebhookEventDelivered | internal/db/scanner.go:908-919 | Marks one row by id alone |
| Delivery.EventTable.MarkWebhookEventFailed | internal/db/scanner.go:922-945 | Marks one row by id alone, dead when the attempts are used up |
| Delivery.EventTable.RetryWebhookEvent | internal/db/dashboard.go:122-139 | Only failed and dead rows become pending at once, with their attempt count kept |
| Delivery.EventTable.RetryAllFailedDeadWebhookEvents | internal/db/dashboard.go:143-157 | The same for all rows |
| Delivery.EventTable.DeliverOne | internal/webhook/worker.go:104-203 | At most one mark, on the event's own row, decided by the first obstacle met; a Retry-After counts even when the body of its response could not be read |
| Delivery.DispatchBatch | internal/webhook/worker.go:86-97 | A tick changes the claimed rows only, each by its claim and then its own mark, whatever the others did |
| Delivery.FailedAndDeadBounds | internal/webhook/worker.go:184-203 | In every run, late marks included, failed means attempts left and dead means none |
| Delivery.AttemptsBounded | internal/webhook/worker.go:104-203 | Without late marks at most the cap of attempts completes, plus one for each revival |
| Delivery.FailedIsScheduled | internal/webhook/worker.go:109-114 | In every run a failed event with k attempts is due in the window of attempt k + 1, or later when a Retry-After asked for it |
| Delivery.ClaimedWhenDue | internal/db/scanner.go:861-878 | In every run a claim gets the event exactly when it waits and is due, or its worker has been silent for more than five minutes; a failed event is never claimed before its window begins |
| Delivery.RestsUntilDue | internal/db/scanner.go:871-874 | Without late marks and administrators nothing changes a failed event before it is due |
| Delivery.DecisionIff | internal/webhook/worker.go:104-203 | What each outcome of a delivery leads to: delivered exactly on 2xx, another attempt exactly without a readable answer and on 429 and from 500 on, the end otherwise, no mark exactly when the endpoint could not be loaded |
| Delivery.RefusalEndsOrRetries | internal/webhook/worker.go:164-203 | A permanent refusal (404, 410 and the like) ends the event however many attempts are left; a temporary one schedules the next attempt, not before its Retry-After |
| Delivery.RetriedIsDue | internal/db/dashboard.go:122-139 | An event that an administrator retries is due at once, with its attempts kept |
| Delivery.ChangesAreStamped | internal/db/scanner.go:908-945 | Every change of a row is stamped with its time; a dying event keeps its due time |
| Delivery.DeliveredForever | internal/db/scanner.go:908-919 | Without late marks delivered events never change |
| Delivery.DeadUntilRetried | internal/db/dashboard.go:122-139 | Without late marks only an administrator takes an event out of dead |
| Delivery.LastChance | internal/webhook/worker.go:104-199 | An event with no attempts left gets exactly one more completed attempt and ends in it |
| Delivery.RevivedGetsOneAttempt | internal/db/dashboard.go:121-139 | So does every dead event that is retried |
| Delivery.DeliveredChangesOnlyLate | internal/db/scanner.go:909-914 | On a delivered row a mark is late, and only a late mark can change the row |
| Delivery.DeliveredUndoneIff | internal/db/scanner.go:922-945 | In any state a step takes a row out of delivered if and only if it is the failing mark of a claim still outstanding |
| Delivery.StaysDeliveredIff | internal/db/scanner.go:908-945 | Over every run a delivered event stays delivered if and only if each claim still outstanding is never marked or first marked as a success |
| Delivery.DeliveredByOtherIsReachable | internal/db/scanner.go:861-878 | A stale row is handed to a second worker, charged an attempt, and delivered while the first one still holds its claim |
| Delivery.LateMarkUndoesDelivery | internal/db/scanner.go:931-940 | A concrete run in which a worker whose row was reclaimed and delivered turns it back to failed |
| EndpointLocks.NoOrphansNoAborts | internal/db/scanner.go:765-842 | In every interleaving every row's endpoint exists and no fan-out hits the foreign key |
| EndpointLocks.SurvivorsAreServed | internal/db/scanner.go:769-781 | A fan-out that commits, whenever that is, has a row for each listed endpoint that still exists |
| EndpointLocks.FanOutOverwritesNothing | internal/db/scanner.go:826-842 | In every interleaving, the same event fanned out twice at once included: a commit adds pending rows of its event and leaves every row that is there as it is |
| EndpointLocks.FanOutCompletes | internal/db/scanner.go:765-842 | A fan-out that meets no lock and no rival goes through: exactly the listed endpoints that still exist have their row, and nothing else changes |
| EndpointLocks.NewEndpointIsServed | internal/db/scanner.go:765-781 | An endpoint that was just created is served by the next fan-out that lists it |
| EndpointLocks.DeleteCompletes | internal/db/webhook_endpoints.go:269-305 | A delete that meets no lock is refused with nothing changed exactly when it is not forced and a row is undelivered; otherwise it removes the endpoint and exactly its rows |
| EndpointLocks.UnforcedDeleteDiscardsOnlyChecked | internal/db/webhook_endpoints.go:269-305 | An unforced delete discards only rows that were finished at its check, never one inserted concurrently |
| EndpointLocks.DiscardsUndeliveredIff | internal/db/webhook_endpoints.go:284-300 | An unforced delete discards an undelivered row if and only if the row was there at the check and the last status set since then is an undelivered one |
| EndpointLocks.OnlyStatusChanges | internal/db/webhook_endpoints.go:275-283 | While a checked delete is under way nothing but setting a status changes a row of its endpoint |
| EndpointLocks.StepKeepsInv | migrations/002_webhook_endpoints.up.sql:32-33 | Each transaction step keeps: exclusive and shared locks exclude each other, and what a transaction relies on still exists |
| EndpointLocks.RetryAfterCheckIsReachable | internal/db/webhook_endpoints.go:284-297 | The locks admit an administrator's retry after the check |
| EndpointLocks.RetryAfterCheckIsDiscarded | internal/db/webhook_endpoints.go:298-300 | Such a retried row is discarded although it is pending |
| EndpointStore.WebhookConfigStore.Reload | internal/store/webhook_config_store.go:29-43 | Map and list hold the listed endpoints, or stay when listing fails |
| EndpointStore.WebhookConfigStore.UpsertEndpoint | internal/store/webhook_config_store.go:46-61 | Replaces the endpoint where it stands or appends it, in map and list alike |
| EndpointStore.WebhookConfigStore.RemoveEndpoint | internal/store/webhook_config_store.go:87-98 | Drops the endpoint from map and list and keeps the order of the rest |
| EndpointStore.WebhookConfigStore.GetEndpoint | internal/store/webhook_config_store.go:75-84 | The map answers what a search of the list would |
| EndpointStore.WebhookConfigStore.GetPrimaryEndpoint | internal/store/webhook_config_store.go:63-72 | The primary is the endpoint that has been in the list longest over the whole history of reloads, upserts and removals |
| EndpointStore.RunInOrder | internal/store/webhook_config_store.go:29-98 | After every history the list stands in order of arrival and holds exactly the ids that have arrived |
| EndpointStore.StoreFollowsHistory | internal/store/webhook_config_store.go:29-98 | After every history ids are unique and a lookup answers what was last said about the id |
| EndpointStore.PrimaryIsStable | internal/store/webhook_config_store.go:46-72 | An upsert never changes which endpoint is primary |
| EndpointStore.SignsWithNewestTwo | internal/db/webhook_endpoints.go:171-184 | After every sequence of saves an endpoint signs with the two newest different keys |
| EndpointStore.RotationKeeps | internal/db/webhook_endpoints.go:53-62 | The stored pair is the last two entries of the key history with consecutive repeats collapsed |
| KeyPool.ApiKeyPool.constructor | internal/scanner/trongrid_keys.go:23-38 | The keys are exactly the trimmed non-empty parts of the list, each once, all ready |
| KeyPool.ApiKeyPool.TryNext | internal/scanner/trongrid_keys.go:56-71 | Picks the ready key nearest to the turn index and moves the turn past it, as in the runs below, or reports the earliest time a key becomes ready |
| KeyPool.ApiKeyPool.NextAvailable | internal/scanner/trongrid_keys.go:48-83 | The key handed out is next in turn at the first look that finds a ready key, with other callers picking and cooling keys between looks; giving up means no look found one |
| KeyPool.ApiKeyPool.Cooldown | internal/scanner/trongrid_keys.go:85-100 | Only the deadline of the named key changes, and only to a later one |
| KeyPool.SearchFindsTurn | internal/scanner/trongrid_keys.go:58-70 | The search finds the ready key nearest to the turn index if there is one |
| KeyPool.PickedIsReady | internal/scanner/trongrid_keys.go:61-66 | No key is handed out while it cools down, and none is refused while one is ready |
| KeyPool.DeadlinesRise | internal/scanner/trongrid_keys.go:96-99 | Over every run cooldown deadlines never move earlier |
| KeyPool.ReadyIff | internal/scanner/trongrid_keys.go:85-100 | After every run a key is ready exactly when each cooldown it was ever given has run out |
| KeyPool.PickedWithinOneRound | internal/scanner/trongrid_keys.go:48-83 | Among any n picks from n keys every key that stays ready is picked |
| KeyPool.FairBetweenPicks | internal/scanner/trongrid_keys.go:48-83 | Between two picks of one key every other key that stays ready is picked |

## Left out

- HTTP: handlers, dashboard, sessions, TronGrid requests with their paging and retries, delivery posts, SMTP and DNS appear only as outcomes.
- Parsing: `parseTrxTransferLegs`, `hexToBase58` and `sunToTrx` produce the transfers that the model starts from.
- Clock: all statements and the process clock in `activeScannerLease` are read from one clock that never goes back; skew between database and replicas is not modelled.
- Integer width: block numbers and times are unbounded; the program's 64-bit values are far from their limits.
- Row order and limits: the claims of jobs and events take a list of candidates; ORDER BY, LIMIT and SKIP LOCKED only choose that list. A claim of fifty jobs is fifty single claims in the protocol.
- Row ids and payloads: generated ids, the JSON body and the error "payload must include a data object" are left out; the size limit of a payload is a parameter and the only enqueue error in the loops (in the protocol any enqueue transaction may fail), and event types are a datatype, so unknown types cannot occur.
- Scope start-up: in `ScanProtocol` every scope has a cursor when the run begins, and the contract list is fixed. A scope without one begins where `ScanLoops.StartScan` says; with a configured start block that is the block after it.
- Fetches of a replay: blocks and events of a replayed TRC-20 batch are fetched in one action; nothing else happens between them that a replay depends on.
- Matching end to end: `EndToEnd`, `WholeScans` and `Outbox` match against the watchlist itself; `Matching.ConfirmBatchExactly` says when the prefilter and the cache do.
- Fixed endpoints and watchlist: convergence is stated for runs during which neither changes and no endpoint is deleted; `EndpointLocks` covers deletion.
- Older outbox rows: the skip for rows of older releases is modelled, but convergence starts from rows of the current form.
- Delivery over many events: the life cycle follows one event, since the statements act on rows independently; `Delivery.DispatchBatch` covers a whole batch.
- Delivery side effects: recording attempts, disabling an endpoint after 410 or the last attempt, and notification mails are left out, as is the database fallback of `resolveEndpoint`; whether an endpoint is found and active is a parameter.
- A zero creation time of an event, which the worker replaces by the current time, cannot occur in the table and is left out.
- Liveness: `CompleteScans`, `CompleteReplays` and `CompleteReconciles` say what a process leads to if it goes on; that it does, and that a waiting job is eventually taken, is not assumed or stated; the waiting of the key pool ends when the caller gives up, and the poll, listen and tick loops run for ever; only their steps are modelled.
- Concurrent saves of one endpoint: `UpsertWebhookEndpoint` reads the old key outside its transaction; key rotation is stated for saves one after the other.
- Normalising keys and URLs: signing keys arrive in normal form, and validation outcomes are parameters.
