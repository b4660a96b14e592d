/** The `scanner_cursors` table: one row per scan scope, holding the highest scanned
    block and an expiring lease. Each SQL statement is one atomic step; `now` is the one
    clock that the database and its clients share. Times and durations are nanoseconds. */
module CursorLease {
  import opened Base

  const SECOND := 1_000_000_000
  const DEFAULT_LEASE := 600 * SECOND

  datatype CursorRow = CursorRow(highest: int, lockedBy: Option<string>, lockedUntil: Option<int>)

  type Cursors = map<string, CursorRow>

  /** The granted duration: whole seconds, at least one, ten minutes when unset. */
  function LeaseSpan(lease: int): (span: int)
    ensures span >= SECOND
    ensures lease >= SECOND ==> lease - SECOND < span <= lease
    ensures lease <= 0 ==> span == 600 * SECOND
  {
    var d := if lease <= 0 then DEFAULT_LEASE else lease;
    Max(1, d / SECOND) * SECOND
  }

  function HighestBlock(rows: Cursors, scope: string): int {
    if scope in rows then rows[scope].highest else 0
  }

  predicate Claimable(row: CursorRow, worker: string, now: int) {
    || row.lockedUntil.None?
    || row.lockedUntil.value < now
    || row.lockedBy == Some(worker)
  }

  predicate CanClaim(rows: Cursors, scope: string, worker: string, now: int) {
    scope in rows ==> Claimable(rows[scope], worker, now)
  }

  function Claim(rows: Cursors, scope: string, worker: string, now: int, lease: int): Cursors {
    if CanClaim(rows, scope, worker, now) then
      rows[scope := CursorRow(HighestBlock(rows, scope), Some(worker), Some(now + LeaseSpan(lease)))]
    else rows
  }

  predicate Holds(rows: Cursors, scope: string, worker: string) {
    scope in rows && rows[scope].lockedBy == Some(worker)
  }

  /** Renewal looks at the holder only, never at the deadline. */
  function Renew(rows: Cursors, scope: string, worker: string, now: int, lease: int): Cursors {
    if Holds(rows, scope, worker) then
      rows[scope := rows[scope].(lockedUntil := Some(now + LeaseSpan(lease)))]
    else rows
  }

  function Release(rows: Cursors, scope: string, worker: string): Cursors {
    if Holds(rows, scope, worker) then
      rows[scope := rows[scope].(lockedBy := None, lockedUntil := None)]
    else rows
  }

  predicate ActiveLease(row: CursorRow, now: int) {
    && row.lockedBy.Some?
    && row.lockedBy.value != ""
    && (row.lockedUntil.Some? ==> row.lockedUntil.value > now)
  }

  predicate CanWrite(rows: Cursors, scope: string, worker: string, now: int) {
    scope in rows && worker != "" && ActiveLease(rows[scope], now) ==> rows[scope].lockedBy == Some(worker)
  }

  function SetBlock(rows: Cursors, scope: string, block: int, worker: string, now: int): Cursors {
    if !CanWrite(rows, scope, worker, now) then rows
    else if scope !in rows then rows[scope := CursorRow(block, None, None)]
    else rows[scope := rows[scope].(highest := Max(block, rows[scope].highest))]
  }

  /** Only the row of the scope may differ. */
  ghost predicate OthersSame(before: Cursors, rows: Cursors, scope: string) {
    forall s :: s != scope ==> (s in rows <==> s in before) && (s in before ==> rows[s] == before[s])
  }

  /** The table as the client methods drive it. */
  class CursorTable {
    var rows: Cursors

    constructor ()
      ensures rows == map[]
    {
      rows := map[];
    }

    method GetScannedBlock(scope: string) returns (highest: int)
      ensures scope in rows ==> highest == rows[scope].highest
      ensures scope !in rows ==> highest == 0
    {
      if scope in rows {
        highest := rows[scope].highest;
      } else {
        highest := 0;
      }
    }

    method TryClaimScannerScope(scope: string, worker: string, now: int, lease: int) returns (highest: int, claimed: bool)
      modifies this
      ensures rows == Claim(old(rows), scope, worker, now, lease)
      ensures claimed == CanClaim(old(rows), scope, worker, now)
      ensures claimed <==> (scope in old(rows) ==>
                              var row := old(rows)[scope];
                              row.lockedUntil.None? || row.lockedUntil.value < now || row.lockedBy == Some(worker))
      ensures claimed ==> Holds(rows, scope, worker) && highest == rows[scope].highest == HighestBlock(old(rows), scope)
      ensures claimed ==> rows[scope].lockedUntil == Some(now + LeaseSpan(lease))
      ensures OthersSame(old(rows), rows, scope) && (!claimed ==> rows == old(rows))
    {
      var d := if lease <= 0 then DEFAULT_LEASE else lease;
      var seconds := d / SECOND;
      if seconds < 1 {
        seconds := 1;
      }
      var until := now + seconds * SECOND;
      if scope !in rows {
        rows := rows[scope := CursorRow(0, Some(worker), Some(until))];
        return 0, true;
      }
      var row := rows[scope];
      if row.lockedUntil.None? || row.lockedUntil.value < now || row.lockedBy == Some(worker) {
        rows := rows[scope := CursorRow(row.highest, Some(worker), Some(until))];
        return row.highest, true;
      }
      return 0, false;
    }

    method RenewScannerScopeLease(scope: string, worker: string, now: int, lease: int) returns (ok: bool)
      modifies this
      ensures rows == Renew(old(rows), scope, worker, now, lease)
      ensures ok == Holds(old(rows), scope, worker)
      ensures rows == if ok then old(rows)[scope := CursorRow(old(rows)[scope].highest, Some(worker), Some(now + LeaseSpan(lease)))] else old(rows)
    {
      var d := if lease <= 0 then DEFAULT_LEASE else lease;
      var seconds := d / SECOND;
      if seconds < 1 {
        seconds := 1;
      }
      ok := scope in rows && rows[scope].lockedBy == Some(worker);
      if ok {
        rows := rows[scope := rows[scope].(lockedUntil := Some(now + seconds * SECOND))];
      }
    }

    method ReleaseScannerScope(scope: string, worker: string) returns (released: bool)
      modifies this
      ensures rows == Release(old(rows), scope, worker)
      ensures released == Holds(old(rows), scope, worker)
      ensures !Holds(rows, scope, worker)
      ensures rows == if released then old(rows)[scope := CursorRow(old(rows)[scope].highest, None, None)] else old(rows)
    {
      released := scope in rows && rows[scope].lockedBy == Some(worker);
      if released {
        rows := rows[scope := CursorRow(rows[scope].highest, None, None)];
      }
    }

    method SetScannedBlock(scope: string, block: int, worker: string, now: int) returns (ok: bool)
      modifies this
      ensures rows == SetBlock(old(rows), scope, block, worker, now)
      ensures ok == CanWrite(old(rows), scope, worker, now)
      ensures ok <==> (scope in old(rows) && worker != "" ==>
                         var row := old(rows)[scope];
                         || row.lockedBy.None? || row.lockedBy.value == "" || row.lockedBy.value == worker
                         || (row.lockedUntil.Some? && row.lockedUntil.value <= now))
      ensures ok ==> HighestBlock(rows, scope) == if scope in old(rows) then Max(block, old(rows)[scope].highest) else block
      ensures scope in old(rows) ==> scope in rows && rows[scope].lockedBy == old(rows)[scope].lockedBy && rows[scope].lockedUntil == old(rows)[scope].lockedUntil
      ensures OthersSame(old(rows), rows, scope) && (!ok ==> rows == old(rows))
    {
      if scope !in rows {
        rows := rows[scope := CursorRow(block, None, None)];
        return true;
      }
      var row := rows[scope];
      if worker != "" && ActiveLease(row, now) && row.lockedBy.value != worker {
        return false;
      }
      var newHighest := block;
      if row.highest > newHighest {
        newHighest := row.highest;
      }
      rows := rows[scope := row.(highest := newHighest)];
      return true;
    }
  }

  // ----- Runs of any number of workers over any number of scopes

  datatype Op =
    | TryClaim(scope: string, worker: string, lease: int)
    | DoRenew(scope: string, worker: string, lease: int)
    | DoRelease(scope: string, worker: string)
    | Write(scope: string, worker: string, block: int)
    | Advance(span: nat)

  /** `grants` is what each worker believes it holds: the deadline of its last successful
      claim or renewal of a scope, until it releases that scope. A takeover by another worker does
      not touch it. */
  datatype World = World(now: int, rows: Cursors, grants: map<(string, string), int>)

  function Apply(w: World, op: Op): World {
    match op
    case TryClaim(s, k, lease) =>
      if CanClaim(w.rows, s, k, w.now)
      then w.(rows := Claim(w.rows, s, k, w.now, lease), grants := w.grants[(s, k) := w.now + LeaseSpan(lease)])
      else w
    case DoRenew(s, k, lease) =>
      if Holds(w.rows, s, k)
      then w.(rows := Renew(w.rows, s, k, w.now, lease), grants := w.grants[(s, k) := w.now + LeaseSpan(lease)])
      else w
    case DoRelease(s, k) => w.(rows := Release(w.rows, s, k), grants := w.grants - {(s, k)})
    case Write(s, k, b) => w.(rows := SetBlock(w.rows, s, b, k, w.now))
    case Advance(d) => w.(now := w.now + d)
  }

  function Run(w: World, ops: seq<Op>): World
    decreases |ops|
  {
    if ops == [] then w else Run(Apply(w, ops[0]), ops[1..])
  }

  /** The worker has not released the scope and its deadline has not passed. */
  predicate Live(w: World, scope: string, worker: string) {
    (scope, worker) in w.grants && w.now < w.grants[(scope, worker)]
  }

  /** A grant is either recorded in the row, to the deadline, or already over. */
  ghost predicate GrantsBacked(w: World) {
    forall s, k :: (s, k) in w.grants ==>
                     || w.grants[(s, k)] < w.now
                     || (&& s in w.rows
                         && w.rows[s].lockedBy == Some(k)
                         && w.rows[s].lockedUntil == Some(w.grants[(s, k)]))
  }

  lemma StepKeepsGrantsBacked(w: World, op: Op)
    requires GrantsBacked(w)
    ensures GrantsBacked(Apply(w, op))
  {
    var w' := Apply(w, op);
    forall s, k | (s, k) in w'.grants
      ensures || w'.grants[(s, k)] < w'.now
              || (&& s in w'.rows
                  && w'.rows[s].lockedBy == Some(k)
                  && w'.rows[s].lockedUntil == Some(w'.grants[(s, k)]))
    {
    }
  }

  lemma {:induction false} RunKeepsGrantsBacked(w: World, ops: seq<Op>)
    requires GrantsBacked(w)
    ensures GrantsBacked(Run(w, ops))
    decreases |ops|
  {
    if ops == [] {
    } else {
      StepKeepsGrantsBacked(w, ops[0]);
      RunKeepsGrantsBacked(Apply(w, ops[0]), ops[1..]);
    }
  }

  /** Whatever rows the run starts from (leases left by dead processes included), at every
      instant at most one worker has a live grant on a scope. */
  lemma AtMostOneHolder(rows: Cursors, start: int, ops: seq<Op>, scope: string, k1: string, k2: string)
    requires var w := Run(World(start, rows, map[]), ops); Live(w, scope, k1) && Live(w, scope, k2)
    ensures k1 == k2
  {
    RunKeepsGrantsBacked(World(start, rows, map[]), ops);
  }

  predicate ByOther(op: Op, holder: string) {
    op.Advance? || (op.worker != holder && op.worker != "")
  }

  lemma OtherStepChangesNothing(w: World, scope: string, holder: string, op: Op)
    requires GrantsBacked(w) && holder != "" && Live(w, scope, holder) && ByOther(op, holder)
    ensures scope in w.rows && scope in Apply(w, op).rows && Apply(w, op).rows[scope] == w.rows[scope]
    ensures (scope, holder) in Apply(w, op).grants && Apply(w, op).grants[(scope, holder)] == w.grants[(scope, holder)]
    ensures Touches(op, scope) ==> !CanClaim(w.rows, scope, op.worker, w.now)
                                   && !Holds(w.rows, scope, op.worker)
                                   && !CanWrite(w.rows, scope, op.worker, w.now)
  {
  }

  predicate Touches(op: Op, scope: string) {
    !op.Advance? && op.scope == scope
  }

  lemma {:induction false} ClockNeverRewinds(w: World, ops: seq<Op>)
    ensures w.now <= Run(w, ops).now
    decreases |ops|
  {
    if ops == [] {
    } else {
      ClockNeverRewinds(Apply(w, ops[0]), ops[1..]);
    }
  }

  /** While a grant lasts, nothing other workers do changes the row: their claims, renewals
      and releases match nothing and their cursor writes are refused, however many they issue
      and however they interleave with the passing of time. */
  lemma {:induction false} LiveGrantFreezesRow(w: World, ops: seq<Op>, scope: string, holder: string)
    requires GrantsBacked(w) && holder != "" && (scope, holder) in w.grants
    requires forall op :: op in ops ==> ByOther(op, holder)
    requires Run(w, ops).now < w.grants[(scope, holder)]
    ensures scope in w.rows && scope in Run(w, ops).rows && Run(w, ops).rows[scope] == w.rows[scope]
    ensures Live(Run(w, ops), scope, holder)
    decreases |ops|
  {
    ClockNeverRewinds(w, ops);
    if ops != [] {
      OtherStepChangesNothing(w, scope, holder, ops[0]);
      StepKeepsGrantsBacked(w, ops[0]);
      LiveGrantFreezesRow(Apply(w, ops[0]), ops[1..], scope, holder);
    }
  }

  /** The two ends of a lease differ by one instant: another worker may write the cursor
      from the deadline on, but may claim the scope only after it. */
  lemma DeadlineEdges(row: CursorRow, scope: string, other: string, now: int)
    requires row.lockedBy.Some? && row.lockedBy.value != "" && row.lockedUntil.Some?
    requires other != "" && Some(other) != row.lockedBy
    ensures CanWrite(map[scope := row], scope, other, now) <==> row.lockedUntil.value <= now
    ensures CanClaim(map[scope := row], scope, other, now) <==> row.lockedUntil.value < now
  {
  }

  /** A claim that succeeds gives the worker a live grant for the whole span of its lease, if nobody else acts. */
  lemma ClaimLasts(w: World, scope: string, worker: string, lease: int, span: nat)
    requires CanClaim(w.rows, scope, worker, w.now) && span < LeaseSpan(lease)
    ensures Live(Apply(Apply(w, TryClaim(scope, worker, lease)), Advance(span)), scope, worker)
  {
  }

  /** A renewal starts the span anew. */
  lemma RenewalLasts(w: World, scope: string, worker: string, lease: int, span: nat)
    requires Holds(w.rows, scope, worker) && span < LeaseSpan(lease)
    ensures Live(Apply(Apply(w, DoRenew(scope, worker, lease)), Advance(span)), scope, worker)
  {
  }

  /** A release frees the scope at once, for every worker and whatever was left of the lease. */
  lemma ReleaseFrees(w: World, scope: string, holder: string, other: string)
    requires Holds(w.rows, scope, holder)
    ensures var w' := Apply(w, DoRelease(scope, holder));
            && CanClaim(w'.rows, scope, other, w'.now) && CanWrite(w'.rows, scope, other, w'.now)
            && !Live(w', scope, holder) && HighestBlock(w'.rows, scope) == HighestBlock(w.rows, scope)
  {
  }

  /** Rows are never removed and a cursor never moves back, whoever writes and whenever. */
  lemma {:induction false} CursorNeverDecreases(w: World, ops: seq<Op>, scope: string)
    requires scope in w.rows
    ensures scope in Run(w, ops).rows
    ensures Run(w, ops).rows[scope].highest >= w.rows[scope].highest
    decreases |ops|
  {
    if ops == [] {
    } else {
      CursorNeverDecreases(Apply(w, ops[0]), ops[1..], scope);
    }
  }
}
