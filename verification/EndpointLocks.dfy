/** Fanning an event out while endpoints are being deleted, as steps of concurrent transactions. An
    enqueue takes a key-share lock on each endpoint before it inserts a row for it; a delete takes the
    exclusive lock, checks for undelivered rows, and removes the endpoint with its rows. Uncommitted
    changes are invisible to others; locks last until the transaction ends. */
module EndpointLocks {
  import opened Base
  import D = Delivery

  type EndpointId = string

  /** An outbox row is identified by its event and its endpoint. */
  type RowKey = (string, EndpointId)

  datatype Phase = Locking | Checking | Removing(checked: map<RowKey, D.Status>)

  datatype Tx =
    | Enqueue(ev: string, list: seq<EndpointId>, pos: nat, locked: bool, held: set<EndpointId>, added: set<EndpointId>)
    | Delete(endpoint: EndpointId, force: bool, phase: Phase)

  /** `used` are all endpoint ids ever generated; `aborted` records that a fan-out ever hit the
      foreign key. */
  datatype State = State(endpoints: set<EndpointId>, used: set<EndpointId>, rows: map<RowKey, D.Status>,
                         txs: map<nat, Tx>, aborted: bool)

  datatype Step =
    | Create(endpoint: EndpointId)
    | SetStatus(key: RowKey, status: D.Status)   // delivery workers and administrators
    | BeginEnqueue(t: nat, ev: string, list: seq<EndpointId>)
    | LockNext(t: nat)
    | InsertNext(t: nat)
    | CommitEnqueue(t: nat)
    | BeginDelete(t: nat, endpoint: EndpointId, force: bool)
    | LockForUpdate(t: nat)
    | Check(t: nat)
    | CommitDelete(t: nat)
    | Rollback(t: nat)

  predicate Undelivered(s: D.Status) {
    s.Pending? || s.Delivering? || s.Failed?
  }

  /** The transaction holds the exclusive lock of the endpoint. */
  predicate Exclusive(tx: Tx, e: EndpointId) {
    tx.Delete? && tx.endpoint == e && !tx.phase.Locking?
  }

  predicate Shares(tx: Tx, e: EndpointId) {
    tx.Enqueue? && e in tx.held
  }

  predicate ExclusivelyLocked(st: State, e: EndpointId) {
    exists t :: t in st.txs && Exclusive(st.txs[t], e)
  }

  predicate Shared(st: State, e: EndpointId) {
    exists t :: t in st.txs && Shares(st.txs[t], e)
  }

  /** Another transaction has inserted the same row and not committed yet. */
  predicate InsertPending(st: State, t: nat, key: RowKey) {
    exists u :: u in st.txs && u != t && st.txs[u].Enqueue? && st.txs[u].ev == key.0 && key.1 in st.txs[u].added
  }

  function RowsOf(rows: map<RowKey, D.Status>, e: EndpointId): map<RowKey, D.Status> {
    map k | k in rows && k.1 == e :: rows[k]
  }

  function Put(st: State, t: nat, tx: Tx): State {
    st.(txs := st.txs[t := tx])
  }

  function End(st: State, t: nat): State {
    st.(txs := st.txs - {t})
  }

  function EnqueueStep(st: State, t: nat, tx: Tx, s: Step): State
    requires tx.Enqueue?
  {
    match s
    case LockNext(_) =>
      if tx.locked || tx.pos >= |tx.list| || ExclusivelyLocked(st, tx.list[tx.pos]) then st
      else if tx.list[tx.pos] !in st.endpoints then Put(st, t, tx.(pos := tx.pos + 1))
      else Put(st, t, tx.(locked := true, held := tx.held + {tx.list[tx.pos]}))
    case InsertNext(_) =>
      if !tx.locked || tx.pos >= |tx.list| || InsertPending(st, t, (tx.ev, tx.list[tx.pos])) then st
      else if tx.list[tx.pos] !in st.endpoints then End(st.(aborted := true), t)
      else if (tx.ev, tx.list[tx.pos]) in st.rows then Put(st, t, tx.(locked := false, pos := tx.pos + 1))
      else Put(st, t, tx.(locked := false, pos := tx.pos + 1, added := tx.added + {tx.list[tx.pos]}))
    case CommitEnqueue(_) =>
      if tx.locked || tx.pos < |tx.list| then st
      else End(st.(rows := st.rows + map e | e in tx.added :: (tx.ev, e) := D.Pending), t)
    case _ => st
  }

  function DeleteStep(st: State, t: nat, tx: Tx, s: Step): State
    requires tx.Delete?
  {
    match s
    case LockForUpdate(_) =>
      if !tx.phase.Locking? || ExclusivelyLocked(st, tx.endpoint) || Shared(st, tx.endpoint) then st
      else if tx.endpoint !in st.endpoints then End(st, t)
      else Put(st, t, tx.(phase := Checking))
    case Check(_) =>
      if !tx.phase.Checking? then st
      else if !tx.force && exists k :: k in st.rows && k.1 == tx.endpoint && Undelivered(st.rows[k]) then End(st, t)
      else Put(st, t, tx.(phase := Removing(RowsOf(st.rows, tx.endpoint))))
    case CommitDelete(_) =>
      if !tx.phase.Removing? then st
      else End(st.(endpoints := st.endpoints - {tx.endpoint}, rows := map k | k in st.rows && k.1 != tx.endpoint :: st.rows[k]), t)
    case _ => st
  }

  function Apply(st: State, s: Step): State {
    match s
    case Create(e) => if e in st.used then st else st.(endpoints := st.endpoints + {e}, used := st.used + {e})
    case SetStatus(k, status) => if k in st.rows then st.(rows := st.rows[k := status]) else st
    case BeginEnqueue(t, ev, list) =>
      if t in st.txs || exists i :: 0 <= i < |list| && list[i] !in st.endpoints then st
      else Put(st, t, Enqueue(ev, list, 0, false, {}, {}))
    case BeginDelete(t, e, force) => if t in st.txs then st else Put(st, t, Delete(e, force, Locking))
    case Rollback(t) => End(st, t)
    case _ =>
      if s.t !in st.txs then st
      else if st.txs[s.t].Enqueue? then EnqueueStep(st, s.t, st.txs[s.t], s)
      else DeleteStep(st, s.t, st.txs[s.t], s)
  }

  function Run(st: State, steps: seq<Step>): State
    decreases |steps|
  {
    if steps == [] then st else Run(Apply(st, steps[0]), steps[1..])
  }

  // ----- The invariant

  /** Every endpoint handled so far that still exists has its row, committed or about to be. */
  ghost predicate Served(st: State, tx: Tx)
    requires tx.Enqueue?
  {
    tx.pos <= |tx.list|
    && forall i :: 0 <= i < tx.pos && tx.list[i] in st.endpoints ==> tx.list[i] in tx.added || (tx.ev, tx.list[i]) in st.rows
  }

  ghost predicate TxOk(st: State, tx: Tx) {
    match tx
    case Enqueue(ev, list, pos, locked, held, added) =>
      && held <= st.endpoints && added <= held
      && (locked ==> pos < |list| && list[pos] in held)
      && (forall i :: 0 <= i < |list| ==> list[i] in st.used)
      && Served(st, tx)
    case Delete(e, force, phase) =>
      && (!phase.Locking? ==> e in st.endpoints)
      && (phase.Removing? ==>
            && (forall k :: k in st.rows && k.1 == e ==> k in phase.checked)
            && (!force ==> forall k :: k in phase.checked ==> !Undelivered(phase.checked[k])))
  }

  ghost predicate LocksOk(st: State) {
    forall t, u, e :: t in st.txs && u in st.txs && Exclusive(st.txs[t], e) ==>
                        !Shares(st.txs[u], e) && (Exclusive(st.txs[u], e) ==> t == u)
  }

  ghost predicate Inv(st: State) {
    && !st.aborted
    && st.endpoints <= st.used
    && (forall k :: k in st.rows ==> k.1 in st.endpoints)
    && (forall t :: t in st.txs ==> TxOk(st, st.txs[t]))
    && LocksOk(st)
  }

  /** A step that only moves its own transaction along, taking no lock that conflicts, keeps the
      invariant. */
  lemma OwnStep(st: State, st': State, t: nat)
    requires Inv(st) && st' == st.(txs := st'.txs)
    requires forall u :: u in st'.txs && u != t ==> u in st.txs && st'.txs[u] == st.txs[u]
    requires t in st'.txs ==> TxOk(st', st'.txs[t])
    requires forall e :: t in st'.txs && Exclusive(st'.txs[t], e) ==>
                           (t in st.txs && Exclusive(st.txs[t], e)) || (!ExclusivelyLocked(st, e) && !Shared(st, e))
    requires forall e :: t in st'.txs && Shares(st'.txs[t], e) ==> (t in st.txs && Shares(st.txs[t], e)) || !ExclusivelyLocked(st, e)
    ensures Inv(st')
  {
    forall u | u in st'.txs && u != t
      ensures TxOk(st', st'.txs[u])
    {
      assert TxOk(st, st.txs[u]);
    }
  }

  lemma LockNextKeepsInv(st: State, t: nat)
    requires Inv(st)
    ensures Inv(Apply(st, LockNext(t)))
  {
    var st' := Apply(st, LockNext(t));
    if st' != st {
      assert TxOk(st, st.txs[t]);
      OwnStep(st, st', t);
    }
  }

  lemma InsertNextKeepsInv(st: State, t: nat)
    requires Inv(st)
    ensures Inv(Apply(st, InsertNext(t)))
  {
    var st' := Apply(st, InsertNext(t));
    if st' != st {
      assert TxOk(st, st.txs[t]);
      OwnStep(st, st', t);
    }
  }

  lemma CommitEnqueueKeepsInv(st: State, t: nat)
    requires Inv(st)
    ensures Inv(Apply(st, CommitEnqueue(t)))
  {
    var st' := Apply(st, CommitEnqueue(t));
    if st' != st {
      var tx := st.txs[t];
      assert TxOk(st, tx);
      forall u | u in st'.txs
        ensures TxOk(st', st'.txs[u])
      {
        assert TxOk(st, st.txs[u]);
        if st.txs[u].Delete? && st.txs[u].phase.Removing? {
          assert Exclusive(st.txs[u], st.txs[u].endpoint);
          assert !Shares(tx, st.txs[u].endpoint);
        }
      }
    }
  }

  lemma LockForUpdateKeepsInv(st: State, t: nat)
    requires Inv(st)
    ensures Inv(Apply(st, LockForUpdate(t)))
  {
    var st' := Apply(st, LockForUpdate(t));
    if st' != st {
      assert TxOk(st, st.txs[t]);
      OwnStep(st, st', t);
    }
  }

  lemma CheckKeepsInv(st: State, t: nat)
    requires Inv(st)
    ensures Inv(Apply(st, Check(t)))
  {
    var st' := Apply(st, Check(t));
    if st' != st {
      assert TxOk(st, st.txs[t]);
      OwnStep(st, st', t);
    }
  }

  lemma CommitDeleteKeepsInv(st: State, t: nat)
    requires Inv(st)
    ensures Inv(Apply(st, CommitDelete(t)))
  {
    var st' := Apply(st, CommitDelete(t));
    if st' != st {
      var e := st.txs[t].endpoint;
      assert Exclusive(st.txs[t], e);
      forall u | u in st'.txs
        ensures TxOk(st', st'.txs[u])
      {
        assert TxOk(st, st.txs[u]);
        assert !Shares(st.txs[u], e) && !Exclusive(st.txs[u], e);
      }
    }
  }

  lemma RowStepKeepsInv(st: State, s: Step)
    requires Inv(st) && (s.Create? || s.SetStatus?)
    ensures Inv(Apply(st, s))
  {
    var st' := Apply(st, s);
    forall u | u in st'.txs
      ensures TxOk(st', st'.txs[u])
    {
      assert TxOk(st, st.txs[u]);
    }
  }

  lemma BeginOrEndKeepsInv(st: State, s: Step)
    requires Inv(st) && (s.BeginEnqueue? || s.BeginDelete? || s.Rollback?)
    ensures Inv(Apply(st, s))
  {
    OwnStep(st, Apply(st, s), s.t);
  }

  lemma StepKeepsInv(st: State, s: Step)
    requires Inv(st)
    ensures Inv(Apply(st, s))
  {
    match s
    case LockNext(t) => LockNextKeepsInv(st, t);
    case InsertNext(t) => InsertNextKeepsInv(st, t);
    case CommitEnqueue(t) => CommitEnqueueKeepsInv(st, t);
    case LockForUpdate(t) => LockForUpdateKeepsInv(st, t);
    case Check(t) => CheckKeepsInv(st, t);
    case CommitDelete(t) => CommitDeleteKeepsInv(st, t);
    case Create(_) => RowStepKeepsInv(st, s);
    case SetStatus(_, _) => RowStepKeepsInv(st, s);
    case _ => BeginOrEndKeepsInv(st, s);
  }

  lemma {:induction false} RunKeepsInv(st: State, steps: seq<Step>)
    requires Inv(st)
    ensures Inv(Run(st, steps))
    decreases |steps|
  {
    if steps == [] {
    } else {
      StepKeepsInv(st, steps[0]);
      RunKeepsInv(Apply(st, steps[0]), steps[1..]);
    }
  }

  /** No transaction under way, and rows only of endpoints that exist. */
  ghost predicate Quiet(st: State) {
    st.txs == map[] && !st.aborted && st.endpoints <= st.used && forall k :: k in st.rows ==> k.1 in st.endpoints
  }

  /** In every interleaving each outbox row belongs to an existing endpoint and no fan-out is
      ever aborted by a concurrent delete. */
  lemma NoOrphansNoAborts(st: State, steps: seq<Step>)
    requires Quiet(st)
    ensures var end := Run(st, steps); !end.aborted && forall k :: k in end.rows ==> k.1 in end.endpoints
  {
    RunKeepsInv(st, steps);
  }

  /** A fan-out that commits, whenever it does, has served every listed endpoint that still exists. */
  lemma SurvivorsAreServed(st: State, steps: seq<Step>, t: nat, e: EndpointId)
    requires Quiet(st)
    requires var before := Run(st, steps);
             && t in before.txs && before.txs[t].Enqueue? && t !in Apply(before, CommitEnqueue(t)).txs
             && e in before.txs[t].list && e in before.endpoints
    ensures var before := Run(st, steps); (before.txs[t].ev, e) in Apply(before, CommitEnqueue(t)).rows
  {
    RunKeepsInv(st, steps);
    var before := Run(st, steps);
    var tx := before.txs[t];
    assert TxOk(before, tx);
    var i :| 0 <= i < |tx.list| && tx.list[i] == e;
  }

  // ----- A fan-out overwrites nothing

  /** No row is inserted twice, and none that is there already. */
  ghost predicate InsertsOk(st: State) {
    && (forall t, e :: t in st.txs && st.txs[t].Enqueue? && e in st.txs[t].added ==> (st.txs[t].ev, e) !in st.rows)
    && (forall t, u, e :: t in st.txs && u in st.txs && t != u && Rivals(st.txs[t], st.txs[u]) && e in st.txs[t].added ==> e !in st.txs[u].added)
  }

  /** Both fan the same event out. */
  predicate Rivals(a: Tx, b: Tx) {
    a.Enqueue? && b.Enqueue? && a.ev == b.ev
  }

  lemma StepKeepsInserts(st: State, s: Step)
    requires InsertsOk(st)
    ensures InsertsOk(Apply(st, s))
  {
    if s.InsertNext? && s.t in st.txs && st.txs[s.t].Enqueue? {
      InsertKeepsInserts(st, s.t);
    } else if s.CommitEnqueue? && s.t in st.txs && st.txs[s.t].Enqueue? {
      CommitKeepsInserts(st, s.t);
    }
  }

  lemma InsertKeepsInserts(st: State, t: nat)
    requires InsertsOk(st) && t in st.txs && st.txs[t].Enqueue?
    ensures InsertsOk(Apply(st, InsertNext(t)))
  {
    var tx, st' := st.txs[t], Apply(st, InsertNext(t));
    if st' != st && tx.pos < |tx.list| {
      forall u | u in st.txs && u != t && st.txs[u].Enqueue? && st.txs[u].ev == tx.ev
        ensures tx.list[tx.pos] !in st.txs[u].added
      {
        assert !InsertPending(st, t, (tx.ev, tx.list[tx.pos]));
      }
    }
  }

  lemma CommitKeepsInserts(st: State, t: nat)
    requires InsertsOk(st) && t in st.txs && st.txs[t].Enqueue?
    ensures InsertsOk(Apply(st, CommitEnqueue(t)))
  {
  }

  lemma {:induction false} RunKeepsInserts(st: State, steps: seq<Step>)
    requires InsertsOk(st)
    ensures InsertsOk(Run(st, steps))
    decreases |steps|
  {
    if steps == [] {
    } else {
      StepKeepsInserts(st, steps[0]);
      RunKeepsInserts(Apply(st, steps[0]), steps[1..]);
    }
  }

  /** In every interleaving, the same event fanned out by two replicas at once included: committing a fan-out adds
      pending rows and leaves every row that is there as it is. */
  lemma FanOutOverwritesNothing(st: State, steps: seq<Step>, t: nat, k: RowKey)
    requires Quiet(st)
    ensures var before := Run(st, steps);
            var after := Apply(before, CommitEnqueue(t));
            && (k in before.rows ==> k in after.rows && after.rows[k] == before.rows[k])
            && (k in after.rows && k !in before.rows ==> after.rows[k].Pending? && t in before.txs && before.txs[t].Enqueue? && k.0 == before.txs[t].ev && k.1 in before.txs[t].added)
  {
    RunKeepsInserts(st, steps);
    RunKeepsInv(st, steps);
    var before := Run(st, steps);
    if t in before.txs && before.txs[t].Delete? {
      assert Apply(before, CommitEnqueue(t)) == before;
    }
  }

  // ----- What a transaction does when nothing is in its way

  /** No lock and no pending insert stands in the way of fanning the event out to the endpoint, if that still exists. */
  ghost predicate Free(st: State, t: nat, ev: string, e: EndpointId) {
    !ExclusivelyLocked(st, e) && !InsertPending(st, t, (ev, e))
  }

  /** The transaction has handled the first `pos` endpoints; all else is as before. */
  ghost predicate HalfWay(st: State, mid: State, t: nat, ev: string, list: seq<EndpointId>, pos: nat, held: set<EndpointId>, added: set<EndpointId>) {
    && pos <= |list| && mid == st.(txs := st.txs[t := Enqueue(ev, list, pos, false, held, added)])
    && forall e :: e in added <==> e in list[..pos] && e in st.endpoints && (ev, e) !in st.rows
  }

  lemma OneEndpoint(st: State, mid: State, t: nat, ev: string, list: seq<EndpointId>, pos: nat, held: set<EndpointId>, added: set<EndpointId>)
    requires t !in st.txs && HalfWay(st, mid, t, ev, list, pos, held, added) && pos < |list| && Free(st, t, ev, list[pos])
    ensures var e := list[pos];
            HalfWay(st, Apply(Apply(mid, LockNext(t)), InsertNext(t)), t, ev, list, pos + 1, if e in st.endpoints then held + {e} else held,
                    if e in st.endpoints && (ev, e) !in st.rows then added + {e} else added)
  {
    var e, locked := list[pos], Apply(mid, LockNext(t));
    assert !ExclusivelyLocked(mid, e);
    if e in st.endpoints {
      assert locked == st.(txs := st.txs[t := Enqueue(ev, list, pos, true, held + {e}, added)]);
      assert !InsertPending(locked, t, (ev, e));
    } else {
      assert locked == st.(txs := st.txs[t := Enqueue(ev, list, pos + 1, false, held, added)]);
    }
    assert list[..pos + 1] == list[..pos] + [e];
  }

  /** The steps of a fan-out to `n` endpoints. */
  function FanOutSteps(t: nat, n: nat): seq<Step> {
    if n == 0 then [] else [LockNext(t), InsertNext(t)] + FanOutSteps(t, n - 1)
  }

  lemma {:induction false} RestOfFanOut(st: State, mid: State, t: nat, ev: string, list: seq<EndpointId>, pos: nat, held: set<EndpointId>, added: set<EndpointId>)
    returns (allHeld: set<EndpointId>, allAdded: set<EndpointId>)
    requires t !in st.txs && HalfWay(st, mid, t, ev, list, pos, held, added) && forall e :: e in list ==> Free(st, t, ev, e)
    ensures HalfWay(st, Run(mid, FanOutSteps(t, |list| - pos)), t, ev, list, |list|, allHeld, allAdded)
    decreases |list| - pos
  {
    if pos == |list| {
      allHeld, allAdded := held, added;
    } else {
      var e, rest := list[pos], FanOutSteps(t, |list| - pos - 1);
      var s1 := Apply(mid, LockNext(t));
      var s2 := Apply(s1, InsertNext(t));
      OneEndpoint(st, mid, t, ev, list, pos, held, added);
      allHeld, allAdded := RestOfFanOut(st, s2, t, ev, list, pos + 1, if e in st.endpoints then held + {e} else held,
                                        if e in st.endpoints && (ev, e) !in st.rows then added + {e} else added);
      RunOne(mid, LockNext(t), [InsertNext(t)] + rest);
      RunOne(s1, InsertNext(t), rest);
      assert [LockNext(t), InsertNext(t)] + rest == [LockNext(t)] + ([InsertNext(t)] + rest);
    }
  }

  lemma CommitsAll(st: State, ready: State, t: nat, ev: string, list: seq<EndpointId>, held: set<EndpointId>, added: set<EndpointId>)
    requires t !in st.txs && HalfWay(st, ready, t, ev, list, |list|, held, added)
    ensures var end := Apply(ready, CommitEnqueue(t));
            && end.endpoints == st.endpoints && end.txs == st.txs && end.aborted == st.aborted
            && (forall k :: k in end.rows <==> k in st.rows || (k.0 == ev && k.1 in list && k.1 in st.endpoints))
            && (forall k :: k in end.rows ==> end.rows[k] == if k in st.rows then st.rows[k] else D.Pending)
  {
    assert list[..|list|] == list;
    assert ready.txs - {t} == st.txs;
    var end := Apply(ready, CommitEnqueue(t));
    assert end.rows == st.rows + map e | e in added :: (ev, e) := D.Pending;
    forall k: RowKey
      ensures k in end.rows <==> k in st.rows || (k.0 == ev && k.1 in added)
    {
      assert k == (k.0, k.1);
    }
  }

  /** A fan-out that has begun and meets no lock and no rival goes through, whatever was deleted since it read its list:
      each listed endpoint that still exists has its row, a new one is pending, and nothing else changes. */
  lemma FanOutCompletes(st: State, t: nat, ev: string, list: seq<EndpointId>)
    requires t !in st.txs && forall e :: e in list ==> Free(st, t, ev, e)
    ensures var begun := st.(txs := st.txs[t := Enqueue(ev, list, 0, false, {}, {})]);
            var end := Apply(Run(begun, FanOutSteps(t, |list|)), CommitEnqueue(t));
            && end.endpoints == st.endpoints && end.txs == st.txs && end.aborted == st.aborted
            && (forall k :: k in end.rows <==> k in st.rows || (k.0 == ev && k.1 in list && k.1 in st.endpoints))
            && (forall k :: k in end.rows ==> end.rows[k] == if k in st.rows then st.rows[k] else D.Pending)
  {
    var begun := st.(txs := st.txs[t := Enqueue(ev, list, 0, false, {}, {})]);
    assert HalfWay(st, begun, t, ev, list, 0, {}, {});
    var held, added := RestOfFanOut(st, begun, t, ev, list, 0, {}, {});
    CommitsAll(st, Run(begun, FanOutSteps(t, |list|)), t, ev, list, held, added);
  }

  /** An endpoint that was just created is served by the next fan-out that lists it. */
  lemma NewEndpointIsServed(st: State, t: nat, ev: string, list: seq<EndpointId>, e: EndpointId)
    requires Quiet(st) && e !in st.used && e in list && forall f :: f in list ==> f == e || f in st.endpoints
    ensures var ready := Run(Apply(Apply(st, Create(e)), BeginEnqueue(t, ev, list)), FanOutSteps(t, |list|));
            var end := Apply(ready, CommitEnqueue(t));
            (ev, e) in end.rows && end.rows[(ev, e)].Pending?
  {
    var created := Apply(st, Create(e));
    assert forall i :: 0 <= i < |list| ==> list[i] in list && list[i] in created.endpoints;
    FanOutCompletes(created, t, ev, list);
  }

  /** A delete that meets no lock goes through: refused with nothing changed if it is not forced and a row is
      undelivered, and otherwise it removes the endpoint and exactly its rows. */
  lemma DeleteCompletes(st: State, t: nat, e: EndpointId, force: bool)
    requires t !in st.txs && e in st.endpoints && !ExclusivelyLocked(st, e) && !Shared(st, e)
    ensures var end := Apply(Apply(Apply(Apply(st, BeginDelete(t, e, force)), LockForUpdate(t)), Check(t)), CommitDelete(t));
            var refused := !force && exists k :: k in st.rows && k.1 == e && Undelivered(st.rows[k]);
            && end.txs == st.txs
            && end.endpoints == (if refused then st.endpoints else st.endpoints - {e})
            && end.rows == if refused then st.rows else map k | k in st.rows && k.1 != e :: st.rows[k]
  {
    var s1 := Apply(st, BeginDelete(t, e, force));
    assert !ExclusivelyLocked(s1, e) && !Shared(s1, e);
    var s2 := Apply(s1, LockForUpdate(t));
    assert s2 == st.(txs := st.txs[t := Delete(e, force, Checking)]);
    var s3 := Apply(s2, Check(t));
    assert s3.txs - {t} == st.txs;
  }

  // ----- What an unforced delete discards

  /** An unforced delete discards only rows that were committed and finished when it checked:
      none that a concurrent enqueue inserts is ever among them. */
  lemma UnforcedDeleteDiscardsOnlyChecked(st: State, steps: seq<Step>, t: nat, k: RowKey)
    requires Quiet(st)
    requires var before := Run(st, steps);
             && t in before.txs && before.txs[t].Delete? && !before.txs[t].force && before.txs[t].phase.Removing?
             && k in before.rows && k !in Apply(before, CommitDelete(t)).rows
    ensures var checked := Run(st, steps).txs[t].phase.checked; k in checked && !Undelivered(checked[k])
  {
    RunKeepsInv(st, steps);
    var before := Run(st, steps);
    assert TxOk(before, before.txs[t]);
  }

  /** The status that the last of the given steps to set one gave a row. */
  function LastSet(steps: seq<Step>, k: RowKey): Option<D.Status> {
    if steps == [] then None
    else if LastSet(steps[1..], k).Some? || !steps[0].SetStatus? || steps[0].key != k then LastSet(steps[1..], k)
    else Some(steps[0].status)
  }

  /** The delete stays under way. */
  predicate Stays(steps: seq<Step>, t: nat) {
    forall i :: 0 <= i < |steps| ==> steps[i] != Rollback(t) && steps[i] != CommitDelete(t)
  }

  /** Transaction `t` is a checked delete of endpoint `e`. */
  predicate Holds(st: State, t: nat, e: EndpointId) {
    t in st.txs && st.txs[t].Delete? && st.txs[t].phase.Removing? && st.txs[t].endpoint == e
  }

  lemma DeleteStays(st: State, s: Step, t: nat, e: EndpointId)
    requires Holds(st, t, e) && s != Rollback(t) && s != CommitDelete(t)
    ensures t in Apply(st, s).txs && Apply(st, s).txs[t] == st.txs[t]
  {
  }

  lemma CommitsElsewhere(st: State, t: nat, e: EndpointId, u: nat)
    requires Inv(st) && Holds(st, t, e) && u in st.txs && u != t
    ensures st.txs[u].Enqueue? ==> e !in st.txs[u].added
    ensures st.txs[u].Delete? && st.txs[u].phase.Removing? ==> st.txs[u].endpoint != e
  {
    assert Exclusive(st.txs[t], e) && TxOk(st, st.txs[u]);
    assert !Shares(st.txs[u], e) && !Exclusive(st.txs[u], e);
  }

  /** While a delete holds its endpoint, the only steps that change a row of it set its status. */
  lemma OnlyStatusChanges(st: State, s: Step, t: nat, k: RowKey)
    requires Inv(st) && Holds(st, t, k.1) && s != CommitDelete(t)
    ensures k in Apply(st, s).rows <==> k in st.rows
    ensures k in st.rows ==> Apply(st, s).rows[k] == if s.SetStatus? && s.key == k then s.status else st.rows[k]
  {
    if (s.CommitEnqueue? || s.CommitDelete?) && s.t in st.txs && s.t != t {
      CommitsElsewhere(st, t, k.1, s.t);
    }
  }

  lemma {:induction false} RowWhileHeld(st: State, steps: seq<Step>, t: nat, k: RowKey)
    requires Inv(st) && Holds(st, t, k.1) && Stays(steps, t)
    ensures var end := Run(st, steps);
            && t in end.txs && end.txs[t] == st.txs[t]
            && (k in end.rows <==> k in st.rows)
            && (k in st.rows ==> end.rows[k] == if LastSet(steps, k).Some? then LastSet(steps, k).value else st.rows[k])
    decreases |steps|
  {
    if steps == [] {
    } else {
      DeleteStays(st, steps[0], t, k.1);
      OnlyStatusChanges(st, steps[0], t, k);
      StepKeepsInv(st, steps[0]);
      RowWhileHeld(Apply(st, steps[0]), steps[1..], t, k);
    }
  }

  /** What a check that goes through leaves. */
  lemma CheckedHasNoUndelivered(st: State, t: nat, k: RowKey)
    requires t in st.txs && st.txs[t].Delete? && !st.txs[t].force && st.txs[t].phase.Checking? && t in Apply(st, Check(t)).txs
    ensures Holds(Apply(st, Check(t)), t, st.txs[t].endpoint) && Apply(st, Check(t)).rows == st.rows
    ensures k in st.rows && k.1 == st.txs[t].endpoint ==> !Undelivered(st.rows[k])
  {
  }

  lemma RowAtCommit(st: State, later: seq<Step>, t: nat, e: EndpointId, k: RowKey)
    requires Inv(st) && Holds(st, t, e) && Stays(later, t)
    ensures var end := Run(st, later);
            && (k.1 == e ==>
                  && k !in Apply(end, CommitDelete(t)).rows && (k in end.rows <==> k in st.rows)
                  && (k in st.rows ==> end.rows[k] == if LastSet(later, k).Some? then LastSet(later, k).value else st.rows[k]))
            && (k.1 != e ==> (k in end.rows <==> k in Apply(end, CommitDelete(t)).rows))
  {
    RowWhileHeld(st, later, t, (k.0, e));
    if k.1 == e {
      assert k == (k.0, e);
    }
  }

  /** Exactly what the locks do not prevent: however long an unforced delete is under way after
      its check, it discards an undelivered row if and only if that row was there at the check and the last
      status set since then (by an administrator's retry or a late mark) is an undelivered one. */
  lemma DiscardsUndeliveredIff(st: State, steps: seq<Step>, t: nat, later: seq<Step>, k: RowKey)
    requires Quiet(st) && Stays(later, t)
    requires var before := Run(st, steps);
             t in before.txs && before.txs[t].Delete? && !before.txs[t].force && before.txs[t].phase.Checking?
    requires t in Apply(Run(st, steps), Check(t)).txs
    ensures var before := Run(st, steps);
            var end := Run(Apply(before, Check(t)), later);
            (k in end.rows && Undelivered(end.rows[k]) && k !in Apply(end, CommitDelete(t)).rows) <==>
            (&& k in before.rows && k.1 == before.txs[t].endpoint
             && LastSet(later, k).Some? && Undelivered(LastSet(later, k).value))
  {
    RunKeepsInv(st, steps);
    var before := Run(st, steps);
    CheckedHasNoUndelivered(before, t, k);
    StepKeepsInv(before, Check(t));
    RowAtCommit(Apply(before, Check(t)), later, t, before.txs[t].endpoint, k);
  }

  lemma RunOne(st: State, step: Step, rest: seq<Step>)
    ensures Run(st, [step] + rest) == Run(Apply(st, step), rest)
  {
    assert ([step] + rest)[0] == step && ([step] + rest)[1..] == rest;
  }

  /** One endpoint with one dead row. */
  function OneDeadRow(ev: string, e: EndpointId): State {
    State({e}, {e}, map[(ev, e) := D.Dead], map[], false)
  }

  /** The state after an unforced delete has locked and checked its endpoint and an administrator
      has retried the row. */
  function RetriedAfterCheck(ev: string, e: EndpointId): State {
    State({e}, {e}, map[(ev, e) := D.Pending], map[0 := Delete(e, false, Removing(map[(ev, e) := D.Dead]))], false)
  }

  lemma LockingIsReachable(ev: string, e: EndpointId, rest: seq<Step>)
    ensures Run(OneDeadRow(ev, e), [BeginDelete(0, e, false)] + ([LockForUpdate(0)] + rest))
            == Run(OneDeadRow(ev, e).(txs := map[0 := Delete(e, false, Checking)]), rest)
  {
    var s0 := OneDeadRow(ev, e);
    var s1 := s0.(txs := map[0 := Delete(e, false, Locking)]);
    assert Apply(s0, BeginDelete(0, e, false)) == s1;
    assert Apply(s1, LockForUpdate(0)) == s0.(txs := map[0 := Delete(e, false, Checking)]);
    RunOne(s0, BeginDelete(0, e, false), [LockForUpdate(0)] + rest);
    RunOne(s1, LockForUpdate(0), rest);
  }

  lemma RetryAfterCheckIsReachable(ev: string, e: EndpointId)
    ensures Quiet(OneDeadRow(ev, e))
    ensures Run(OneDeadRow(ev, e), [BeginDelete(0, e, false)] + ([LockForUpdate(0)] + ([Check(0)] + [SetStatus((ev, e), D.Pending)])))
            == RetriedAfterCheck(ev, e)
  {
    var s0, retry := OneDeadRow(ev, e), SetStatus((ev, e), D.Pending);
    var s2 := s0.(txs := map[0 := Delete(e, false, Checking)]);
    var s3 := s0.(txs := map[0 := Delete(e, false, Removing(s0.rows))]);
    LockingIsReachable(ev, e, [Check(0)] + [retry]);
    assert RowsOf(s2.rows, e) == s0.rows;
    assert Apply(s2, Check(0)) == s3;
    assert Apply(s3, retry) == RetriedAfterCheck(ev, e);
    RunOne(s2, Check(0), [retry]);
    assert [retry] + [] == [retry];
    RunOne(s3, retry, []);
  }

  /** What the locks do not prevent: a row retried by an administrator after the check is
      discarded although it is pending again. */
  lemma RetryAfterCheckIsDiscarded(ev: string, e: EndpointId)
    ensures var st := RetriedAfterCheck(ev, e);
            && (ev, e) in st.rows && Undelivered(st.rows[(ev, e)])
            && (ev, e) !in Apply(st, CommitDelete(0)).rows
  {
    assert 0 in RetriedAfterCheck(ev, e).txs;
  }
}
