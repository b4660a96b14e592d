/** The webhook outbox: one row per dedupe key, fanned out to every subscribing endpoint. The claim
    is convergence: scanning, rescanning and replaying in any order and any number of times ends
    in the same set of keys. */
module Outbox {
  import opened TransferKeys

  datatype Endpoint = Endpoint(id: string, active: bool, types: seq<string>)

  datatype Row = Row(scope: string, ev: RawEvent, endpoint: string)

  /** Rows by dedupe key, which the table keeps unique. */
  type Rows = map<string, Row>

  const ALL_TYPES := [EventType(Trx, Received), EventType(Trx, Broadcasted), EventType(Trc20, Received), EventType(Trc20, Broadcasted)]

  function Effective(types: seq<string>): seq<string> {
    if types == [] then ALL_TYPES else types
  }

  predicate Subscribes(types: seq<string>, eventType: string) {
    exists i :: 0 <= i < |Effective(types)| && TrimSpace(Effective(types)[i]) == eventType
  }

  predicate Wants(ep: Endpoint, ev: RawEvent) {
    ep.active && Subscribes(ep.types, EventType(ev.kind, ev.direction))
  }

  /** A row of an older release already records this leg. */
  predicate LegacyExists(rows: Rows, scope: string, ev: RawEvent, endpoint: string) {
    exists k :: && k in rows && rows[k].scope == scope && rows[k].ev.txHash == ev.txHash
                && rows[k].ev.from == ev.from && rows[k].ev.to == ev.to && rows[k].ev.amount == ev.amount
                && (k == LegacyKey(scope, ev.txHash) || (endpoint != "" && k == LegacyEndpointKey(scope, ev.txHash, endpoint)))
  }

  /** The row an event adds for one endpoint, unless the endpoint does not want it, was deleted
      after the list was read, or has the leg already. */
  function Insert(rows: Rows, scope: string, ev: RawEvent, ep: Endpoint, deleted: set<string>): Rows {
    if Wants(ep, ev) && ep.id !in deleted && !LegacyExists(rows, scope, ev, ep.id) && DedupeKey(scope, ev, ep.id) !in rows
    then rows[DedupeKey(scope, ev, ep.id) := Row(scope, ev, ep.id)]
    else rows
  }

  /** The rows after fanning an event out to `eps` in order. */
  function FanOut(rows: Rows, scope: string, ev: RawEvent, eps: seq<Endpoint>, deleted: set<string>): Rows
    decreases |eps|
  {
    if eps == [] then rows
    else
      var n := |eps| - 1;
      Insert(FanOut(rows, scope, ev, eps[..n], deleted), scope, ev, eps[n], deleted)
  }

  /** Some endpoint that is still there wants the event. */
  predicate Reaches(ev: RawEvent, eps: seq<Endpoint>, deleted: set<string>) {
    exists i :: 0 <= i < |eps| && Wants(eps[i], ev) && eps[i].id !in deleted
  }

  /** Enqueueing the event ends in an error: its payload is built, and is too large. */
  predicate Fails(ev: RawEvent, eps: seq<Endpoint>, oversized: RawEvent -> bool) {
    oversized(ev) && Reaches(ev, eps, {})
  }

  /** The events before the first one that fails. */
  function BeforeError(evs: seq<RawEvent>, eps: seq<Endpoint>, oversized: RawEvent -> bool): seq<RawEvent> {
    if evs == [] || Fails(evs[0], eps, oversized) then [] else [evs[0]] + BeforeError(evs[1..], eps, oversized)
  }

  /** Events that all succeed come through, and an error after them cuts only what follows it. */
  lemma {:induction false} BeforeErrorAppend(a: seq<RawEvent>, b: seq<RawEvent>, eps: seq<Endpoint>, oversized: RawEvent -> bool)
    requires BeforeError(a, eps, oversized) == a
    ensures BeforeError(a + b, eps, oversized) == a + BeforeError(b, eps, oversized)
  {
    if a == [] {
      assert a + b == b;
    } else {
      assert (a + b)[0] == a[0] && (a + b)[1..] == a[1..] + b;
      assert a == [a[0]] + a[1..];
      assert BeforeError(a, eps, oversized)[1..] == a[1..];
      BeforeErrorAppend(a[1..], b, eps, oversized);
    }
  }

  lemma CutHere(evs: seq<RawEvent>, i: nat, eps: seq<Endpoint>, oversized: RawEvent -> bool)
    requires i < |evs| && BeforeError(evs[..i], eps, oversized) == evs[..i] && Fails(evs[i], eps, oversized)
    ensures BeforeError(evs, eps, oversized) == evs[..i] != evs
  {
    BeforeErrorAppend(evs[..i], evs[i..], eps, oversized);
    assert evs == evs[..i] + evs[i..];
  }

  lemma PassOne(evs: seq<RawEvent>, i: nat, eps: seq<Endpoint>, oversized: RawEvent -> bool)
    requires i < |evs| && BeforeError(evs[..i], eps, oversized) == evs[..i] && !Fails(evs[i], eps, oversized)
    ensures BeforeError(evs[..i + 1], eps, oversized) == evs[..i + 1]
  {
    BeforeErrorAppend(evs[..i], [evs[i]], eps, oversized);
    assert [evs[i]][1..] == [];
    assert evs[..i + 1] == evs[..i] + [evs[i]];
  }

  /** How many of the events, published in order, add a row. */
  function Inserting(rows: Rows, scope: string, evs: seq<RawEvent>, eps: seq<Endpoint>): nat
    decreases |evs|
  {
    if evs == [] then 0
    else
      var n := |evs| - 1;
      var before := Publish(rows, scope, evs[..n], eps);
      Inserting(rows, scope, evs[..n], eps) + if FanOut(before, scope, evs[n], eps, {}) == before then 0 else 1
  }

  lemma PublishOne(rows: Rows, scope: string, evs: seq<RawEvent>, i: nat, eps: seq<Endpoint>)
    requires i < |evs|
    ensures Publish(rows, scope, evs[..i + 1], eps) == FanOut(Publish(rows, scope, evs[..i], eps), scope, evs[i], eps, {})
  {
    PublishLast(rows, scope, evs[..i], evs[i], eps);
    assert evs[..i + 1] == evs[..i] + [evs[i]];
  }

  lemma {:induction false} NoErrorCutsNothing(evs: seq<RawEvent>, eps: seq<Endpoint>, oversized: RawEvent -> bool)
    requires forall i :: 0 <= i < |evs| ==> !Fails(evs[i], eps, oversized)
    ensures BeforeError(evs, eps, oversized) == evs
  {
    if evs == [] {
    } else {
      NoErrorCutsNothing(evs[1..], eps, oversized);
    }
  }

  class OutboxTable {
    var rows: Rows

    constructor ()
      ensures rows == map[]
    {
      rows := map[];
    }

    /** One transaction. `inserted` says that a row id was returned. An oversized payload rolls
        everything back. */
    method EnqueueWebhookEvent(scope: string, ev: RawEvent, endpoints: seq<Endpoint>, deleted: set<string>, oversized: bool)
      returns (ok: bool, inserted: bool)
      modifies this
      ensures rows == if ok then FanOut(old(rows), scope, ev, endpoints, deleted) else old(rows)
      ensures ok <==> !(oversized && Reaches(ev, endpoints, deleted))
      ensures inserted <==> rows != old(rows)
    {
      var inTx := rows;
      inserted := false;
      for i := 0 to |endpoints|
        invariant inTx == FanOut(rows, scope, ev, endpoints[..i], deleted)
        invariant rows.Keys <= inTx.Keys
        invariant inserted <==> inTx != rows
        invariant oversized ==> !Reaches(ev, endpoints[..i], deleted)
      {
        var ep := endpoints[i];
        assert endpoints[..i + 1][..i] == endpoints[..i];
        if !Wants(ep, ev) {
          continue;
        }
        if ep.id in deleted {
          continue;
        }
        if oversized {
          assert Wants(endpoints[i], ev) && endpoints[i].id !in deleted;
          return false, false;
        }
        if LegacyExists(inTx, scope, ev, ep.id) {
          continue;
        }
        var key := DedupeKey(scope, ev, ep.id);
        if key in inTx {
          continue;
        }
        inTx := inTx[key := Row(scope, ev, ep.id)];
        inserted := true;
        assert key in inTx && key !in rows;
      }
      assert endpoints[..|endpoints|] == endpoints;
      rows := inTx;
      ok := true;
    }

    /** Enqueues the events of one block; the first error ends it, and what came before stays. */
    method EnqueueOutboxEvents(scope: string, events: seq<RawEvent>, endpoints: seq<Endpoint>, oversized: RawEvent -> bool)
      returns (enqueued: nat, ok: bool)
      modifies this
      ensures rows == Publish(old(rows), scope, BeforeError(events, endpoints, oversized), endpoints)
      ensures ok <==> BeforeError(events, endpoints, oversized) == events
      ensures enqueued == Inserting(old(rows), scope, BeforeError(events, endpoints, oversized), endpoints)
    {
      enqueued := 0;
      for i := 0 to |events|
        invariant enqueued == Inserting(old(rows), scope, events[..i], endpoints)
        invariant BeforeError(events[..i], endpoints, oversized) == events[..i]
        invariant rows == Publish(old(rows), scope, events[..i], endpoints)
      {
        var done, inserted := EnqueueWebhookEvent(scope, events[i], endpoints, {}, oversized(events[i]));
        if !done {
          CutHere(events, i, endpoints, oversized);
          return enqueued, false;
        }
        PassOne(events, i, endpoints, oversized);
        assert events[..i + 1][..i] == events[..i];
        PublishOne(old(rows), scope, events, i, endpoints);
        if inserted {
          enqueued := enqueued + 1;
        }
      }
      assert events[..|events|] == events;
      ok := true;
    }
  }

  // ----- What one event contributes

  /** Every row is stored under the current form of its own key. */
  ghost predicate Current(rows: Rows) {
    forall k :: k in rows ==> k == DedupeKey(rows[k].scope, rows[k].ev, rows[k].endpoint)
  }

  ghost predicate PlainIds(eps: seq<Endpoint>) {
    forall i :: 0 <= i < |eps| ==> Plain(eps[i].id)
  }

  /** The keys an event should have: one for each active endpoint subscribed to its type. */
  ghost function KeysOf(scope: string, ev: RawEvent, eps: seq<Endpoint>): set<string>
    decreases |eps|
  {
    if eps == [] then {}
    else
      var last := eps[|eps| - 1];
      KeysOf(scope, ev, eps[..|eps| - 1]) + if Wants(last, ev) then {DedupeKey(scope, ev, last.id)} else {}
  }

  lemma {:induction false} KeysOfMembers(scope: string, ev: RawEvent, eps: seq<Endpoint>, k: string)
    ensures k in KeysOf(scope, ev, eps) <==>
            exists i :: 0 <= i < |eps| && Wants(eps[i], ev) && k == DedupeKey(scope, ev, eps[i].id)
    decreases |eps|
  {
    if eps == [] {
    } else {
      var front := eps[..|eps| - 1];
      KeysOfMembers(scope, ev, front, k);
      assert forall i :: 0 <= i < |front| ==> front[i] == eps[i];
    }
  }

  /** An endpoint is served if and only if it is active and lists the type of the event, blanks
      around it aside, or lists no types at all. */
  lemma WantsIff(ep: Endpoint, ev: RawEvent)
    ensures Wants(ep, ev) <==>
            ep.active && (ep.types == [] || exists j :: 0 <= j < |ep.types| && TrimSpace(ep.types[j]) == EventType(ev.kind, ev.direction))
  {
    var eventType := EventType(ev.kind, ev.direction);
    if ep.types == [] {
      var i := if ev.kind.Trx? then (if ev.direction.Received? then 0 else 1) else if ev.direction.Received? then 2 else 3;
      assert Effective(ep.types)[i] == eventType && eventType[0] == 't' && eventType[|eventType| - 1] == 'd';
      assert TrimLeft(eventType) == eventType == TrimRight(eventType);
      assert Subscribes(ep.types, eventType);
    } else {
      assert Effective(ep.types) == ep.types;
    }
  }

  /** The keys of an event, in terms of the endpoints alone. */
  lemma KeysOfIff(scope: string, ev: RawEvent, eps: seq<Endpoint>, k: string)
    ensures k in KeysOf(scope, ev, eps) <==>
            exists i :: && 0 <= i < |eps| && eps[i].active
                        && (eps[i].types == [] || exists j :: 0 <= j < |eps[i].types| && TrimSpace(eps[i].types[j]) == EventType(ev.kind, ev.direction))
                        && k == DedupeKey(scope, ev, eps[i].id)
  {
    KeysOfMembers(scope, ev, eps, k);
    forall i | 0 <= i < |eps|
      ensures Wants(eps[i], ev) <==>
              eps[i].active && (eps[i].types == [] || exists j :: 0 <= j < |eps[i].types| && TrimSpace(eps[i].types[j]) == EventType(ev.kind, ev.direction))
    {
      WantsIff(eps[i], ev);
    }
  }

  /** A row under the key `k` records the transfer of the event. */
  ghost predicate Records(rows: Rows, k: string, scope: string, ev: RawEvent) {
    k in rows && (rows[k].scope, rows[k].ev.txHash, rows[k].ev.from, rows[k].ev.to, rows[k].ev.amount) == (scope, ev.txHash, ev.from, ev.to, ev.amount)
  }

  /** The skip for rows of older releases looks at two keys: that of the transaction, and that of
      the transaction with the endpoint. */
  lemma LegacyIff(rows: Rows, scope: string, ev: RawEvent, endpoint: string)
    ensures LegacyExists(rows, scope, ev, endpoint) <==>
            || Records(rows, scope + ":" + ev.txHash, scope, ev)
            || (endpoint != "" && Records(rows, scope + ":" + ev.txHash + ":" + endpoint, scope, ev))
  {
  }

  /** What makes a fan-out add a row for an endpoint. */
  ghost predicate Served(rows: Rows, scope: string, ev: RawEvent, ep: Endpoint, deleted: set<string>) {
    && ep.active
    && (ep.types == [] || exists j :: 0 <= j < |ep.types| && TrimSpace(ep.types[j]) == EventType(ev.kind, ev.direction))
    && ep.id !in deleted
    && !Records(rows, scope + ":" + ev.txHash, scope, ev)
    && !(ep.id != "" && Records(rows, scope + ":" + ev.txHash + ":" + ep.id, scope, ev))
  }

  /** The key is that of an endpoint that is served. */
  ghost predicate KeyServed(rows: Rows, scope: string, ev: RawEvent, eps: seq<Endpoint>, deleted: set<string>, k: string) {
    exists i :: 0 <= i < |eps| && Served(rows, scope, ev, eps[i], deleted) && k == DedupeKey(scope, ev, eps[i].id)
  }

  lemma OneMoreServed(rows: Rows, scope: string, ev: RawEvent, eps: seq<Endpoint>, deleted: set<string>, k: string)
    requires eps != []
    ensures var n := |eps| - 1;
            KeyServed(rows, scope, ev, eps, deleted, k) <==>
            KeyServed(rows, scope, ev, eps[..n], deleted, k) || (Served(rows, scope, ev, eps[n], deleted) && k == DedupeKey(scope, ev, eps[n].id))
  {
    var n := |eps| - 1;
    if i :| 0 <= i < n && Served(rows, scope, ev, eps[..n][i], deleted) && k == DedupeKey(scope, ev, eps[..n][i].id) {
      assert eps[..n][i] == eps[i];
    }
    if i :| 0 <= i < |eps| && Served(rows, scope, ev, eps[i], deleted) && k == DedupeKey(scope, ev, eps[i].id) {
      assert i < n ==> eps[..n][i] == eps[i];
    }
  }

  lemma InsertIff(rows: Rows, scope: string, ev: RawEvent, ep: Endpoint, deleted: set<string>)
    ensures var after := Insert(rows, scope, ev, ep, deleted);
            var key := DedupeKey(scope, ev, ep.id);
            after == if Served(rows, scope, ev, ep, deleted) && key !in rows then rows[key := Row(scope, ev, ep.id)] else rows
  {
    WantsIff(ep, ev);
    LegacyIff(rows, scope, ev, ep.id);
  }

  /** A new row of the event hides no endpoint from it. */
  lemma InsertKeepsServed(rows: Rows, scope: string, ev: RawEvent, ep: Endpoint, deleted: set<string>, other: Endpoint)
    requires Plain(other.id)
    ensures Served(Insert(rows, scope, ev, ep, deleted), scope, ev, other, deleted) <==> Served(rows, scope, ev, other, deleted)
  {
    CurrentKeyIsNeverLegacy(scope, ev, ep.id, other.id);
  }

  lemma {:induction false} FanOutKeepsServed(rows: Rows, scope: string, ev: RawEvent, eps: seq<Endpoint>, deleted: set<string>, other: Endpoint)
    requires Plain(other.id)
    ensures Served(FanOut(rows, scope, ev, eps, deleted), scope, ev, other, deleted) <==> Served(rows, scope, ev, other, deleted)
    decreases |eps|
  {
    if eps == [] {
    } else {
      var n := |eps| - 1;
      FanOutKeepsServed(rows, scope, ev, eps[..n], deleted, other);
      InsertKeepsServed(FanOut(rows, scope, ev, eps[..n], deleted), scope, ev, eps[n], deleted, other);
    }
  }

  /** Over any rows, those of older releases included: an enqueue keeps every row, and a key is there
      afterwards if and only if it was there before or is that of an endpoint that is served. */
  lemma {:induction false} FanOutIff(rows: Rows, scope: string, ev: RawEvent, eps: seq<Endpoint>, deleted: set<string>)
    requires PlainIds(eps)
    ensures var after := FanOut(rows, scope, ev, eps, deleted);
            && (forall k :: k in after <==> k in rows || KeyServed(rows, scope, ev, eps, deleted, k))
            && (forall k :: k in rows ==> after[k] == rows[k])
            && (forall k :: k in after && k !in rows ==> after[k].scope == scope && after[k].ev == ev && k == DedupeKey(scope, ev, after[k].endpoint))
    decreases |eps|
  {
    if eps == [] {
    } else {
      var n := |eps| - 1;
      var before, after := FanOut(rows, scope, ev, eps[..n], deleted), FanOut(rows, scope, ev, eps, deleted);
      FanOutIff(rows, scope, ev, eps[..n], deleted);
      FanOutKeepsServed(rows, scope, ev, eps[..n], deleted, eps[n]);
      InsertIff(before, scope, ev, eps[n], deleted);
      var key := DedupeKey(scope, ev, eps[n].id);
      assert after == if Served(rows, scope, ev, eps[n], deleted) && key !in before then before[key := Row(scope, ev, eps[n].id)] else before;
      forall k
        ensures KeyServed(rows, scope, ev, eps, deleted, k) <==>
                KeyServed(rows, scope, ev, eps[..n], deleted, k) || (Served(rows, scope, ev, eps[n], deleted) && k == key)
      {
        OneMoreServed(rows, scope, ev, eps, deleted, k);
      }
    }
  }

  lemma CurrentRowsHideNothing(rows: Rows, scope: string, ev: RawEvent, endpoint: string)
    requires Current(rows) && Plain(endpoint)
    ensures !LegacyExists(rows, scope, ev, endpoint)
  {
    forall k | k in rows && rows[k].scope == scope && rows[k].ev.txHash == ev.txHash
      ensures k != LegacyKey(scope, ev.txHash) && k != LegacyEndpointKey(scope, ev.txHash, endpoint)
    {
      CurrentKeyIsNeverLegacy(rows[k].scope, rows[k].ev, rows[k].endpoint, endpoint);
    }
  }

  /** Only rows were added, and the keys added are `keys`. */
  ghost predicate Adds(rows: Rows, after: Rows, keys: set<string>) {
    && after.Keys == rows.Keys + keys
    && forall k :: k in rows ==> after[k] == rows[k]
  }

  lemma InsertAddsKey(rows: Rows, scope: string, ev: RawEvent, ep: Endpoint)
    requires Current(rows) && Plain(ep.id)
    ensures Current(Insert(rows, scope, ev, ep, {}))
    ensures Adds(rows, Insert(rows, scope, ev, ep, {}), if Wants(ep, ev) then {DedupeKey(scope, ev, ep.id)} else {})
  {
    CurrentRowsHideNothing(rows, scope, ev, ep.id);
  }

  lemma AddsTwice(r0: Rows, r1: Rows, r2: Rows, k1: set<string>, k2: set<string>)
    requires Adds(r0, r1, k1) && Adds(r1, r2, k2)
    ensures Adds(r0, r2, k1 + k2)
  {
  }

  lemma AddsNothingNew(rows: Rows, after: Rows, keys: set<string>)
    requires Adds(rows, after, keys) && keys <= rows.Keys
    ensures after == rows
  {
    assert after.Keys == rows.Keys;
  }

  /** Without legacy rows an enqueue adds exactly the keys of its event that are missing, and
      leaves every existing row alone. */
  lemma {:induction false} FanOutAddsKeys(rows: Rows, scope: string, ev: RawEvent, eps: seq<Endpoint>)
    requires Current(rows) && PlainIds(eps)
    ensures Current(FanOut(rows, scope, ev, eps, {}))
    ensures Adds(rows, FanOut(rows, scope, ev, eps, {}), KeysOf(scope, ev, eps))
    decreases |eps|
  {
    if eps == [] {
    } else {
      var n := |eps| - 1;
      var before := FanOut(rows, scope, ev, eps[..n], {});
      FanOutAddsKeys(rows, scope, ev, eps[..n]);
      InsertAddsKey(before, scope, ev, eps[n]);
      AddsTwice(rows, before, Insert(before, scope, ev, eps[n], {}), KeysOf(scope, ev, eps[..n]),
                if Wants(eps[n], ev) then {DedupeKey(scope, ev, eps[n].id)} else {});
    }
  }

  /** An enqueue ends in an error if and only if the payload is too large and some active endpoint takes events of this type. */
  lemma FailsIff(ev: RawEvent, eps: seq<Endpoint>, oversized: RawEvent -> bool)
    ensures Fails(ev, eps, oversized) <==>
            && oversized(ev)
            && exists i :: && 0 <= i < |eps| && eps[i].active
                           && (eps[i].types == [] || exists j :: 0 <= j < |eps[i].types| && TrimSpace(eps[i].types[j]) == EventType(ev.kind, ev.direction))
  {
    forall i | 0 <= i < |eps|
      ensures Wants(eps[i], ev) <==>
              eps[i].active && (eps[i].types == [] || exists j :: 0 <= j < |eps[i].types| && TrimSpace(eps[i].types[j]) == EventType(ev.kind, ev.direction))
    {
      WantsIff(eps[i], ev);
    }
  }

  /** An endpoint that is gone causes no error. */
  lemma DeletedCauseNoError(ev: RawEvent, eps: seq<Endpoint>, deleted: set<string>)
    requires forall i :: 0 <= i < |eps| ==> eps[i].id in deleted
    ensures !Reaches(ev, eps, deleted)
  {
  }

  lemma {:induction false} FanOutKeeps(rows: Rows, scope: string, ev: RawEvent, eps: seq<Endpoint>, deleted: set<string>)
    ensures rows.Keys <= FanOut(rows, scope, ev, eps, deleted).Keys
    ensures forall k :: k in rows ==> FanOut(rows, scope, ev, eps, deleted)[k] == rows[k]
    ensures FanOut(rows, scope, ev, eps, deleted).Keys == rows.Keys ==> FanOut(rows, scope, ev, eps, deleted) == rows
    decreases |eps|
  {
    if eps == [] {
    } else {
      FanOutKeeps(rows, scope, ev, eps[..|eps| - 1], deleted);
    }
  }

  /** The number reported for a block is zero exactly when nothing was added, and at most the number of its events. */
  lemma {:induction false} InsertingIff(rows: Rows, scope: string, evs: seq<RawEvent>, eps: seq<Endpoint>)
    ensures Inserting(rows, scope, evs, eps) == 0 <==> Publish(rows, scope, evs, eps) == rows
    ensures Inserting(rows, scope, evs, eps) <= |evs| && rows.Keys <= Publish(rows, scope, evs, eps).Keys
    decreases |evs|
  {
    if evs == [] {
    } else {
      var n := |evs| - 1;
      InsertingIff(rows, scope, evs[..n], eps);
      FanOutKeeps(Publish(rows, scope, evs[..n], eps), scope, evs[n], eps, {});
      PublishLast(rows, scope, evs[..n], evs[n], eps);
      assert evs == evs[..n] + [evs[n]];
    }
  }

  // ----- What a scan contributes

  /** A parsed transfer of a block, before matching. */
  datatype Transfer = Transfer(txHash: string, from: string, to: string, amount: string, timestamp: int)

  /** What stays fixed while scans repeat: the chain as it is returned, the active watchlist and
      the endpoints. A block that no response ever contains has no entry in `chain`. */
  datatype World = World(chain: map<(string, int), seq<Transfer>>, active: set<string>, endpoints: seq<Endpoint>)

  const TRX := "TRX"

  function Confirmations(tip: int, block: int): int {
    if tip <= block then 0 else tip - block
  }

  /** One event per watched role of the transfer. */
  function Matches(active: set<string>, scope: string, t: Transfer, block: int, tip: int): seq<RawEvent> {
    var kind := if scope == TRX then Trx else Trc20;
    var contract := if scope == TRX then "" else scope;
    var base := RawEvent(kind, Received, t.txHash, t.from, t.to, t.amount, contract, block, t.timestamp, Confirmations(tip, block));
    (if t.to != "" && t.to in active then [base] else [])
    + (if t.from != "" && t.from in active then [base.(direction := Broadcasted)] else [])
  }

  function MatchAll(active: set<string>, scope: string, ts: seq<Transfer>, block: int, tip: int): seq<RawEvent> {
    if ts == [] then [] else Matches(active, scope, ts[0], block, tip) + MatchAll(active, scope, ts[1..], block, tip)
  }

  /** The event of a transfer for its receiver or its sender. */
  function EventOf(scope: string, t: Transfer, d: Direction, block: int, tip: int): RawEvent {
    RawEvent(if scope == TRX then Trx else Trc20, d, t.txHash, t.from, t.to, t.amount,
             if scope == TRX then "" else scope, block, t.timestamp, if tip < block then 0 else tip - block)
  }

  /** The address that has this role in the transfer. */
  function Party(t: Transfer, d: Direction): string {
    match d
    case Received => t.to
    case Broadcasted => t.from
  }

  /** A transfer yields the event of a role if and only if the address in that role is named and on
      the watchlist, each once and the receiver's first. */
  lemma MatchesIff(active: set<string>, scope: string, t: Transfer, block: int, tip: int)
    ensures var out := Matches(active, scope, t, block, tip);
            && (forall e :: e in out <==> exists d :: e == EventOf(scope, t, d, block, tip) && Party(t, d) != "" && Party(t, d) in active)
            && |out| <= 2
            && (|out| == 2 ==> out[0].direction == Received && out[1].direction == Broadcasted)
  {
    var to, from := t.to != "" && t.to in active, t.from != "" && t.from in active;
    var out := Matches(active, scope, t, block, tip);
    var received, broadcasted := EventOf(scope, t, Received, block, tip), EventOf(scope, t, Broadcasted, block, tip);
    assert Party(t, Received) == t.to && Party(t, Broadcasted) == t.from;
    assert out == (if to then [received] else []) + (if from then [broadcasted] else []);
  }

  /** The same for all transfers of a block: no event without a watched address in its role, and
      for each such role its event, with the confirmations that the tip gives it. */
  lemma {:induction false} MatchAllIff(active: set<string>, scope: string, ts: seq<Transfer>, block: int, tip: int, e: RawEvent)
    ensures e in MatchAll(active, scope, ts, block, tip) <==>
            exists i, d :: 0 <= i < |ts| && e == EventOf(scope, ts[i], d, block, tip) && Party(ts[i], d) != "" && Party(ts[i], d) in active
  {
    if ts == [] {
    } else {
      var rest := ts[1..];
      MatchesIff(active, scope, ts[0], block, tip);
      MatchAllIff(active, scope, rest, block, tip, e);
      if i, d :| 0 <= i < |rest| && e == EventOf(scope, rest[i], d, block, tip) && Party(rest[i], d) != "" && Party(rest[i], d) in active {
        assert rest[i] == ts[i + 1];
      }
      if i, d :| 0 < i < |ts| && e == EventOf(scope, ts[i], d, block, tip) && Party(ts[i], d) != "" && Party(ts[i], d) in active {
        assert ts[i] == rest[i - 1];
      }
    }
  }

  function BlockEvents(w: World, scope: string, block: int, tip: int): seq<RawEvent> {
    if (scope, block) in w.chain then MatchAll(w.active, scope, w.chain[(scope, block)], block, tip) else []
  }

  function BatchEvents(w: World, scope: string, blocks: seq<int>, tip: int): seq<RawEvent> {
    if blocks == [] then [] else BlockEvents(w, scope, blocks[0], tip) + BatchEvents(w, scope, blocks[1..], tip)
  }

  /** The events whose key does not occur earlier in the batch. */
  function Distinct(key: RawEvent -> string, evs: seq<RawEvent>, seen: set<string>): seq<RawEvent> {
    if evs == [] then []
    else if key(evs[0]) in seen then Distinct(key, evs[1..], seen)
    else [evs[0]] + Distinct(key, evs[1..], seen + {key(evs[0])})
  }

  function Publish(rows: Rows, scope: string, evs: seq<RawEvent>, eps: seq<Endpoint>): Rows
    decreases |evs|
  {
    if evs == [] then rows else Publish(FanOut(rows, scope, evs[0], eps, {}), scope, evs[1..], eps)
  }

  lemma {:induction false} PublishLast(rows: Rows, scope: string, evs: seq<RawEvent>, last: RawEvent, eps: seq<Endpoint>)
    ensures Publish(rows, scope, evs + [last], eps) == FanOut(Publish(rows, scope, evs, eps), scope, last, eps, {})
    decreases |evs|
  {
    if evs == [] {
      assert [last][1..] == [];
    } else {
      assert (evs + [last])[0] == evs[0] && (evs + [last])[1..] == evs[1..] + [last];
      PublishLast(FanOut(rows, scope, evs[0], eps, {}), scope, evs[1..], last, eps);
    }
  }

  ghost function EventKeys(scope: string, evs: seq<RawEvent>, eps: seq<Endpoint>): set<string> {
    if evs == [] then {} else KeysOf(scope, evs[0], eps) + EventKeys(scope, evs[1..], eps)
  }

  lemma {:induction false} EventKeysAppend(scope: string, a: seq<RawEvent>, b: seq<RawEvent>, eps: seq<Endpoint>)
    ensures EventKeys(scope, a + b, eps) == EventKeys(scope, a, eps) + EventKeys(scope, b, eps)
  {
    if a == [] {
      assert a + b == b;
    } else {
      assert (a + b)[0] == a[0] && (a + b)[1..] == a[1..] + b;
      EventKeysAppend(scope, a[1..], b, eps);
    }
  }

  lemma {:induction false} EventKeysMembers(scope: string, evs: seq<RawEvent>, eps: seq<Endpoint>, k: string)
    ensures k in EventKeys(scope, evs, eps) <==> exists e :: e in evs && k in KeysOf(scope, e, eps)
  {
    if evs == [] {
    } else {
      EventKeysMembers(scope, evs[1..], eps, k);
      assert evs[0] in evs && forall e :: e in evs[1..] ==> e in evs;
      assert forall e :: e in evs ==> e == evs[0] || e in evs[1..];
    }
  }

  lemma {:induction false} PublishAddsKeys(rows: Rows, scope: string, evs: seq<RawEvent>, eps: seq<Endpoint>)
    requires Current(rows) && PlainIds(eps)
    ensures Current(Publish(rows, scope, evs, eps))
    ensures Adds(rows, Publish(rows, scope, evs, eps), EventKeys(scope, evs, eps))
    decreases |evs|
  {
    if evs == [] {
    } else {
      var next := FanOut(rows, scope, evs[0], eps, {});
      FanOutAddsKeys(rows, scope, evs[0], eps);
      PublishAddsKeys(next, scope, evs[1..], eps);
      AddsTwice(rows, next, Publish(next, scope, evs[1..], eps), KeysOf(scope, evs[0], eps), EventKeys(scope, evs[1..], eps));
    }
  }

  // ----- Dropping repeats within a batch

  ghost predicate OneKind(scope: string, evs: seq<RawEvent>) {
    forall i :: 0 <= i < |evs| ==> PlainEvent(evs[i]) && evs[i].kind == if scope == TRX then Trx else Trc20
  }

  lemma {:induction false} SameBatchKeySameKeys(scope: string, a: RawEvent, b: RawEvent, eps: seq<Endpoint>)
    requires Plain(scope) && PlainIds(eps) && PlainEvent(a) && PlainEvent(b) && a.kind == b.kind
    requires TransferEventKey(a) == TransferEventKey(b)
    ensures KeysOf(scope, a, eps) == KeysOf(scope, b, eps)
    decreases |eps|
  {
    if eps == [] {
    } else {
      var last := eps[|eps| - 1];
      BatchKeyAgreesWithOutboxKey(scope, a, b, last.id);
      DedupeKeyFaithful(scope, a, last.id, scope, b, last.id);
      assert Wants(last, a) <==> Wants(last, b);
      SameBatchKeySameKeys(scope, a, b, eps[..|eps| - 1]);
    }
  }

  /** `known` holds the outbox keys of every event whose batch key is in `seen`. */
  ghost predicate Accounted(scope: string, seen: set<string>, known: set<string>, eps: seq<Endpoint>) {
    forall e: RawEvent :: OneKind(scope, [e]) && TransferEventKey(e) in seen ==> KeysOf(scope, e, eps) <= known
  }

  lemma AccountOneMore(scope: string, seen: set<string>, known: set<string>, a: RawEvent, eps: seq<Endpoint>)
    requires Plain(scope) && PlainIds(eps) && OneKind(scope, [a]) && Accounted(scope, seen, known, eps)
    ensures Accounted(scope, seen + {TransferEventKey(a)}, known + KeysOf(scope, a, eps), eps)
  {
    assert [a][0] == a;
    forall e: RawEvent | OneKind(scope, [e]) && TransferEventKey(e) in seen + {TransferEventKey(a)}
      ensures KeysOf(scope, e, eps) <= known + KeysOf(scope, a, eps)
    {
      assert [e][0] == e;
      if TransferEventKey(e) == TransferEventKey(a) {
        SameBatchKeySameKeys(scope, e, a, eps);
      }
    }
  }

  /** Dropping the events of a batch whose batch key was seen before loses no outbox key. */
  lemma {:induction false} DistinctKeepsKeys(scope: string, evs: seq<RawEvent>, seen: set<string>, known: set<string>, eps: seq<Endpoint>)
    requires Plain(scope) && PlainIds(eps) && OneKind(scope, evs) && Accounted(scope, seen, known, eps)
    ensures known + EventKeys(scope, Distinct(TransferEventKey, evs, seen), eps) == known + EventKeys(scope, evs, eps)
    decreases |evs|
  {
    if evs == [] {
    } else {
      var e, rest := evs[0], evs[1..];
      assert OneKind(scope, [e]) && OneKind(scope, rest);
      if TransferEventKey(e) in seen {
        DistinctKeepsKeys(scope, rest, seen, known, eps);
      } else {
        AccountOneMore(scope, seen, known, e, eps);
        DistinctKeepsKeys(scope, rest, seen + {TransferEventKey(e)}, known + KeysOf(scope, e, eps), eps);
        assert ([e] + Distinct(TransferEventKey, rest, seen + {TransferEventKey(e)}))[1..] == Distinct(TransferEventKey, rest, seen + {TransferEventKey(e)});
      }
    }
  }

  // ----- Runs

  /** One batch of a forward scan, a retained rescan or a replay: the blocks it covers, and the
      chain tip known at the time. Contract batches drop repeated batch keys, native ones do not. */
  datatype Op = Op(scope: string, blocks: seq<int>, tip: int)

  function Published(w: World, op: Op): seq<RawEvent> {
    var evs := BatchEvents(w, op.scope, op.blocks, op.tip);
    if op.scope == TRX then evs else Distinct(TransferEventKey, evs, {})
  }

  function Run(w: World, rows: Rows, ops: seq<Op>): Rows
    decreases |ops|
  {
    if ops == [] then rows
    else Run(w, Publish(rows, ops[0].scope, Published(w, ops[0]), w.endpoints), ops[1..])
  }

  /** No two of the events share a key, and none has a key in `seen`. */
  ghost predicate NoRepeats(key: RawEvent -> string, evs: seq<RawEvent>, seen: set<string>) {
    && (forall i :: 0 <= i < |evs| ==> key(evs[i]) !in seen)
    && (forall i, j :: 0 <= i < j < |evs| ==> key(evs[i]) != key(evs[j]))
  }

  lemma {:induction false} DistinctHasNoRepeats(key: RawEvent -> string, evs: seq<RawEvent>, seen: set<string>)
    ensures NoRepeats(key, Distinct(key, evs, seen), seen)
    decreases |evs|
  {
    if evs == [] {
    } else if key(evs[0]) in seen {
      DistinctHasNoRepeats(key, evs[1..], seen);
    } else {
      var rest := Distinct(key, evs[1..], seen + {key(evs[0])});
      DistinctHasNoRepeats(key, evs[1..], seen + {key(evs[0])});
      assert Distinct(key, evs, seen) == [evs[0]] + rest;
      assert forall i :: 0 <= i < |rest| ==> ([evs[0]] + rest)[i + 1] == rest[i];
      assert forall i :: 0 < i < 1 + |rest| ==> ([evs[0]] + rest)[i] == rest[i - 1];
    }
  }

  /** A native batch publishes all of its events, a contract batch each batch key once. */
  lemma PublishedOnce(w: World, op: Op)
    ensures op.scope == TRX ==> Published(w, op) == BatchEvents(w, op.scope, op.blocks, op.tip)
    ensures op.scope != TRX ==> NoRepeats(TransferEventKey, Published(w, op), {})
  {
    DistinctHasNoRepeats(TransferEventKey, BatchEvents(w, op.scope, op.blocks, op.tip), {});
  }

  ghost predicate PlainTransfers(ts: seq<Transfer>) {
    forall i :: 0 <= i < |ts| ==> Plain(ts[i].txHash) && Plain(ts[i].from) && Plain(ts[i].to) && Plain(ts[i].amount)
  }

  /** Scopes, hashes, addresses, amounts and endpoint ids never hold the key separator. */
  ghost predicate PlainWorld(w: World) {
    && PlainIds(w.endpoints)
    && forall v :: v in w.chain ==> Plain(v.0) && PlainTransfers(w.chain[v])
  }

  /** The keys that the transfers of one block call for. They do not depend on the chain tip. */
  ghost function BlockKeys(w: World, scope: string, block: int): set<string> {
    EventKeys(scope, BlockEvents(w, scope, block, 0), w.endpoints)
  }

  lemma MatchesShape(w: World, scope: string, t: Transfer, block: int, tip: int)
    requires PlainTransfers([t])
    ensures OneKind(scope, Matches(w.active, scope, t, block, tip))
    ensures EventKeys(scope, Matches(w.active, scope, t, block, tip), w.endpoints)
            == EventKeys(scope, Matches(w.active, scope, t, block, 0), w.endpoints)
  {
    assert [t][0] == t;
    EventKeysIgnoreTip(scope, Matches(w.active, scope, t, block, tip), Matches(w.active, scope, t, block, 0), w.endpoints);
  }

  predicate SameButTip(a: RawEvent, b: RawEvent) {
    a.(confirmations := 0) == b.(confirmations := 0)
  }

  lemma {:induction false} KeysIgnoreTip(scope: string, a: RawEvent, b: RawEvent, eps: seq<Endpoint>)
    requires SameButTip(a, b)
    ensures KeysOf(scope, a, eps) == KeysOf(scope, b, eps)
    decreases |eps|
  {
    if eps == [] {
    } else {
      KeysIgnoreTip(scope, a, b, eps[..|eps| - 1]);
      assert a.kind == b.kind && a.direction == b.direction && a.txHash == b.txHash;
      assert a.from == b.from && a.to == b.to && a.amount == b.amount;
    }
  }

  lemma {:induction false} EventKeysIgnoreTip(scope: string, a: seq<RawEvent>, b: seq<RawEvent>, eps: seq<Endpoint>)
    requires |a| == |b| && forall i :: 0 <= i < |a| ==> SameButTip(a[i], b[i])
    ensures EventKeys(scope, a, eps) == EventKeys(scope, b, eps)
  {
    if a == [] {
    } else {
      KeysIgnoreTip(scope, a[0], b[0], eps);
      EventKeysIgnoreTip(scope, a[1..], b[1..], eps);
    }
  }

  lemma OneKindAppend(scope: string, a: seq<RawEvent>, b: seq<RawEvent>)
    requires OneKind(scope, a) && OneKind(scope, b)
    ensures OneKind(scope, a + b)
  {
  }

  lemma {:induction false} MatchAllShape(w: World, scope: string, ts: seq<Transfer>, block: int, tip: int)
    requires PlainTransfers(ts)
    ensures OneKind(scope, MatchAll(w.active, scope, ts, block, tip))
    ensures EventKeys(scope, MatchAll(w.active, scope, ts, block, tip), w.endpoints)
            == EventKeys(scope, MatchAll(w.active, scope, ts, block, 0), w.endpoints)
  {
    if ts == [] {
    } else {
      var a, rest := Matches(w.active, scope, ts[0], block, tip), MatchAll(w.active, scope, ts[1..], block, tip);
      var a0, rest0 := Matches(w.active, scope, ts[0], block, 0), MatchAll(w.active, scope, ts[1..], block, 0);
      assert PlainTransfers([ts[0]]) && PlainTransfers(ts[1..]);
      MatchAllShape(w, scope, ts[1..], block, tip);
      MatchesShape(w, scope, ts[0], block, tip);
      OneKindAppend(scope, a, rest);
      EventKeysAppend(scope, a, rest, w.endpoints);
      EventKeysAppend(scope, a0, rest0, w.endpoints);
    }
  }

  ghost function BatchKeys(w: World, scope: string, blocks: seq<int>): set<string> {
    if blocks == [] then {} else BlockKeys(w, scope, blocks[0]) + BatchKeys(w, scope, blocks[1..])
  }

  lemma {:induction false} BatchKeysMembers(w: World, scope: string, blocks: seq<int>, k: string)
    ensures k in BatchKeys(w, scope, blocks) <==> exists j :: 0 <= j < |blocks| && k in BlockKeys(w, scope, blocks[j])
  {
    if blocks == [] {
    } else {
      var tail := blocks[1..];
      BatchKeysMembers(w, scope, tail, k);
      if j :| 0 <= j < |tail| && k in BlockKeys(w, scope, tail[j]) {
        assert k in BlockKeys(w, scope, blocks[j + 1]);
      }
      if j :| 0 <= j < |blocks| && k in BlockKeys(w, scope, blocks[j]) && j > 0 {
        assert k in BlockKeys(w, scope, tail[j - 1]);
      }
    }
  }

  lemma {:induction false} BatchShape(w: World, scope: string, blocks: seq<int>, tip: int)
    requires PlainWorld(w)
    ensures OneKind(scope, BatchEvents(w, scope, blocks, tip))
    ensures EventKeys(scope, BatchEvents(w, scope, blocks, tip), w.endpoints) == BatchKeys(w, scope, blocks)
  {
    if blocks == [] {
    } else {
      BatchShape(w, scope, blocks[1..], tip);
      if (scope, blocks[0]) in w.chain {
        MatchAllShape(w, scope, w.chain[(scope, blocks[0])], blocks[0], tip);
      }
      var a, rest := BlockEvents(w, scope, blocks[0], tip), BatchEvents(w, scope, blocks[1..], tip);
      OneKindAppend(scope, a, rest);
      EventKeysAppend(scope, a, rest, w.endpoints);
    }
  }

  /** What one batch adds is what its blocks call for, repeats dropped or not. */
  lemma OpAddsBatchKeys(w: World, rows: Rows, op: Op)
    requires PlainWorld(w) && Current(rows) && Plain(op.scope)
    ensures Current(Publish(rows, op.scope, Published(w, op), w.endpoints))
    ensures Adds(rows, Publish(rows, op.scope, Published(w, op), w.endpoints), BatchKeys(w, op.scope, op.blocks))
  {
    var evs := BatchEvents(w, op.scope, op.blocks, op.tip);
    BatchShape(w, op.scope, op.blocks, op.tip);
    assert Accounted(op.scope, {}, {}, w.endpoints);
    DistinctKeepsKeys(op.scope, evs, {}, {}, w.endpoints);
    PublishAddsKeys(rows, op.scope, Published(w, op), w.endpoints);
  }

  /** The blocks a run covered, per scope. */
  ghost function Visited(ops: seq<Op>): set<(string, int)> {
    set i, j | 0 <= i < |ops| && 0 <= j < |ops[i].blocks| :: (ops[i].scope, ops[i].blocks[j])
  }

  /** The keys that a set of blocks calls for. */
  ghost function Expected(w: World, visited: set<(string, int)>): set<string> {
    set v, k | v in visited && k in BlockKeys(w, v.0, v.1) :: k
  }

  /** The key is that of a watched role of a transfer in one of the blocks, for an active endpoint that
      lists the type of its event or lists none. */
  ghost predicate CalledFor(w: World, visited: set<(string, int)>, k: string) {
    exists scope, block, i, d, j ::
      && (scope, block) in visited && (scope, block) in w.chain && 0 <= i < |w.chain[(scope, block)]| && 0 <= j < |w.endpoints|
      && CallsFor(w, scope, w.chain[(scope, block)][i], d, w.endpoints[j])
      && k == DedupeKey(scope, EventOf(scope, w.chain[(scope, block)][i], d, block, 0), w.endpoints[j].id)
  }

  ghost predicate CallsFor(w: World, scope: string, t: Transfer, d: Direction, ep: Endpoint) {
    && Party(t, d) != "" && Party(t, d) in w.active && ep.active
    && (ep.types == [] || exists n :: 0 <= n < |ep.types| && TrimSpace(ep.types[n]) == EventType(if scope == TRX then Trx else Trc20, d))
  }

  lemma OneEventKeys(w: World, scope: string, t: Transfer, d: Direction, block: int, k: string)
    requires Party(t, d) != "" && Party(t, d) in w.active
    ensures k in KeysOf(scope, EventOf(scope, t, d, block, 0), w.endpoints) <==>
            exists j :: 0 <= j < |w.endpoints| && CallsFor(w, scope, t, d, w.endpoints[j]) && k == DedupeKey(scope, EventOf(scope, t, d, block, 0), w.endpoints[j].id)
  {
    var e := EventOf(scope, t, d, block, 0);
    KeysOfMembers(scope, e, w.endpoints, k);
    forall j | 0 <= j < |w.endpoints|
      ensures Wants(w.endpoints[j], e) <==> CallsFor(w, scope, t, d, w.endpoints[j])
    {
      WantsIff(w.endpoints[j], e);
    }
  }

  lemma BlockKeysIff(w: World, scope: string, block: int, k: string)
    ensures k in BlockKeys(w, scope, block) <==>
            && (scope, block) in w.chain
            && exists i, d, j ::
                 && 0 <= i < |w.chain[(scope, block)]| && 0 <= j < |w.endpoints|
                 && CallsFor(w, scope, w.chain[(scope, block)][i], d, w.endpoints[j])
                 && k == DedupeKey(scope, EventOf(scope, w.chain[(scope, block)][i], d, block, 0), w.endpoints[j].id)
  {
    var evs := BlockEvents(w, scope, block, 0);
    EventKeysMembers(scope, evs, w.endpoints, k);
    if (scope, block) in w.chain {
      var ts := w.chain[(scope, block)];
      if k in BlockKeys(w, scope, block) {
        var e :| e in evs && k in KeysOf(scope, e, w.endpoints);
        MatchAllIff(w.active, scope, ts, block, 0, e);
        var i, d :| 0 <= i < |ts| && e == EventOf(scope, ts[i], d, block, 0) && Party(ts[i], d) != "" && Party(ts[i], d) in w.active;
        OneEventKeys(w, scope, ts[i], d, block, k);
      }
      if i, d, j :| && 0 <= i < |ts| && 0 <= j < |w.endpoints| && CallsFor(w, scope, ts[i], d, w.endpoints[j])
                    && k == DedupeKey(scope, EventOf(scope, ts[i], d, block, 0), w.endpoints[j].id) {
        var e := EventOf(scope, ts[i], d, block, 0);
        OneEventKeys(w, scope, ts[i], d, block, k);
        MatchAllIff(w.active, scope, ts, block, 0, e);
        assert e in evs;
      }
    }
  }

  /** What a set of blocks calls for, in terms of the chain, the watchlist and the endpoints alone. */
  lemma ExpectedIff(w: World, visited: set<(string, int)>, k: string)
    ensures k in Expected(w, visited) <==> CalledFor(w, visited, k)
  {
    if k in Expected(w, visited) {
      var v :| v in visited && k in BlockKeys(w, v.0, v.1);
      assert v == (v.0, v.1);
      BlockKeysIff(w, v.0, v.1, k);
    }
    if scope, block, i, d, j :|
      && (scope, block) in visited && (scope, block) in w.chain && 0 <= i < |w.chain[(scope, block)]| && 0 <= j < |w.endpoints|
      && CallsFor(w, scope, w.chain[(scope, block)][i], d, w.endpoints[j])
      && k == DedupeKey(scope, EventOf(scope, w.chain[(scope, block)][i], d, block, 0), w.endpoints[j].id) {
      BlockKeysIff(w, scope, block, k);
      var v := (scope, block);
      assert v in visited && k in BlockKeys(w, v.0, v.1);
    }
  }

  lemma ExpectedStep(w: World, ops: seq<Op>)
    requires ops != []
    ensures Expected(w, Visited(ops)) == BatchKeys(w, ops[0].scope, ops[0].blocks) + Expected(w, Visited(ops[1..]))
  {
    var tail := ops[1..];
    assert forall i :: 0 <= i < |tail| ==> tail[i] == ops[i + 1];
    forall k | k in BatchKeys(w, ops[0].scope, ops[0].blocks)
      ensures k in Expected(w, Visited(ops))
    {
      BatchKeysMembers(w, ops[0].scope, ops[0].blocks, k);
      var j :| 0 <= j < |ops[0].blocks| && k in BlockKeys(w, ops[0].scope, ops[0].blocks[j]);
      assert (ops[0].scope, ops[0].blocks[j]) in Visited(ops);
    }
    forall v | v in Visited(tail)
      ensures v in Visited(ops)
    {
      var i, j :| 0 <= i < |tail| && 0 <= j < |tail[i].blocks| && v == (tail[i].scope, tail[i].blocks[j]);
      assert v == (ops[i + 1].scope, ops[i + 1].blocks[j]);
    }
    forall k | k in Expected(w, Visited(ops))
      ensures k in BatchKeys(w, ops[0].scope, ops[0].blocks) + Expected(w, Visited(tail))
    {
      var v :| v in Visited(ops) && k in BlockKeys(w, v.0, v.1);
      var i, j :| 0 <= i < |ops| && 0 <= j < |ops[i].blocks| && v == (ops[i].scope, ops[i].blocks[j]);
      if i == 0 {
        BatchKeysMembers(w, ops[0].scope, ops[0].blocks, k);
      } else {
        assert v == (tail[i - 1].scope, tail[i - 1].blocks[j]);
        assert v in Visited(tail);
      }
    }
  }

  /** After any sequence of scans, rescans and replays the outbox holds its old rows untouched
      and exactly the keys that the visited blocks call for. */
  lemma {:induction false} RunReachesExpected(w: World, rows: Rows, ops: seq<Op>)
    requires PlainWorld(w) && Current(rows) && forall i :: 0 <= i < |ops| ==> Plain(ops[i].scope)
    ensures Current(Run(w, rows, ops))
    ensures Adds(rows, Run(w, rows, ops), Expected(w, Visited(ops)))
    decreases |ops|
  {
    if ops == [] {
    } else {
      var next := Publish(rows, ops[0].scope, Published(w, ops[0]), w.endpoints);
      OpAddsBatchKeys(w, rows, ops[0]);
      RunReachesExpected(w, next, ops[1..]);
      AddsTwice(rows, next, Run(w, next, ops[1..]), BatchKeys(w, ops[0].scope, ops[0].blocks), Expected(w, Visited(ops[1..])));
      ExpectedStep(w, ops);
    }
  }

  /** In those words: no run adds a row but for a watched role of a transfer in a visited block and an active
      endpoint that takes events of this type, and each of these has its row. */
  lemma RunAddsIff(w: World, rows: Rows, ops: seq<Op>, k: string)
    requires PlainWorld(w) && Current(rows) && forall i :: 0 <= i < |ops| ==> Plain(ops[i].scope)
    ensures k in Run(w, rows, ops) <==> k in rows || CalledFor(w, Visited(ops), k)
  {
    RunReachesExpected(w, rows, ops);
    ExpectedIff(w, Visited(ops), k);
  }

  /** Convergence: two runs that cover the same blocks, in whatever order, batching and
      repetition, end with the same keys. */
  lemma Converges(w: World, rows: Rows, ops1: seq<Op>, ops2: seq<Op>)
    requires PlainWorld(w) && Current(rows)
    requires forall i :: 0 <= i < |ops1| ==> Plain(ops1[i].scope)
    requires forall i :: 0 <= i < |ops2| ==> Plain(ops2[i].scope)
    requires Visited(ops1) == Visited(ops2)
    ensures Run(w, rows, ops1).Keys == Run(w, rows, ops2).Keys == rows.Keys + Expected(w, Visited(ops1))
  {
    RunReachesExpected(w, rows, ops1);
    RunReachesExpected(w, rows, ops2);
  }

  /** Covering blocks again changes nothing at all. */
  lemma RescanIsIdempotent(w: World, rows: Rows, ops: seq<Op>, again: seq<Op>)
    requires PlainWorld(w) && Current(rows)
    requires forall i :: 0 <= i < |ops| ==> Plain(ops[i].scope)
    requires forall i :: 0 <= i < |again| ==> Plain(again[i].scope)
    requires Visited(again) <= Visited(ops)
    ensures Run(w, Run(w, rows, ops), again) == Run(w, rows, ops)
  {
    RunReachesExpected(w, rows, ops);
    var once := Run(w, rows, ops);
    RunReachesExpected(w, once, again);
    assert Expected(w, Visited(again)) <= Expected(w, Visited(ops));
    AddsNothingNew(once, Run(w, once, again), Expected(w, Visited(again)));
  }
}
