/** The delivery life cycle of an outbox row: claimed by a worker, delivered, retried on schedule, or
    dead; reclaimed when its worker goes silent; revived by an administrator. */
module Delivery {
  import opened Base
  import opened RetrySchedule

  const STALE := 300 * SECOND

  datatype Status = Pending | Delivering | Delivered | Failed | Dead

  datatype Event = Event(status: Status, attempts: nat, nextAt: int, createdAt: int, updatedAt: int)

  /** The attempts a worker grants: the configured number, or ten when that is out of range. */
  function AttemptCap(configured: int): (cap: nat)
    ensures 1 <= cap <= SPEC_ATTEMPTS
    ensures 1 <= configured <= SPEC_ATTEMPTS ==> cap == configured
  {
    if configured <= 0 || configured > SPEC_ATTEMPTS then SPEC_ATTEMPTS else configured
  }

  predicate Stale(e: Event, now: int) {
    e.status.Delivering? && e.updatedAt < now - STALE
  }

  predicate Claimable(e: Event, now: int) {
    ((e.status.Pending? || e.status.Failed?) && e.nextAt <= now) || Stale(e, now)
  }

  function ClaimedRow(e: Event, now: int): Event {
    e.(status := Delivering, updatedAt := now, attempts := if Stale(e, now) then e.attempts + 1 else e.attempts)
  }

  function DeliveredRow(e: Event, now: int): Event {
    e.(status := Delivered, updatedAt := now)
  }

  function FailedRow(e: Event, attempt: nat, next: int, cap: nat, now: int): Event {
    var dead := attempt >= cap;
    e.(status := if dead then Dead else Failed, attempts := attempt, nextAt := if dead then e.nextAt else next, updatedAt := now)
  }

  predicate Retryable(e: Event) {
    e.status.Failed? || e.status.Dead?
  }

  function RetriedRow(e: Event, now: int): Event {
    e.(status := Pending, nextAt := now, updatedAt := now)
  }

  // ----- The worker

  datatype UrlCheck = UrlOk | UrlUnresolved | UrlRefused

  /** How a request ends: no response at all, a response whose body could not be read, or a
      response. The headers of a broken response still count. */
  datatype Post = NoResponse | BrokenBody(retryAfter: Option<int>) | Response(code: int, retryAfter: Option<int>)

  function RetryAfter(p: Post): Option<int> {
    if p.NoResponse? then None else p.retryAfter
  }

  /** Everything one delivery depends on outside its row. `lookup` fails when the endpoint
      could not be loaded. */
  datatype Delivery = Delivery(lookup: bool, endpointActive: bool, url: UrlCheck, payloadFits: bool, headersBuilt: bool,
                               post: Post, draw: nat, marked: bool)

  /** What comes back; nothing is sent to a host that does not resolve. */
  function Sent(d: Delivery): Post {
    if d.url.UrlUnresolved? then NoResponse else d.post
  }

  datatype Mark = NoMark | MarkDelivered | MarkFailed(attempt: nat, next: int)

  /** What the worker decides for a row that it claimed with `attempts` recorded. */
  function Decide(attempts: nat, createdAt: int, d: Delivery, cap: nat, now: int): Mark {
    if !d.lookup then NoMark
    else if !d.endpointActive || d.url.UrlRefused? || !d.payloadFits || !d.headersBuilt then MarkFailed(cap, now)
    else
      var post := Sent(d);
      match ClassifyDelivery(if post.Response? then post.code else 0, !post.Response?)
      case Success => MarkDelivered
      case Gone => MarkFailed(cap, now)
      case Fail => MarkFailed(cap, now)
      case Retry => MarkFailed(attempts + 1, NextAttemptTime(createdAt, attempts + 1, d.draw, RetryAfter(post)))
  }

  function Marked(e: Event, m: Mark, cap: nat, now: int): Event {
    match m
    case NoMark => e
    case MarkDelivered => DeliveredRow(e, now)
    case MarkFailed(attempt, next) => FailedRow(e, attempt, next, cap, now)
  }

  type EventId = string

  class EventTable {
    var rows: map<EventId, Event>

    constructor (rows: map<EventId, Event>)
      ensures this.rows == rows
    {
      this.rows := rows;
    }

    /** Claims the given candidates that may be claimed; order and limit only choose candidates. */
    method ClaimPendingWebhookEvents(candidates: seq<EventId>, now: int) returns (claimed: seq<EventId>)
      requires forall i, k :: 0 <= i < k < |candidates| ==> candidates[i] != candidates[k]
      modifies this
      ensures forall i, k :: 0 <= i < k < |claimed| ==> claimed[i] != claimed[k]
      ensures forall id :: id in claimed <==>
                id in candidates && id in old(rows)
                && (var e := old(rows)[id];
                    || ((e.status.Pending? || e.status.Failed?) && e.nextAt <= now)
                    || (e.status.Delivering? && e.updatedAt + 300 * SECOND < now))
      ensures rows.Keys == old(rows).Keys
      ensures forall id :: id in rows ==> rows[id] == if id in claimed then ClaimedRow(old(rows)[id], now) else old(rows)[id]
    {
      claimed := [];
      for i := 0 to |candidates|
        invariant rows.Keys == old(rows).Keys
        invariant forall i, k :: 0 <= i < k < |claimed| ==> claimed[i] != claimed[k]
        invariant forall id :: id in claimed <==> id in candidates[..i] && id in old(rows) && Claimable(old(rows)[id], now)
        invariant forall id :: id in rows ==> rows[id] == if id in claimed then ClaimedRow(old(rows)[id], now) else old(rows)[id]
      {
        var id := candidates[i];
        assert id !in candidates[..i];
        assert candidates[..i + 1] == candidates[..i] + [id];
        if id in rows && Claimable(rows[id], now) {
          rows := rows[id := ClaimedRow(rows[id], now)];
          claimed := claimed + [id];
        }
      }
      assert candidates[..|candidates|] == candidates;
    }

    method MarkWebhookEventDelivered(id: EventId, now: int)
      modifies this
      ensures rows == if id in old(rows) then old(rows)[id := DeliveredRow(old(rows)[id], now)] else old(rows)
    {
      if id in rows {
        rows := rows[id := rows[id].(status := Delivered, updatedAt := now)];
      }
    }

    method MarkWebhookEventFailed(id: EventId, attempt: nat, next: int, cap: nat, now: int)
      modifies this
      ensures rows == if id in old(rows) then old(rows)[id := FailedRow(old(rows)[id], attempt, next, cap, now)] else old(rows)
    {
      var status := Failed;
      if attempt >= cap {
        status := Dead;
      }
      if id in rows {
        var e := rows[id];
        rows := rows[id := e.(status := status, attempts := attempt, nextAt := if status.Dead? then e.nextAt else next, updatedAt := now)];
      }
    }

    method RetryWebhookEvent(id: EventId, now: int) returns (found: bool)
      modifies this
      ensures found <==> id in old(rows) && Retryable(old(rows)[id])
      ensures rows == if found then old(rows)[id := RetriedRow(old(rows)[id], now)] else old(rows)
    {
      found := id in rows && (rows[id].status.Failed? || rows[id].status.Dead?);
      if found {
        rows := rows[id := rows[id].(status := Pending, nextAt := now, updatedAt := now)];
      }
    }

    method RetryAllFailedDeadWebhookEvents(now: int)
      modifies this
      ensures rows.Keys == old(rows).Keys
      ensures forall id :: id in rows ==> rows[id] == if Retryable(old(rows)[id]) then RetriedRow(old(rows)[id], now) else old(rows)[id]
    {
      rows := map id | id in rows :: if Retryable(rows[id]) then RetriedRow(rows[id], now) else rows[id];
    }

    /** Delivers one claimed event: at most one mark, decided by the first obstacle met. */
    method DeliverOne(id: EventId, claimed: Event, d: Delivery, cap: nat, now: int)
      requires cap >= 1
      modifies this
      ensures rows == if id in old(rows) && d.marked
                      then old(rows)[id := Marked(old(rows)[id], Decide(claimed.attempts, claimed.createdAt, d, cap, now), cap, now)]
                      else old(rows)
    {
      if !d.lookup || !d.marked {
        assert id in rows ==> rows[id := rows[id]] == rows;
        return;
      }
      var attempt := claimed.attempts + 1;
      if !d.endpointActive {
        MarkWebhookEventFailed(id, cap, now, cap, now);
        return;
      }
      if d.url.UrlRefused? || !d.payloadFits || !d.headersBuilt {
        MarkWebhookEventFailed(id, cap, now, cap, now);
        return;
      }
      var post := Sent(d);
      var outcome := ClassifyDelivery(if post.Response? then post.code else 0, !post.Response?);
      if outcome.Success? {
        MarkWebhookEventDelivered(id, now);
        return;
      }
      if outcome.Gone? || outcome.Fail? {
        MarkWebhookEventFailed(id, cap, now, cap, now);
        return;
      }
      var next := NextAttemptTime(claimed.createdAt, attempt, d.draw, RetryAfter(post));
      MarkWebhookEventFailed(id, attempt, next, cap, now);
    }
  }

  /** One tick of a worker: claims a batch and delivers it event by event. Every claimed row
      whose endpoint could be loaded and whose mark went through leaves the `delivering` state. */
  method DispatchBatch(table: EventTable, candidates: seq<EventId>, deliveries: map<EventId, Delivery>, cap: nat, now: int)
    requires cap >= 1
    requires forall i, k :: 0 <= i < k < |candidates| ==> candidates[i] != candidates[k]
    requires forall id :: id in candidates ==> id in deliveries
    modifies table
    ensures table.rows.Keys == old(table.rows).Keys
    ensures forall id :: id in table.rows ==>
              var e := old(table.rows)[id];
              table.rows[id] ==
                if id !in candidates || !Claimable(e, now) then e
                else if !deliveries[id].marked then ClaimedRow(e, now)
                else Marked(ClaimedRow(e, now), Decide(ClaimedRow(e, now).attempts, e.createdAt, deliveries[id], cap, now), cap, now)
  {
    var claimed := table.ClaimPendingWebhookEvents(candidates, now);
    ghost var after := table.rows;
    for i := 0 to |claimed|
      invariant table.rows.Keys == after.Keys
      invariant forall id :: id in after && id !in claimed[..i] ==> table.rows[id] == after[id]
      invariant forall id :: id in after && id in claimed[..i] ==>
                  table.rows[id] == if !deliveries[id].marked then after[id]
                                    else Marked(after[id], Decide(after[id].attempts, after[id].createdAt, deliveries[id], cap, now), cap, now)
    {
      var id := claimed[i];
      assert id in claimed;
      assert id !in claimed[..i];
      assert claimed[..i + 1] == claimed[..i] + [id];
      table.DeliverOne(id, table.rows[id], deliveries[id], cap, now);
    }
    assert claimed[..|claimed|] == claimed;
  }

  // ----- The life of one event under any number of workers

  /** `claims` are the deliveries under way, each with the attempt count it was claimed with; a
      worker that crashes leaves its claim there for good. `current` is the claim the row was last handed out
      under. `completed` counts the attempts that ended in a timely mark, `revived` how often an
      administrator retried a dead event, and `late` records that a claim was marked after the row
      had been handed to somebody else or finished. */
  datatype Life = Life(now: int, ev: Event, claims: map<nat, nat>, used: set<nat>, current: Option<nat>,
                       completed: nat, revived: nat, late: bool)

  datatype Step =
    | Claim(c: nat)
    | Finish(c: nat, d: Delivery)
    | AdminRetry
    | Wait(span: nat)

  function Apply(l: Life, s: Step, cap: nat): Life {
    match s
    case Claim(c) =>
      if c in l.used || !Claimable(l.ev, l.now) then l
      else
        var ev := ClaimedRow(l.ev, l.now);
        l.(ev := ev, claims := l.claims[c := ev.attempts], used := l.used + {c}, current := Some(c))
    case Finish(c, d) =>
      if c !in l.claims || !d.marked || !d.lookup then l
      else
        var timely := l.current == Some(c);
        l.(ev := Marked(l.ev, Decide(l.claims[c], l.ev.createdAt, d, cap, l.now), cap, l.now),
           claims := l.claims - {c},
           current := if timely then None else l.current,
           completed := if timely then l.completed + 1 else l.completed,
           late := l.late || !timely)
    case AdminRetry =>
      if !Retryable(l.ev) then l
      else l.(ev := RetriedRow(l.ev, l.now), revived := if l.ev.status.Dead? then l.revived + 1 else l.revived)
    case Wait(d) => l.(now := l.now + d)
  }

  function Run(l: Life, steps: seq<Step>, cap: nat): Life
    decreases |steps|
  {
    if steps == [] then l else Run(Apply(l, steps[0], cap), steps[1..], cap)
  }

  function Born(now: int): Life {
    Life(now, Event(Pending, 0, now, now, now), map[], {}, None, 0, 0, false)
  }

  predicate Terminal(e: Event) {
    e.status.Delivered? || e.status.Dead?
  }

  predicate Bounds(e: Event, cap: nat) {
    && (e.status.Failed? ==> e.attempts < cap)
    && (e.status.Dead? ==> e.attempts >= cap)
  }

  /** What holds while no mark was late: a row is being delivered exactly under its current
      claim, and the attempts completed so far are within what was granted. */
  ghost predicate Orderly(l: Life, cap: nat) {
    && l.claims.Keys <= l.used
    && (l.ev.status.Delivering? <==> l.current.Some?)
    && (l.current.Some? ==> l.current.value in l.used && (l.current.value in l.claims ==> l.claims[l.current.value] == l.ev.attempts))
    && (Terminal(l.ev) ==> l.completed <= cap + l.revived)
    && (!Terminal(l.ev) ==> l.completed < cap + l.revived)
    && (!Terminal(l.ev) && l.ev.attempts < cap ==> l.completed <= l.ev.attempts && l.revived == 0)
    && (l.revived > 0 && !l.ev.status.Delivered? ==> l.ev.attempts >= cap)
  }

  ghost predicate Inv(l: Life, cap: nat) {
    Bounds(l.ev, cap) && (!l.late ==> Orderly(l, cap))
  }

  lemma StepKeepsInv(l: Life, s: Step, cap: nat)
    requires cap >= 1 && Inv(l, cap)
    ensures Inv(Apply(l, s, cap), cap)
  {
  }

  lemma {:induction false} RunKeepsInv(l: Life, steps: seq<Step>, cap: nat)
    requires cap >= 1 && Inv(l, cap)
    ensures Inv(Run(l, steps, cap), cap)
    decreases |steps|
  {
    if steps == [] {
    } else {
      StepKeepsInv(l, steps[0], cap);
      RunKeepsInv(Apply(l, steps[0], cap), steps[1..], cap);
    }
  }

  /** In every run, late marks included: a failed event has attempts left, a dead one has none. */
  lemma FailedAndDeadBounds(now: int, steps: seq<Step>, cap: nat)
    requires cap >= 1
    ensures Bounds(Run(Born(now), steps, cap).ev, cap)
  {
    RunKeepsInv(Born(now), steps, cap);
  }

  /** An event completes at most `cap` attempts, plus one for each time it was revived. */
  lemma AttemptsBounded(now: int, steps: seq<Step>, cap: nat)
    requires cap >= 1 && !Run(Born(now), steps, cap).late
    ensures var l := Run(Born(now), steps, cap); l.completed <= cap + l.revived
    ensures var l := Run(Born(now), steps, cap); !Terminal(l.ev) ==> l.completed < cap + l.revived
  {
    RunKeepsInv(Born(now), steps, cap);
  }

  /** A waiting retry is due inside the window of its attempt; `plain` says that no answer
      carried a Retry-After. */
  ghost predicate OnSchedule(e: Event, createdAt: int, plain: bool) {
    e.createdAt == createdAt
    && (e.status.Failed? ==>
          && e.attempts >= 1
          && WindowStart(createdAt, e.attempts) <= e.nextAt
          && (plain ==> e.nextAt <= WindowEnd(createdAt, e.attempts)))
  }

  predicate Plain(steps: seq<Step>) {
    forall i :: 0 <= i < |steps| && steps[i].Finish? ==> RetryAfter(steps[i].d.post).None?
  }

  lemma StepOnSchedule(l: Life, s: Step, cap: nat, createdAt: int, plain: bool)
    requires cap >= 1 && OnSchedule(l.ev, createdAt, plain) && (plain && s.Finish? ==> RetryAfter(s.d.post).None?)
    ensures OnSchedule(Apply(l, s, cap).ev, createdAt, plain)
  {
    if s.Finish? && s.c in l.claims {
      DueInWindow(createdAt, l.claims[s.c] + 1, s.d.draw, RetryAfter(Sent(s.d)));
    }
  }

  lemma {:induction false} RetriesOnSchedule(l: Life, steps: seq<Step>, cap: nat, createdAt: int, plain: bool)
    requires cap >= 1 && OnSchedule(l.ev, createdAt, plain) && (plain ==> Plain(steps))
    ensures OnSchedule(Run(l, steps, cap).ev, createdAt, plain)
    decreases |steps|
  {
    if steps == [] {
    } else {
      StepOnSchedule(l, steps[0], cap, createdAt, plain);
      RetriesOnSchedule(Apply(l, steps[0], cap), steps[1..], cap, createdAt, plain);
    }
  }

  /** In every run, late marks and administrators included, a failed event with `k` attempts is
      due within the window of the schedule for attempt `k + 1`, or later when a Retry-After asked for it. */
  lemma FailedIsScheduled(now: int, steps: seq<Step>, cap: nat)
    requires cap >= 1
    ensures OnSchedule(Run(Born(now), steps, cap).ev, now, false)
    ensures Plain(steps) ==> OnSchedule(Run(Born(now), steps, cap).ev, now, true)
  {
    RetriesOnSchedule(Born(now), steps, cap, now, false);
    if Plain(steps) {
      RetriesOnSchedule(Born(now), steps, cap, now, true);
    }
  }

  /** In every run: an unused claim gets the event if and only if the event waits and is due, or the worker that has
      it has been silent for more than five minutes. A failed event is due no earlier than its window begins, so
      it is never claimed before; a claim given to a silent worker costs it an attempt. */
  lemma ClaimedWhenDue(now: int, steps: seq<Step>, cap: nat, c: nat)
    requires cap >= 1 && c !in Run(Born(now), steps, cap).used
    ensures var l := Run(Born(now), steps, cap);
            var next := Apply(l, Claim(c), cap);
            && (c in next.claims <==>
                  || ((l.ev.status.Pending? || l.ev.status.Failed?) && l.ev.nextAt <= l.now)
                  || (l.ev.status.Delivering? && l.ev.updatedAt + 300 * SECOND < l.now))
            && (c !in next.claims ==> next == l)
            && (c in next.claims ==>
                  && next.current == Some(c) && next.claims[c] == next.ev.attempts
                  && next.ev == l.ev.(status := Delivering, updatedAt := l.now,
                                      attempts := if l.ev.status.Delivering? then l.ev.attempts + 1 else l.ev.attempts))
            && (c in next.claims && l.ev.status.Failed? ==> WindowStart(now, l.ev.attempts) <= l.now)
  {
    FailedIsScheduled(now, steps, cap);
    ClaimsUsed(Born(now), steps, cap);
  }

  lemma {:induction false} ClaimsUsed(l: Life, steps: seq<Step>, cap: nat)
    requires l.claims.Keys <= l.used
    ensures Run(l, steps, cap).claims.Keys <= Run(l, steps, cap).used
    decreases |steps|
  {
    if steps == [] {
    } else {
      ClaimsUsed(Apply(l, steps[0], cap), steps[1..], cap);
    }
  }

  lemma {:induction false} ClockNeverRewinds(l: Life, steps: seq<Step>, cap: nat)
    ensures l.now <= Run(l, steps, cap).now
    decreases |steps|
  {
    if steps == [] {
    } else {
      ClockNeverRewinds(Apply(l, steps[0], cap), steps[1..], cap);
    }
  }

  lemma {:induction false} LateIsForever(l: Life, steps: seq<Step>, cap: nat)
    ensures l.late ==> Run(l, steps, cap).late
    decreases |steps|
  {
    if steps == [] {
    } else {
      LateIsForever(Apply(l, steps[0], cap), steps[1..], cap);
    }
  }

  /** A delivered event stays as it is in every run without late marks. */
  lemma {:induction false} DeliveredForever(l: Life, steps: seq<Step>, cap: nat)
    requires cap >= 1 && Inv(l, cap) && l.ev.status.Delivered? && !Run(l, steps, cap).late
    ensures Run(l, steps, cap).ev == l.ev
    decreases |steps|
  {
    LateIsForever(l, steps, cap);
    if steps != [] {
      LateIsForever(Apply(l, steps[0], cap), steps[1..], cap);
      StepKeepsInv(l, steps[0], cap);
      DeliveredForever(Apply(l, steps[0], cap), steps[1..], cap);
    }
  }

  predicate NoAdmin(steps: seq<Step>) {
    forall i :: 0 <= i < |steps| ==> !steps[i].AdminRetry?
  }

  /** Only an administrator takes an event out of `dead`. */
  lemma {:induction false} DeadUntilRetried(l: Life, steps: seq<Step>, cap: nat)
    requires cap >= 1 && Inv(l, cap) && l.ev.status.Dead? && NoAdmin(steps) && !Run(l, steps, cap).late
    ensures Run(l, steps, cap).ev == l.ev
    decreases |steps|
  {
    LateIsForever(l, steps, cap);
    if steps != [] {
      LateIsForever(Apply(l, steps[0], cap), steps[1..], cap);
      StepKeepsInv(l, steps[0], cap);
      DeadUntilRetried(Apply(l, steps[0], cap), steps[1..], cap);
    }
  }

  /** A retried event is due at once: the next claim gets it. */
  lemma RetriedIsDue(l: Life, cap: nat, c: nat)
    requires (l.ev.status.Failed? || l.ev.status.Dead?) && c !in l.used
    ensures var next := Apply(Apply(l, AdminRetry, cap), Claim(c), cap);
            && next.ev.status.Delivering? && next.ev.attempts == l.ev.attempts && next.ev.updatedAt == l.now
            && next.current == Some(c) && c in next.claims
  {
  }

  /** Every change of the row is stamped with its time, which is what a silent worker is told by; an event that dies
      keeps the due time it had, and nothing changes when the event was created. */
  lemma ChangesAreStamped(l: Life, s: Step, cap: nat)
    ensures var ev := Apply(l, s, cap).ev;
            && ev.createdAt == l.ev.createdAt
            && (ev.status != l.ev.status || ev.attempts != l.ev.attempts ==> ev.updatedAt == l.now)
            && (ev.status.Dead? || ev.status.Delivered? || ev.status.Delivering? ==> ev.nextAt == l.ev.nextAt)
            && (ev.nextAt != l.ev.nextAt ==> ev.updatedAt == l.now)
  {
  }

  /** A failed event rests until it is due, whatever its workers and others do: without an administrator and late
      marks nothing changes it before. */
  lemma {:induction false} RestsUntilDue(l: Life, steps: seq<Step>, cap: nat)
    requires cap >= 1 && Inv(l, cap) && l.ev.status.Failed? && NoAdmin(steps) && !Run(l, steps, cap).late
    requires Run(l, steps, cap).now < l.ev.nextAt
    ensures Run(l, steps, cap).ev == l.ev
    decreases |steps|
  {
    if steps == [] {
    } else {
      LateIsForever(l, steps, cap);
      LateIsForever(Apply(l, steps[0], cap), steps[1..], cap);
      ClockNeverRewinds(l, steps, cap);
      StepKeepsInv(l, steps[0], cap);
      RestsUntilDue(Apply(l, steps[0], cap), steps[1..], cap);
    }
  }

  /** What one delivery leads to, by what came back. */
  lemma DecisionIff(attempts: nat, createdAt: int, d: Delivery, cap: nat, now: int)
    ensures var m := Decide(attempts, createdAt, d, cap, now);
            var reached := d.endpointActive && !d.url.UrlRefused? && d.payloadFits && d.headersBuilt;
            var silent := d.url.UrlUnresolved? || !d.post.Response?;
            && (m == NoMark <==> !d.lookup)
            && (m == MarkDelivered <==> d.lookup && reached && !silent && 200 <= d.post.code < 300)
            && (d.lookup && reached && (silent || d.post.code == 429 || d.post.code >= 500) ==>
                  m == MarkFailed(attempts + 1, NextAttemptTime(createdAt, attempts + 1, d.draw, if d.url.UrlUnresolved? then None else RetryAfter(d.post))))
            && (d.lookup && !(reached && (silent || d.post.code == 429 || d.post.code >= 500 || 200 <= d.post.code < 300)) ==> m == MarkFailed(cap, now))
  {
    RetryIff(if Sent(d).Response? then Sent(d).code else 0, !Sent(d).Response?);
  }

  /** A permanent refusal ends the event at once, however many attempts are left; a temporary one schedules the
      next attempt, not before the Retry-After it carries, until the attempts are used up. */
  lemma RefusalEndsOrRetries(l: Life, c: nat, d: Delivery, cap: nat)
    requires cap >= 1 && c in l.claims && d.marked && d.lookup && d.endpointActive && d.url.UrlOk? && d.payloadFits && d.headersBuilt && d.post.Response?
    requires !(200 <= d.post.code < 300)
    ensures var next := Apply(l, Finish(c, d), cap).ev;
            var temporary := d.post.code == 429 || d.post.code >= 500;
            && (next.status.Dead? <==> !temporary || l.claims[c] + 1 >= cap)
            && (next.status.Failed? <==> temporary && l.claims[c] + 1 < cap)
            && (next.status.Failed? ==> next.attempts == l.claims[c] + 1 && WindowStart(l.ev.createdAt, next.attempts) <= next.nextAt
                                        && (d.post.retryAfter.Some? ==> d.post.retryAfter.value <= next.nextAt))
  {
    DecisionIff(l.claims[c], l.ev.createdAt, d, cap, l.now);
    DueInWindow(l.ev.createdAt, l.claims[c] + 1, d.draw, d.post.retryAfter);
  }

  /** An event without attempts left gets exactly one more completed attempt: it ends in that
      attempt, delivered or dead again, and until then none is completed. */
  lemma {:induction false} LastChance(l: Life, steps: seq<Step>, cap: nat)
    requires cap >= 1 && Inv(l, cap) && !Terminal(l.ev) && l.ev.attempts >= cap && NoAdmin(steps) && !Run(l, steps, cap).late
    ensures var end := Run(l, steps, cap);
            && end.completed == (if Terminal(end.ev) then l.completed + 1 else l.completed)
            && !end.ev.status.Failed?
    decreases |steps|
  {
    LateIsForever(l, steps, cap);
    if steps != [] {
      var next := Apply(l, steps[0], cap);
      LateIsForever(next, steps[1..], cap);
      StepKeepsInv(l, steps[0], cap);
      if Terminal(next.ev) {
        TerminalCompletesNothing(next, steps[1..], cap);
      } else {
        LastChance(next, steps[1..], cap);
      }
    }
  }

  lemma {:induction false} TerminalCompletesNothing(l: Life, steps: seq<Step>, cap: nat)
    requires cap >= 1 && Inv(l, cap) && Terminal(l.ev) && NoAdmin(steps) && !Run(l, steps, cap).late
    ensures Run(l, steps, cap).completed == l.completed && Run(l, steps, cap).ev == l.ev
    decreases |steps|
  {
    LateIsForever(l, steps, cap);
    if steps != [] {
      LateIsForever(Apply(l, steps[0], cap), steps[1..], cap);
      StepKeepsInv(l, steps[0], cap);
      TerminalCompletesNothing(Apply(l, steps[0], cap), steps[1..], cap);
    }
  }

  /** Reviving a dead event leads to exactly that situation. */
  lemma RevivedGetsOneAttempt(l: Life, steps: seq<Step>, cap: nat)
    requires cap >= 1 && Inv(l, cap) && l.ev.status.Dead? && NoAdmin(steps)
    requires !Run(Apply(l, AdminRetry, cap), steps, cap).late
    ensures var end := Run(Apply(l, AdminRetry, cap), steps, cap);
            && end.completed == (if Terminal(end.ev) then l.completed + 1 else l.completed)
            && !end.ev.status.Failed?
  {
    LateIsForever(Apply(l, AdminRetry, cap), steps, cap);
    StepKeepsInv(l, AdminRetry, cap);
    LastChance(Apply(l, AdminRetry, cap), steps, cap);
  }

  /** The endpoint got the event: nothing stood in the way and the answer was a success. */
  predicate Succeeds(d: Delivery) {
    d.endpointActive && d.url.UrlOk? && d.payloadFits && d.headersBuilt && d.post.Response? && 200 <= d.post.code < 300
  }

  /** A delivery under way whose outcome reaches the row and is not a success. */
  predicate Undoes(l: Life, s: Step) {
    s.Finish? && s.c in l.claims && s.d.lookup && s.d.marked && !Succeeds(s.d)
  }

  /** In any state, one step takes a row out of `delivered` if and only if it is the failing mark
      of a claim that is still outstanding. */
  lemma DeliveredUndoneIff(l: Life, s: Step, cap: nat)
    requires l.ev.status.Delivered?
    ensures !Apply(l, s, cap).ev.status.Delivered? <==> Undoes(l, s)
  {
    if s.Finish? && s.c in l.claims {
      RetryIff(if Sent(s.d).Response? then Sent(s.d).code else 0, !Sent(s.d).Response?);
    }
  }

  /** The outcome under which a claim is first marked, if it ever is. */
  function FirstMark(steps: seq<Step>, c: nat): Option<Delivery> {
    if steps == [] then None
    else if steps[0].Finish? && steps[0].c == c && steps[0].d.lookup && steps[0].d.marked then Some(steps[0].d)
    else FirstMark(steps[1..], c)
  }

  /** The row is delivered now and after every step. */
  predicate StaysDelivered(l: Life, steps: seq<Step>, cap: nat)
    decreases |steps|
  {
    l.ev.status.Delivered? && (steps == [] || StaysDelivered(Apply(l, steps[0], cap), steps[1..], cap))
  }

  /** Over every run, late marks and administrators included: a delivered event stays delivered
      if and only if each claim still outstanding is never marked or first marked as a success. */
  lemma {:induction false} StaysDeliveredIff(l: Life, steps: seq<Step>, cap: nat)
    requires l.ev.status.Delivered?
    ensures StaysDelivered(l, steps, cap) <==>
            forall c :: c in l.claims ==> FirstMark(steps, c).None? || Succeeds(FirstMark(steps, c).value)
    decreases |steps|
  {
    if steps == [] {
    } else {
      var s, next := steps[0], Apply(l, steps[0], cap);
      DeliveredUndoneIff(l, s, cap);
      if Undoes(l, s) {
        assert FirstMark(steps, s.c) == Some(s.d);
      } else {
        StaysDeliveredIff(next, steps[1..], cap);
        forall c | c in l.claims
          ensures FirstMark(steps, c) == if c in next.claims then FirstMark(steps[1..], c) else Some(s.d)
          ensures c !in next.claims ==> Succeeds(s.d)
        {
        }
        assert next.claims.Keys <= l.claims.Keys;
      }
    }
  }

  /** Every mark on a delivered row is late: finishing is the only action that could change it,
      and it does so exactly when a claim other than the current one is marked. */
  lemma DeliveredChangesOnlyLate(l: Life, s: Step, cap: nat)
    requires cap >= 1 && Inv(l, cap) && !l.late && l.ev.status.Delivered?
    ensures Apply(l, s, cap).late <==> s.Finish? && s.c in l.claims && s.d.marked && s.d.lookup
    ensures Apply(l, s, cap).ev != l.ev ==> Apply(l, s, cap).late
  {
  }

  lemma RunOne(l: Life, step: Step, rest: seq<Step>, cap: nat)
    ensures Run(l, [step] + rest, cap) == Run(Apply(l, step, cap), rest, cap)
  {
    assert ([step] + rest)[0] == step && ([step] + rest)[1..] == rest;
  }

  /** A delivery that is posted and answered with `code`. */
  function Answered(code: int): Delivery {
    Delivery(true, true, UrlOk, true, true, Response(code, None), 0, true)
  }

  /** A row claimed by worker 1, reclaimed five minutes later by worker 2 and delivered by it. */
  function DeliveredByOther(): Life {
    Life(301 * SECOND, Event(Delivered, 1, 0, 0, 301 * SECOND), map[1 := 0], {1, 2}, None, 1, 0, false)
  }

  lemma DeliveredByOtherIsReachable(rest: seq<Step>)
    ensures Run(Born(0), [Claim(1)] + ([Wait(301 * SECOND)] + ([Claim(2)] + ([Finish(2, Answered(200))] + rest))), 10)
            == Run(DeliveredByOther(), rest, 10)
  {
    var l1 := Life(0, Event(Delivering, 0, 0, 0, 0), map[1 := 0], {1}, Some(1), 0, 0, false);
    var l2 := l1.(now := 301 * SECOND);
    var l3 := Life(301 * SECOND, Event(Delivering, 1, 0, 0, 301 * SECOND), map[1 := 0, 2 := 1], {1, 2}, Some(2), 0, 0, false);
    assert Apply(Born(0), Claim(1), 10) == l1;
    assert Apply(l1, Wait(301 * SECOND), 10) == l2;
    assert Apply(l2, Claim(2), 10) == l3;
    RunOne(Born(0), Claim(1), [Wait(301 * SECOND)] + ([Claim(2)] + ([Finish(2, Answered(200))] + rest)), 10);
    RunOne(l1, Wait(301 * SECOND), [Claim(2)] + ([Finish(2, Answered(200))] + rest), 10);
    RunOne(l2, Claim(2), [Finish(2, Answered(200))] + rest, 10);
    RunOne(l3, Finish(2, Answered(200)), rest, 10);
    assert l3.claims - {2} == map[1 := 0];
    assert Apply(l3, Finish(2, Answered(200)), 10) == DeliveredByOther();
  }

  /** And late marks do happen: a slow worker whose row was reclaimed and delivered by another
      turns it back to failed. */
  lemma LateMarkUndoesDelivery()
    ensures var steps := [Claim(1)] + ([Wait(301 * SECOND)] + ([Claim(2)] + ([Finish(2, Answered(200))] + [Finish(1, Answered(503))])));
            Run(Born(0), steps, 10).ev.status.Failed? && Run(Born(0), steps, 10).completed == 1
  {
    DeliveredByOtherIsReachable([Finish(1, Answered(503))]);
    assert [Finish(1, Answered(503))] + [] == [Finish(1, Answered(503))];
    RunOne(DeliveredByOther(), Finish(1, Answered(503)), [], 10);
    var end := Apply(DeliveredByOther(), Finish(1, Answered(503)), 10);
    assert end.ev.status.Failed? && Run(end, [], 10) == end;
  }
}
