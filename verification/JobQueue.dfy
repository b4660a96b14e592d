/** The `queue_jobs` table: block-range replay work shared by all replicas. */
module JobQueue {
  import opened Base

  const STALE_LOCK := 300  // seconds
  const DEFAULT_ATTEMPTS := 10

  datatype Status = Pending | Running | Failed | Completed | Dead

  datatype Job = Job(from: int, to: int, status: Status, attempts: nat, maxAttempts: int,
                     runAfter: int, lockedAt: Option<int>)

  type JobId = nat

  type Jobs = map<JobId, Job>

  function NewJob(from: int, to: int, maxAttempts: int, now: int): Job {
    Job(from, to, Pending, 0, if maxAttempts <= 0 then DEFAULT_ATTEMPTS else maxAttempts, now, None)
  }

  predicate Eligible(j: Job, now: int) {
    && (j.status.Pending? || j.status.Failed?)
    && j.runAfter <= now
    && (j.lockedAt.Some? ==> j.lockedAt.value < now - STALE_LOCK)
  }

  function Claimed(j: Job, now: int): Job {
    j.(status := Running, attempts := j.attempts + 1, lockedAt := Some(now))
  }

  function CompletedRow(j: Job): Job {
    j.(status := Completed, lockedAt := None)
  }

  function FailedRow(j: Job, now: int, retryAfter: int): Job {
    j.(status := if j.attempts >= j.maxAttempts then Dead else Failed,
       lockedAt := None,
       runAfter := now + if retryAfter <= 0 then 60 else retryAfter)
  }

  /** The job will be handed out when its time has come. */
  predicate Waiting(j: Job) {
    j.status.Pending? || j.status.Failed?
  }

  /** The table as the client methods drive it. Completing and failing match on the id alone. */
  class JobTable {
    var jobs: Jobs

    constructor ()
      ensures jobs == map[]
    {
      jobs := map[];
    }

    method EnqueueBlockRangeJob(id: JobId, from: int, to: int, maxAttempts: int, now: int) returns (ok: bool)
      modifies this
      ensures ok == (id !in old(jobs))
      ensures jobs == if ok then old(jobs)[id := NewJob(from, to, maxAttempts, now)] else old(jobs)
    {
      ok := id !in jobs;
      if ok {
        var attempts := maxAttempts;
        if attempts <= 0 {
          attempts := DEFAULT_ATTEMPTS;
        }
        jobs := jobs[id := Job(from, to, Pending, 0, attempts, now, None)];
      }
    }

    /** Claims the given candidates that are eligible. The ORDER BY and LIMIT of the statement
        only decide which candidates it looks at. */
    method ClaimBlockRangeJobs(candidates: seq<JobId>, now: int) returns (claimed: seq<JobId>)
      requires forall i, k :: 0 <= i < k < |candidates| ==> candidates[i] != candidates[k]
      modifies this
      ensures forall id :: id in claimed <==> id in candidates && id in old(jobs) && Eligible(old(jobs)[id], now)
      ensures jobs.Keys == old(jobs).Keys
      ensures forall id :: id in jobs ==>
                             jobs[id] == if id in claimed then Claimed(old(jobs)[id], now) else old(jobs)[id]
    {
      claimed := [];
      for i := 0 to |candidates|
        invariant jobs.Keys == old(jobs).Keys
        invariant forall id :: id in claimed <==> id in candidates[..i] && id in old(jobs) && Eligible(old(jobs)[id], now)
        invariant forall id :: id in jobs ==>
                                 jobs[id] == if id in claimed then Claimed(old(jobs)[id], now) else old(jobs)[id]
      {
        var id := candidates[i];
        assert id !in candidates[..i];
        assert candidates[..i + 1] == candidates[..i] + [id];
        if id in jobs && Eligible(jobs[id], now) {
          jobs := jobs[id := Claimed(jobs[id], now)];
          claimed := claimed + [id];
        }
      }
      assert candidates[..|candidates|] == candidates;
    }

    method CompleteJob(id: JobId)
      modifies this
      ensures jobs == if id in old(jobs) then old(jobs)[id := CompletedRow(old(jobs)[id])] else old(jobs)
    {
      if id in jobs {
        jobs := jobs[id := jobs[id].(status := Completed, lockedAt := None)];
      }
    }

    method FailJob(id: JobId, now: int, retryAfter: int)
      modifies this
      ensures jobs == if id in old(jobs) then old(jobs)[id := FailedRow(old(jobs)[id], now, retryAfter)] else old(jobs)
    {
      if id in jobs {
        var job := jobs[id];
        var delay := retryAfter;
        if delay <= 0 {
          delay := 60;
        }
        var status := if job.attempts >= job.maxAttempts then Dead else Failed;
        jobs := jobs[id := job.(status := status, lockedAt := None, runAfter := now + delay)];
      }
    }
  }

  // ----- Runs of any number of replicas

  datatype Op =
    | Enqueue(id: JobId, from: int, to: int, maxAttempts: int)
    | Take(claim: nat, id: JobId)
    | Finish(claim: nat)
    | GiveUp(claim: nat, retryAfter: int)
    | Advance(span: nat)

  /** `claims` maps each claim that its taker has not resolved to its job. A taker that crashes
      never resolves its claim, and the queue has no way to take it back. `replays` counts how often a
      job was handed out. */
  datatype World = World(now: int, jobs: Jobs, claims: map<nat, JobId>, used: set<nat>, replays: map<JobId, nat>)

  function Apply(w: World, op: Op): World {
    match op
    case Enqueue(id, from, to, m) =>
      if id in w.jobs then w
      else w.(jobs := w.jobs[id := NewJob(from, to, m, w.now)], replays := w.replays[id := 0])
    case Take(c, id) =>
      if c in w.used || id !in w.jobs || id !in w.replays || !Eligible(w.jobs[id], w.now) then w
      else World(w.now, w.jobs[id := Claimed(w.jobs[id], w.now)], w.claims[c := id], w.used + {c},
                 w.replays[id := w.replays[id] + 1])
    case Finish(c) =>
      if c !in w.claims || w.claims[c] !in w.jobs then w
      else w.(jobs := w.jobs[w.claims[c] := CompletedRow(w.jobs[w.claims[c]])], claims := w.claims - {c})
    case GiveUp(c, d) =>
      if c !in w.claims || w.claims[c] !in w.jobs then w
      else w.(jobs := w.jobs[w.claims[c] := FailedRow(w.jobs[w.claims[c]], w.now, d)], claims := w.claims - {c})
    case Advance(d) => w.(now := w.now + d)
  }

  function Run(w: World, ops: seq<Op>): World
    decreases |ops|
  {
    if ops == [] then w else Run(Apply(w, ops[0]), ops[1..])
  }

  predicate RowOk(j: Job) {
    && j.maxAttempts >= 1
    && j.attempts <= j.maxAttempts
    && (j.status.Pending? ==> j.attempts == 0)
    && (j.status.Failed? ==> j.attempts < j.maxAttempts)
    && (j.status.Running? ==> j.attempts >= 1)
    && (j.status.Dead? ==> j.attempts == j.maxAttempts)
    && (j.lockedAt.Some? <==> j.status.Running?)
  }

  ghost predicate RowsOk(w: World) {
    forall id :: id in w.jobs ==> id in w.replays && RowOk(w.jobs[id]) && w.replays[id] == w.jobs[id].attempts
  }

  ghost predicate ClaimsOk(w: World) {
    && w.claims.Keys <= w.used
    && (forall c :: c in w.claims ==> w.claims[c] in w.jobs && w.jobs[w.claims[c]].status.Running?)
    && (forall c, d :: c in w.claims && d in w.claims && w.claims[c] == w.claims[d] ==> c == d)
  }

  ghost predicate HasClaim(w: World, id: JobId) {
    exists c :: c in w.claims && w.claims[c] == id
  }

  ghost predicate RunningClaimed(w: World) {
    forall id :: id in w.jobs && w.jobs[id].status.Running? ==> HasClaim(w, id)
  }

  ghost predicate Inv(w: World) {
    RowsOk(w) && ClaimsOk(w) && RunningClaimed(w)
  }

  lemma StepKeepsRows(w: World, op: Op)
    requires RowsOk(w) && ClaimsOk(w)
    ensures RowsOk(Apply(w, op))
  {
  }

  lemma StepKeepsClaims(w: World, op: Op)
    requires ClaimsOk(w)
    ensures ClaimsOk(Apply(w, op))
  {
    match op
    case Take(c, id) =>
      assert id in w.jobs && w.jobs[id].status.Running? ==> Apply(w, op) == w;
    case Finish(c) =>
    case GiveUp(c, _) =>
    case Enqueue(_, _, _, _) =>
    case Advance(_) =>
  }

  lemma StepKeepsRunningClaimed(w: World, op: Op)
    requires RowsOk(w) && ClaimsOk(w) && RunningClaimed(w)
    ensures RunningClaimed(Apply(w, op))
  {
    var w' := Apply(w, op);
    forall id | id in w'.jobs && w'.jobs[id].status.Running?
      ensures HasClaim(w', id)
    {
      if op.Take? && op.id == id && w' != w {
        assert op.claim in w'.claims && w'.claims[op.claim] == id;
      } else {
        assert id in w.jobs && w.jobs[id] == w'.jobs[id];
        assert HasClaim(w, id);
        var c :| c in w.claims && w.claims[c] == id;
        assert c in w'.claims && w'.claims[c] == id;
      }
    }
  }

  lemma StepKeepsInv(w: World, op: Op)
    requires Inv(w)
    ensures Inv(Apply(w, op))
  {
    StepKeepsRows(w, op);
    StepKeepsClaims(w, op);
    StepKeepsRunningClaimed(w, op);
  }

  /** A job once completed or dead stays exactly as it is. */
  lemma StepKeepsTerminal(w: World, op: Op, id: JobId)
    requires Inv(w) && id in w.jobs && (w.jobs[id].status.Completed? || w.jobs[id].status.Dead?)
    ensures id in Apply(w, op).jobs && Apply(w, op).jobs[id] == w.jobs[id]
  {
  }

  function EmptyQueue(start: int): World {
    World(start, map[], map[], {}, map[])
  }

  lemma {:induction false} RunKeepsInv(w: World, ops: seq<Op>)
    requires Inv(w)
    ensures Inv(Run(w, ops))
    decreases |ops|
  {
    if ops == [] {
    } else {
      StepKeepsInv(w, ops[0]);
      RunKeepsInv(Apply(w, ops[0]), ops[1..]);
    }
  }

  /** In every run from the empty queue: a job is never attempted more than its cap, is
      handed out exactly `attempts` times, a failed job has attempts left, and a dead one has none. */
  lemma AttemptsBounded(start: int, ops: seq<Op>, id: JobId)
    requires id in Run(EmptyQueue(start), ops).jobs
    ensures var w := Run(EmptyQueue(start), ops);
            id in w.replays && w.replays[id] == w.jobs[id].attempts <= w.jobs[id].maxAttempts
            && (w.jobs[id].status.Failed? ==> w.jobs[id].attempts < w.jobs[id].maxAttempts)
            && (w.jobs[id].status.Dead? ==> w.jobs[id].attempts == w.jobs[id].maxAttempts)
  {
    RunKeepsInv(EmptyQueue(start), ops);
  }

  /** In every run from the empty queue: a job is running exactly when one claim on it is
      outstanding, and never more than one is. */
  lemma RunningMeansOneClaim(start: int, ops: seq<Op>, id: JobId)
    requires id in Run(EmptyQueue(start), ops).jobs
    ensures var w := Run(EmptyQueue(start), ops);
            w.jobs[id].status.Running? <==> HasClaim(w, id)
    ensures var w := Run(EmptyQueue(start), ops);
            forall c, d :: c in w.claims && d in w.claims && w.claims[c] == id && w.claims[d] == id ==> c == d
  {
    RunKeepsInv(EmptyQueue(start), ops);
  }

  /** Completed and dead are absorbing over every continuation of every run. */
  lemma {:induction false} TerminalForever(w: World, ops: seq<Op>, id: JobId)
    requires Inv(w) && id in w.jobs && (w.jobs[id].status.Completed? || w.jobs[id].status.Dead?)
    ensures id in Run(w, ops).jobs && Run(w, ops).jobs[id] == w.jobs[id]
    decreases |ops|
  {
    if ops == [] {
    } else {
      StepKeepsTerminal(w, ops[0], id);
      StepKeepsInv(w, ops[0]);
      TerminalForever(Apply(w, ops[0]), ops[1..], id);
    }
  }

  lemma {:induction false} RunTwice(w: World, a: seq<Op>, b: seq<Op>)
    ensures Run(w, a + b) == Run(Run(w, a), b)
    decreases |a|
  {
    if a == [] {
      assert a + b == b;
    } else {
      assert (a + b)[0] == a[0] && (a + b)[1..] == a[1..] + b;
      RunTwice(Apply(w, a[0]), a[1..], b);
    }
  }

  /** A job is enqueued and its replay fails `k` times, each time 30 seconds after the last. */
  function Failing(id: JobId, from: int, to: int, maxAttempts: int, k: nat): seq<Op> {
    if k == 0 then [Enqueue(id, from, to, maxAttempts)]
    else Failing(id, from, to, maxAttempts, k - 1) + [Take(k, id), GiveUp(k, 30), Advance(30)]
  }

  /** One more failing replay of a job that is alone in the queue and due. */
  lemma OneFailure(w: World, id: JobId, k: nat)
    requires k > 0 && w.jobs.Keys == {id} && w.claims == map[] && (forall c :: c in w.used ==> c < k) && w.replays.Keys == {id}
    requires w.jobs[id].runAfter <= w.now && w.jobs[id].lockedAt == None && w.jobs[id].attempts <= w.jobs[id].maxAttempts
    requires if w.jobs[id].attempts < w.jobs[id].maxAttempts then w.jobs[id].status.Pending? || w.jobs[id].status.Failed? else w.jobs[id].status.Dead?
    ensures var j, end := w.jobs[id], Apply(Apply(Apply(w, Take(k, id)), GiveUp(k, 30)), Advance(30));
            var taken := j.attempts < j.maxAttempts;
            && end.claims == map[] && (forall c :: c in end.used ==> c <= k) && end.now == w.now + 30
            && end.replays == map[id := if taken then w.replays[id] + 1 else w.replays[id]]
            && end.jobs == map[id := if taken then j.(status := if j.attempts + 1 == j.maxAttempts then Dead else Failed, attempts := j.attempts + 1, runAfter := end.now) else j]
  {
  }

  /** No attempt is withheld: a job whose replays keep failing is taken again each time it is due, until its attempts
      are used up, ten of them unless it was given another number; then it is dead, its range unchanged. */
  lemma {:induction false} EachAttemptIsGiven(start: int, id: JobId, from: int, to: int, maxAttempts: int, k: nat)
    ensures var w := Run(EmptyQueue(start), Failing(id, from, to, maxAttempts, k));
            var cap := if maxAttempts <= 0 then 10 else maxAttempts;
            && w.jobs.Keys == {id} && w.claims == map[] && (forall c :: c in w.used ==> c <= k) && w.replays == map[id := Min(k, cap)]
            && var j := w.jobs[id];
               && j.from == from && j.to == to && j.maxAttempts == cap && j.attempts == Min(k, cap) && j.runAfter <= w.now && j.lockedAt == None
               && j.status == (if k == 0 then Pending else if k < cap then Failed else Dead)
  {
    var ops, w0 := Failing(id, from, to, maxAttempts, k), EmptyQueue(start);
    if k == 0 {
      assert Run(w0, ops) == Run(Apply(w0, ops[0]), []);
    } else {
      var before := Failing(id, from, to, maxAttempts, k - 1);
      EachAttemptIsGiven(start, id, from, to, maxAttempts, k - 1);
      var w := Run(w0, before);
      var take, giveUp, wait := Take(k, id), GiveUp(k, 30), Advance(30);
      RunTwice(w0, before, [take, giveUp, wait]);
      var w1 := Apply(w, take);
      var w2 := Apply(w1, giveUp);
      OneFailure(w, id, k);
      assert [take, giveUp, wait][1..] == [giveUp, wait] && [giveUp, wait][1..] == [wait] && [wait][1..] == [];
      assert Run(w, [take, giveUp, wait]) == Run(w1, [giveUp, wait]) == Run(w2, [wait]) == Run(Apply(w2, wait), []) == Apply(w2, wait);
    }
  }

  lemma {:induction false} ClockNeverRewinds(w: World, ops: seq<Op>)
    ensures w.now <= Run(w, ops).now
    decreases |ops|
  {
    if ops == [] {
    } else {
      ClockNeverRewinds(Apply(w, ops[0]), ops[1..]);
    }
  }

  /** A job whose replay failed rests for the delay it was given, a minute when it was given none, whatever the
      replicas do meanwhile. */
  lemma FailedJobRests(w: World, c: nat, retryAfter: int, ops: seq<Op>)
    requires Inv(w) && c in w.claims
    requires var delay := if retryAfter <= 0 then 60 else retryAfter;
             Run(Apply(w, GiveUp(c, retryAfter)), ops).now < w.now + delay
    ensures var j := w.jobs[w.claims[c]];
            var end := Run(Apply(w, GiveUp(c, retryAfter)), ops);
            && w.claims[c] in end.jobs
            && var rests := end.jobs[w.claims[c]];
               rests == Job(j.from, j.to, if j.attempts == j.maxAttempts then Dead else Failed, j.attempts, j.maxAttempts, rests.runAfter, None)
  {
    var failed := Apply(w, GiveUp(c, retryAfter));
    StepKeepsInv(w, GiveUp(c, retryAfter));
    RestsUntilDue(failed, ops, w.claims[c]);
  }

  lemma {:induction false} RestsUntilDue(w: World, ops: seq<Op>, id: JobId)
    requires Inv(w) && id in w.jobs && !w.jobs[id].status.Running? && Run(w, ops).now < w.jobs[id].runAfter
    ensures id in Run(w, ops).jobs && Run(w, ops).jobs[id] == w.jobs[id]
    decreases |ops|
  {
    if ops == [] {
    } else {
      ClockNeverRewinds(w, ops);
      StepRests(w, ops[0], id);
      StepKeepsInv(w, ops[0]);
      RestsUntilDue(Apply(w, ops[0]), ops[1..], id);
    }
  }

  lemma StepRests(w: World, op: Op, id: JobId)
    requires Inv(w) && id in w.jobs && !w.jobs[id].status.Running? && w.now < w.jobs[id].runAfter
    ensures id in Apply(w, op).jobs && Apply(w, op).jobs[id] == w.jobs[id]
  {
  }

  /** The stale-lock clause of the claim never decides anything: a waiting job is unlocked, so
      it is eligible as soon as its time has come, and a running one is never handed out again. */
  lemma EligibleIffWaitingAndDue(start: int, ops: seq<Op>, id: JobId)
    requires id in Run(EmptyQueue(start), ops).jobs
    ensures var w := Run(EmptyQueue(start), ops);
            Eligible(w.jobs[id], w.now) <==>
            (w.jobs[id].status.Pending? || w.jobs[id].status.Failed?) && w.jobs[id].runAfter <= w.now
  {
    RunKeepsInv(EmptyQueue(start), ops);
  }
}
