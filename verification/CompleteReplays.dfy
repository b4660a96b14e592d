/** Replays get done. A job that is taken, answered in full and marked is completed with every block of its range
    visited in every scope. */
module CompleteReplays {
  import opened Base
  import opened ScanProtocol
  import opened HarmlessRuns
  import Q = JobQueue
  import W = ScanLoops
  import O = Outbox
  import B = BatchWindow
  import Pl = Plans

  /** What a node answers a replay that leaves nothing out: all blocks asked for, and all events. */
  function InFull(proc: Proc, scope: string, all: seq<B.ChainEvent>, tip: int): Input
    requires proc.Replay? && scope in proc.tasks
  {
    Input(Ok, match proc.tasks[scope]
              case Due(next) => Range(next, W.BatchEnd(next, proc.hi))
              case Busy(_) => {}, all, 0, tip)
  }

  /** One action of the replay in one scope, answered in full. */
  function Answering(cfg: Config, p: nat, scope: string, all: seq<B.ChainEvent>, tip: int): State -> State {
    (st: State) =>
      if p in st.procs && st.procs[p].Replay? && scope in st.procs[p].tasks
      then Apply(cfg, st, ReplayAct(p, scope, InFull(st.procs[p], scope, all, tip))) else st
  }

  /** `n` such actions, and nothing else. */
  function Go(cfg: Config, st: State, p: nat, scope: string, all: seq<B.ChainEvent>, tip: int, n: nat): State {
    Times(Answering(cfg, p, scope, all, tip), st, n)
  }

  /** The steps are actions of this replay whose answers are not errors. */
  predicate OnlyReplays(steps: seq<Step>, p: nat) {
    forall i :: 0 <= i < |steps| ==> steps[i].ReplayAct? && steps[i].p == p && steps[i].input.reply.Ok?
  }

  lemma {:induction false} GoIsRun(cfg: Config, st: State, p: nat, scope: string, all: seq<B.ChainEvent>, tip: int, n: nat) returns (steps: seq<Step>)
    ensures Run(cfg, st, steps) == Go(cfg, st, p, scope, all, tip, n) && OnlyReplays(steps, p)
    decreases n
  {
    if n == 0 {
      steps := [];
    } else if p !in st.procs || !st.procs[p].Replay? || scope !in st.procs[p].tasks {
      steps := GoIsRun(cfg, st, p, scope, all, tip, n - 1);
    } else {
      var step := ReplayAct(p, scope, InFull(st.procs[p], scope, all, tip));
      var rest := GoIsRun(cfg, Apply(cfg, st, step), p, scope, all, tip, n - 1);
      steps := [step] + rest;
      assert steps[0] == step && steps[1..] == rest;
    }
  }

  lemma GoesFirst(cfg: Config, st: State, p: nat, scope: string, all: seq<B.ChainEvent>, tip: int, n: nat)
    requires n > 0 && p in st.procs && st.procs[p].Replay? && scope in st.procs[p].tasks
    ensures Go(cfg, st, p, scope, all, tip, n)
            == Go(cfg, Apply(cfg, st, ReplayAct(p, scope, InFull(st.procs[p], scope, all, tip))), p, scope, all, tip, n - 1)
  {
  }

  lemma GoOn(cfg: Config, st: State, p: nat, scope: string, all: seq<B.ChainEvent>, tip: int, n: nat, m: nat)
    ensures Go(cfg, st, p, scope, all, tip, n + m) == Go(cfg, Go(cfg, st, p, scope, all, tip, n), p, scope, all, tip, m)
  {
    TimesAdd(Answering(cfg, p, scope, all, tip), st, n, m);
  }

  lemma {:induction false} RunTwice(cfg: Config, st: State, first: seq<Step>, second: seq<Step>)
    ensures Run(cfg, st, first + second) == Run(cfg, Run(cfg, st, first), second)
    decreases |first|
  {
    if first == [] {
      assert first + second == second;
    } else {
      assert (first + second)[0] == first[0] && (first + second)[1..] == first[1..] + second;
      RunTwice(cfg, Apply(cfg, st, first[0]), first[1..], second);
    }
  }

  /** The replay is there, and no scope has failed. */
  ghost predicate Underway(st: State, p: nat, proc: Proc) {
    proc.Replay? && proc.failed == {} && p in st.procs && st.procs[p] == proc
  }

  /** The replay goes from `st` to `st'` in one scope, and nothing else changes. */
  ghost predicate Moves(st: State, st': State, p: nat, proc: Proc) {
    && Underway(st', p, proc) && st'.lost == st.lost && st'.jobs == st.jobs && st'.rows == st.rows
    && st'.procs - {p} == st.procs - {p} && st.visited <= st'.visited
  }

  ghost predicate AllVisited(st: State, scope: string, lo: int, hi: int) {
    forall b :: lo <= b <= hi ==> (scope, b) in st.visited
  }

  // ----- One batch in one scope

  /** Block times rise, and `all` holds every event of the scope. */
  ghost predicate InFullView(cfg: Config, scope: string, all: seq<B.ChainEvent>) {
    Pl.Timed(cfg.world, cfg.time) && forall c :: OnChain(cfg.world, scope, c) ==> c in all
  }

  lemma RangeWhole(cfg: Config, scope: string, lo: int, hi: int, all: seq<B.ChainEvent>)
    requires InFullView(cfg, scope, all)
    ensures HoldsAll(scope, Range(lo, hi), lo, hi) && AllIndexed(cfg, scope, Answer(cfg, scope, Range(lo, hi), all), lo, hi)
  {
    forall b | lo <= b <= hi
      ensures InSpan(Range(lo, hi), b) && Indexed(cfg.world, scope, Answer(cfg, scope, Range(lo, hi), all), b)
    {
      assert b in Range(lo, hi);
      Pl.SpanIsIndexed(cfg, scope, Range(lo, hi), all, b);
    }
  }

  lemma ReplayedWhole(cfg: Config, scope: string, lo: int, hi: int, all: seq<B.ChainEvent>, tip: int)
    requires InFullView(cfg, scope, all)
    ensures var batch := ReplayedBatch(cfg, scope, lo, hi, Input(Ok, Range(lo, hi), all, 0, tip));
            batch.lo == lo && batch.hi == hi && Whole(cfg, scope, batch)
  {
    RangeWhole(cfg, scope, lo, hi, all);
  }

  lemma FetchOne(cfg: Config, st: State, p: nat, proc: Proc, scope: string, next: int, input: Input)
    requires Underway(st, p, proc) && scope in proc.tasks && proc.tasks[scope] == Due(next) && next <= proc.hi
    requires input.reply.Ok? && !Skipped(scope, input)
    ensures var batch := ReplayedBatch(cfg, scope, next, W.BatchEnd(next, proc.hi), input);
            Moves(st, Apply(cfg, st, ReplayAct(p, scope, input)), p, proc.(tasks := proc.tasks[scope := Busy(batch)]))
  {
  }

  lemma FetchMoves(cfg: Config, st: State, p: nat, proc: Proc, scope: string, next: int, all: seq<B.ChainEvent>, tip: int) returns (batch: Batch)
    requires Underway(st, p, proc) && scope in proc.tasks && proc.tasks[scope] == Due(next) && next <= proc.hi
    requires InFullView(cfg, scope, all)
    ensures batch.lo == next && batch.hi == W.BatchEnd(next, proc.hi) && Whole(cfg, scope, batch)
    ensures Moves(st, Apply(cfg, st, ReplayAct(p, scope, InFull(proc, scope, all, tip))), p, proc.(tasks := proc.tasks[scope := Busy(batch)]))
  {
    var input, end := InFull(proc, scope, all, tip), W.BatchEnd(next, proc.hi);
    assert next in input.blocks;
    batch := ReplayedBatch(cfg, scope, next, end, input);
    ReplayedWhole(cfg, scope, next, end, all, tip);
    FetchOne(cfg, st, p, proc, scope, next, input);
  }

  lemma EnqueueMoves(cfg: Config, st: State, p: nat, proc: Proc, scope: string, batch: Batch, input: Input)
    requires Underway(st, p, proc) && scope in proc.tasks && proc.tasks[scope] == Busy(batch) && batch.queue != [] && input.reply.Ok?
    ensures Moves(st, Apply(cfg, st, ReplayAct(p, scope, input)), p, proc.(tasks := proc.tasks[scope := Busy(batch.(queue := batch.queue[1..]))]))
  {
  }

  lemma SettleMoves(cfg: Config, st: State, p: nat, proc: Proc, scope: string, batch: Batch, input: Input)
    requires Underway(st, p, proc) && scope in proc.tasks && proc.tasks[scope] == Busy(batch) && batch.queue == [] && Whole(cfg, scope, batch)
    ensures var st' := Apply(cfg, st, ReplayAct(p, scope, input));
            Moves(st, st', p, proc.(tasks := proc.tasks[scope := Due(batch.hi + 1)])) && AllVisited(st', scope, batch.lo, batch.hi)
  {
    SettledWhole(cfg, st, scope, batch);
    forall b | batch.lo <= b <= batch.hi
      ensures Fate(cfg.world, scope, batch, b).None?
    {
      assert !CutShort(cfg.world, scope, batch.cut, b);
    }
  }

  /** The batch is published and settled. */
  lemma {:induction false} Publishes(cfg: Config, st: State, p: nat, proc: Proc, scope: string, batch: Batch, all: seq<B.ChainEvent>, tip: int)
    returns (n: nat)
    requires Underway(st, p, proc) && scope in proc.tasks && proc.tasks[scope] == Busy(batch) && Whole(cfg, scope, batch)
    ensures var st' := Go(cfg, st, p, scope, all, tip, n);
            Moves(st, st', p, proc.(tasks := proc.tasks[scope := Due(batch.hi + 1)])) && AllVisited(st', scope, batch.lo, batch.hi)
    decreases |batch.queue|
  {
    var input := InFull(proc, scope, all, tip);
    var st' := Apply(cfg, st, ReplayAct(p, scope, input));
    var m: nat;
    if batch.queue == [] {
      SettleMoves(cfg, st, p, proc, scope, batch, input);
      m := 0;
    } else {
      EnqueueMoves(cfg, st, p, proc, scope, batch, input);
      var left := batch.(queue := batch.queue[1..]);
      var next := proc.(tasks := proc.tasks[scope := Busy(left)]);
      m := Publishes(cfg, st', p, next, scope, left, all, tip);
      assert next.tasks[scope := Due(batch.hi + 1)] == proc.tasks[scope := Due(batch.hi + 1)];
    }
    n := m + 1;
    GoesFirst(cfg, st, p, scope, all, tip, n);
  }

  // ----- All batches in one scope

  /** The scope is done from `next` on: only its own task has moved on, to `last`. */
  ghost predicate ScopeDone(st: State, st': State, p: nat, proc: Proc, scope: string, next: int, last: int)
    requires proc.Replay?
  {
    last > proc.hi && AllVisited(st', scope, next, proc.hi) && Moves(st, st', p, proc.(tasks := proc.tasks[scope := Due(last)]))
  }

  lemma NothingLeft(st: State, p: nat, proc: Proc, scope: string, next: int)
    requires Underway(st, p, proc) && scope in proc.tasks && proc.tasks[scope] == Due(next) && next > proc.hi
    ensures ScopeDone(st, st, p, proc, scope, next, next)
  {
    assert proc.tasks[scope := Due(next)] == proc.tasks;
  }

  lemma JoinBatch(st: State, s1: State, s2: State, p: nat, proc: Proc, mid: Proc, scope: string, lo: int, hi: int, last: int)
    requires proc.Replay? && mid == proc.(tasks := proc.tasks[scope := Due(hi + 1)]) && Moves(st, s1, p, mid) && AllVisited(s1, scope, lo, hi)
    requires ScopeDone(s1, s2, p, mid, scope, hi + 1, last)
    ensures ScopeDone(st, s2, p, proc, scope, lo, last)
  {
    assert mid.tasks[scope := Due(last)] == proc.tasks[scope := Due(last)];
  }

  lemma ReplaysBatch(cfg: Config, st: State, p: nat, proc: Proc, scope: string, next: int, all: seq<B.ChainEvent>, tip: int) returns (st': State, n: nat)
    requires Underway(st, p, proc) && scope in proc.tasks && proc.tasks[scope] == Due(next) && next <= proc.hi
    requires InFullView(cfg, scope, all)
    ensures st' == Go(cfg, st, p, scope, all, tip, n)
    ensures var hi := W.BatchEnd(next, proc.hi);
            Moves(st, st', p, proc.(tasks := proc.tasks[scope := Due(hi + 1)])) && AllVisited(st', scope, next, hi)
  {
    var batch := FetchMoves(cfg, st, p, proc, scope, next, all, tip);
    var s1 := Apply(cfg, st, ReplayAct(p, scope, InFull(proc, scope, all, tip)));
    var busy := proc.(tasks := proc.tasks[scope := Busy(batch)]);
    var m := Publishes(cfg, s1, p, busy, scope, batch, all, tip);
    assert busy.tasks[scope := Due(batch.hi + 1)] == proc.tasks[scope := Due(batch.hi + 1)];
    n := m + 1;
    st' := Go(cfg, st, p, scope, all, tip, n);
    GoesFirst(cfg, st, p, scope, all, tip, n);
  }

  lemma {:induction false} ReplaysScope(cfg: Config, st: State, p: nat, proc: Proc, scope: string, next: int, all: seq<B.ChainEvent>, tip: int)
    returns (end: State, n: nat, last: int)
    requires Underway(st, p, proc) && scope in proc.tasks && proc.tasks[scope] == Due(next)
    requires InFullView(cfg, scope, all)
    ensures end == Go(cfg, st, p, scope, all, tip, n) && ScopeDone(st, end, p, proc, scope, next, last)
    decreases proc.hi - next
  {
    if next > proc.hi {
      end, n, last := st, 0, next;
      NothingLeft(st, p, proc, scope, next);
    } else {
      var hi := W.BatchEnd(next, proc.hi);
      var s1, i := ReplaysBatch(cfg, st, p, proc, scope, next, all, tip);
      var mid := proc.(tasks := proc.tasks[scope := Due(hi + 1)]);
      var j;
      end, j, last := ReplaysScope(cfg, s1, p, mid, scope, hi + 1, all, tip);
      JoinBatch(st, s1, end, p, proc, mid, scope, next, hi, last);
      n := i + j;
      GoOn(cfg, st, p, scope, all, tip, i, j);
    }
  }

  // ----- All scopes

  /** The tasks of `todo` are still due from the start, all others are done. */
  ghost predicate InScopes(cfg: Config, st: State, p: nat, proc: Proc, todo: set<string>) {
    && Underway(st, p, proc) && proc.tasks.Keys == cfg.scopes && todo <= cfg.scopes
    && (forall s :: s in todo ==> proc.tasks[s] == Due(proc.lo))
    && (forall s :: s in cfg.scopes - todo ==> proc.tasks[s].Due? && proc.tasks[s].next > proc.hi && AllVisited(st, s, proc.lo, proc.hi))
  }

  /** Everything else stays. */
  ghost predicate OnlyPublishes(st: State, st': State, p: nat) {
    st'.lost == st.lost && st'.jobs == st.jobs && st'.rows == st.rows && st'.procs - {p} == st.procs - {p} && st.visited <= st'.visited
  }

  lemma OneScopeLess(cfg: Config, st: State, s1: State, p: nat, proc: Proc, next: Proc, scope: string, todo: set<string>, last: int)
    requires InScopes(cfg, st, p, proc, todo) && scope in todo && next == proc.(tasks := proc.tasks[scope := Due(last)])
    requires ScopeDone(st, s1, p, proc, scope, proc.lo, last)
    ensures InScopes(cfg, s1, p, next, todo - {scope}) && OnlyPublishes(st, s1, p)
  {
  }

  lemma {:induction false} ReplaysScopes(cfg: Config, st: State, p: nat, proc: Proc, todo: set<string>, all: string -> seq<B.ChainEvent>, tip: int)
    returns (steps: seq<Step>, done: Proc)
    requires InScopes(cfg, st, p, proc, todo) && forall s :: s in cfg.scopes ==> InFullView(cfg, s, all(s))
    ensures OnlyReplays(steps, p) && OnlyPublishes(st, Run(cfg, st, steps), p)
    ensures InScopes(cfg, Run(cfg, st, steps), p, done, {}) && done.Replay? && done.id == proc.id && done.lo == proc.lo && done.hi == proc.hi
    decreases |todo|
  {
    if todo == {} {
      steps, done := [], proc;
    } else {
      var s :| s in todo;
      var s1, n, last := ReplaysScope(cfg, st, p, proc, s, proc.lo, all(s), tip);
      var next := proc.(tasks := proc.tasks[s := Due(last)]);
      OneScopeLess(cfg, st, s1, p, proc, next, s, todo, last);
      var first := GoIsRun(cfg, st, p, s, all(s), tip, n);
      var rest;
      rest, done := ReplaysScopes(cfg, s1, p, next, todo - {s}, all, tip);
      steps := first + rest;
      RunTwice(cfg, st, first, rest);
    }
  }

  /** Whatever state any run has led to: a job that is due, taken and answered in full is completed by its mark. Every
      block of its range is then visited in every scope, nothing is lost, and no cursor has moved. */
  lemma ReplayCompletes(cfg: Config, st: State, p: nat, id: Q.JobId, all: string -> seq<B.ChainEvent>, tip: int) returns (steps: seq<Step>)
    requires p !in st.procs && id in st.jobs && Q.Eligible(st.jobs[id], st.now) && st.jobs[id].from <= st.jobs[id].to
    requires forall s :: s in cfg.scopes ==> InFullView(cfg, s, all(s))
    ensures OnlyReplays(steps, p)
    ensures var end := Apply(cfg, Run(cfg, Apply(cfg, st, StartReplay(p, id, Ok)), steps), ReplayEnd(p, Ok));
            && p !in end.procs && end.lost == st.lost && end.rows == st.rows && end.procs - {p} == st.procs - {p} && st.visited <= end.visited
            && id in end.jobs && end.jobs[id] == st.jobs[id].(status := Q.Completed, attempts := st.jobs[id].attempts + 1, lockedAt := None) && (forall j :: j in st.jobs && j != id ==> j in end.jobs && end.jobs[j] == st.jobs[j])
            && forall s :: s in cfg.scopes ==> AllVisited(end, s, st.jobs[id].from, st.jobs[id].to)
  {
    var s1 := Apply(cfg, st, StartReplay(p, id, Ok));
    var proc := NewReplay(cfg, id, st.jobs[id]);
    var done;
    steps, done := ReplaysScopes(cfg, s1, p, proc, cfg.scopes, all, tip);
    assert ReplayOver(cfg, done);
  }
}
