/** Keeping the in-memory prefilter of a replica a superset of the active watchlist: rows are
    announced by NOTIFY, the listener reloads the filter on each announcement and resyncs after every
    reconnect, and a reload first lists the rows and then swaps the filter. */
module WatchSync {
  import opened Base
  import opened Matching

  /** The filter holder. A reload builds a new filter aside and swaps it in. */
  class AddressStore {
    const hash: (string, nat) -> nat
    const k: nat
    var filter: BloomFilter

    constructor (hash: (string, nat) -> nat, k: nat)
      ensures this.hash == hash && this.k == k && fresh(filter) && filter.bits == {}
    {
      this.hash, this.k := hash, k;
      filter := new BloomFilter(hash, k);
    }

    method Reload(listed: Option<seq<string>>) returns (ok: bool)
      modifies this
      ensures ok <==> listed.Some?
      ensures ok ==> fresh(filter) && Covers(filter, set a | a in listed.value) && filter.count == |listed.value|
      ensures !ok ==> filter == old(filter)
    {
      if listed.None? {
        return false;
      }
      var next := new BloomFilter(hash, k);
      next.AddBatch(listed.value);
      filter := next;
      ok := true;
    }

    method Add(address: string)
      modifies filter
      ensures filter == old(filter) && filter.Contains(address)
      ensures forall a :: old(filter.Contains(a)) ==> filter.Contains(a)
    {
      filter.Add(address);
    }
  }

  // ----- The protocol between the table, the listener and the reloads

  /** `Listening`: subscribed, not yet resynced. */
  datatype Link = Down | Listening | Synced

  datatype Kind = Resync | Notified | Periodic

  datatype Phase = Requested | Listed(rows: set<string>)

  datatype Reload = Reload(kind: Kind, phase: Phase)

  /** `filter` is the set of addresses the filter answers for. `overlapped` and `missed` record that
      two reloads ever ran at once, and that a reload asked for by a notification ever failed. */
  datatype State = State(active: set<string>, filter: set<string>, link: Link, queue: nat,
                         reloads: map<nat, Reload>, overlapped: bool, missed: bool)

  datatype Step =
    | Watch(address: string)      // insert or reactivate a row, and NOTIFY
    | Unwatch(address: string)    // deactivate a row; nobody is told
    | LocalAdd(address: string)   // the API of this replica adds to the live filter
    | Disconnect                  // queued notifications are gone
    | Connect                     // connect and LISTEN
    | Begin(id: nat, kind: Kind)
    | List(id: nat)
    | FailList(id: nat)
    | Swap(id: nat)

  predicate ListenerBusy(st: State) {
    exists i :: i in st.reloads && !st.reloads[i].kind.Periodic?
  }

  function Apply(st: State, step: Step): State {
    match step
    case Watch(a) =>
      if a in st.active then st
      else st.(active := st.active + {a}, queue := if st.link.Down? then 0 else st.queue + 1)
    case Unwatch(a) => st.(active := st.active - {a})
    case LocalAdd(a) => st.(filter := st.filter + {a})
    case Disconnect => st.(link := Down, queue := 0)
    case Connect =>
      if !st.link.Down? || ListenerBusy(st) then st else st.(link := Listening, queue := 0)
    case Begin(id, kind) =>
      var enabled := match kind
        case Resync => st.link.Listening?
        case Notified => !st.link.Down? && st.queue > 0
        case Periodic => true;
      if id in st.reloads || !enabled then st
      else st.(reloads := st.reloads[id := Reload(kind, Requested)],
               queue := if kind.Notified? then st.queue - 1 else st.queue,
               overlapped := st.overlapped || st.reloads != map[])
    case List(id) =>
      if id !in st.reloads || !st.reloads[id].phase.Requested? then st
      else st.(reloads := st.reloads[id := st.reloads[id].(phase := Listed(st.active))])
    case FailList(id) =>
      if id !in st.reloads || !st.reloads[id].phase.Requested? then st
      else
        var kind := st.reloads[id].kind;
        st.(reloads := st.reloads - {id},
            link := if kind.Resync? then Down else st.link,
            queue := if kind.Resync? then 0 else st.queue,
            missed := st.missed || kind.Notified?)
    case Swap(id) =>
      if id !in st.reloads || !st.reloads[id].phase.Listed? then st
      else st.(filter := st.reloads[id].phase.rows,
               reloads := st.reloads - {id},
               link := if st.reloads[id].kind.Resync? && st.link.Listening? then Synced else st.link)
  }

  function Run(st: State, steps: seq<Step>): State
    decreases |steps|
  {
    if steps == [] then st else Run(Apply(st, steps[0]), steps[1..])
  }

  /** Every active address is in `rows`, or a notification that will bring it is queued. */
  ghost predicate Promised(st: State, rows: set<string>) {
    st.queue > 0 || st.active <= rows
  }

  ghost predicate ReloadOk(st: State, r: Reload) {
    match r.phase
    case Requested => st.link.Synced? && r.kind.Periodic? ==> Promised(st, st.filter)
    case Listed(rows) => st.link.Synced? || (st.link.Listening? && r.kind.Resync?) ==> Promised(st, rows)
  }

  ghost predicate Inv(st: State) {
    st.overlapped || st.missed
    || (&& (forall i, j :: i in st.reloads && j in st.reloads ==> i == j)
        && (forall i :: i in st.reloads ==> ReloadOk(st, st.reloads[i]))
        && (st.reloads == map[] && st.link.Synced? ==> Promised(st, st.filter))
        && (st.link.Synced? ==> forall i :: i in st.reloads ==> !st.reloads[i].kind.Resync?))
  }

  lemma BeginKeepsInv(st: State, id: nat, kind: Kind)
    requires Inv(st)
    ensures Inv(Apply(st, Begin(id, kind)))
  {
    var st' := Apply(st, Begin(id, kind));
    if st' != st && st.reloads == map[] {
      assert st'.reloads == map[id := Reload(kind, Requested)];
    }
  }

  lemma EndKeepsInv(st: State, step: Step)
    requires Inv(st) && (step.Swap? || step.FailList?)
    ensures Inv(Apply(st, step))
  {
    var st' := Apply(st, step);
    if st' != st && !st.overlapped && !st.missed {
      assert ReloadOk(st, st.reloads[step.id]);
      assert forall i :: i in st.reloads ==> i == step.id;
      assert st'.reloads == map[];
    }
  }

  lemma StepKeepsInv(st: State, step: Step)
    requires Inv(st)
    ensures Inv(Apply(st, step))
  {
    match step
    case Begin(id, kind) => BeginKeepsInv(st, id, kind);
    case Swap(_) => EndKeepsInv(st, step);
    case FailList(_) => EndKeepsInv(st, step);
    case Watch(_) =>
    case Unwatch(_) =>
    case LocalAdd(_) =>
    case Disconnect =>
    case Connect =>
    case List(_) =>
  }

  lemma {:induction false} RunKeepsInv(st: State, steps: seq<Step>)
    requires Inv(st)
    ensures Inv(Run(st, steps))
    decreases |steps|
  {
    if steps == [] {
    } else {
      StepKeepsInv(st, steps[0]);
      RunKeepsInv(Apply(st, steps[0]), steps[1..]);
    }
  }

  /** Disconnected with no reload under way; table and filter may disagree in any way. */
  predicate Cold(st: State) {
    st.link.Down? && st.reloads == map[] && !st.overlapped && !st.missed
  }

  ghost predicate Settled(st: State) {
    st.link.Synced? && st.queue == 0 && st.reloads == map[]
  }

  /** No lost watch: in every run in which reloads do not overlap and no notified reload fails,
      whenever the listener is resynced with an empty queue and no reload under way, every active address
      is in the filter, however connections dropped and local additions raced with swaps. */
  lemma NoLostWatch(st: State, steps: seq<Step>)
    requires Cold(st)
    requires var end := Run(st, steps); Settled(end) && !end.overlapped && !end.missed
    ensures var end := Run(st, steps); end.active <= end.filter
  {
    RunKeepsInv(st, steps);
  }

  predicate NoConnect(steps: seq<Step>) {
    forall i :: 0 <= i < |steps| ==> !steps[i].Connect?
  }

  /** Why every reconnect needs a resync: from a disconnect on until the next connection nothing is queued, whatever
      is added meanwhile, and what was queued before is gone. */
  lemma DeafWhileDown(st: State, steps: seq<Step>)
    requires NoConnect(steps)
    ensures var end := Run(Apply(st, Disconnect), steps); end.link.Down? && end.queue == 0
  {
    StaysDown(Apply(st, Disconnect), steps);
  }

  lemma {:induction false} StaysDown(st: State, steps: seq<Step>)
    requires NoConnect(steps) && st.link.Down? && st.queue == 0
    ensures Run(st, steps).link.Down? && Run(st, steps).queue == 0
    decreases |steps|
  {
    if steps == [] {
    } else {
      StaysDown(Apply(st, steps[0]), steps[1..]);
    }
  }

  /** A failed resync drops the connection with all that was queued. */
  lemma FailedResyncDisconnects(st: State, id: nat)
    requires id in st.reloads && st.reloads[id] == Reload(Resync, Requested)
    ensures var end := Apply(st, FailList(id)); end.link.Down? && end.queue == 0 && id !in end.reloads && end.filter == st.filter
  {
  }

  // ----- When exactly an address is missing

  lemma {:induction false} ListedStays(st: State, steps: seq<Step>, id: nat)
    requires id in st.reloads && st.reloads[id].phase.Listed? && Swap(id) !in steps
    ensures id in Run(st, steps).reloads && Run(st, steps).reloads[id] == st.reloads[id]
    decreases |steps|
  {
    if steps == [] {
    } else {
      assert steps[0] in steps;
      ListedStays(Apply(st, steps[0]), steps[1..], id);
    }
  }

  predicate NoSwap(steps: seq<Step>) {
    forall i :: 0 <= i < |steps| ==> !steps[i].Swap?
  }

  lemma {:induction false} FilterSince(st: State, steps: seq<Step>, a: string)
    requires NoSwap(steps)
    ensures a in Run(st, steps).filter <==> a in st.filter || LocalAdd(a) in steps
    decreases |steps|
  {
    if steps == [] {
    } else {
      FilterSince(Apply(st, steps[0]), steps[1..], a);
      assert steps == [steps[0]] + steps[1..];
    }
  }

  /** Whatever failed and overlapped before: once reload `id`, which listed the rows after `earlier`, was the
      last to swap, an active address is missing if and only if it was not active when the rows were listed and was
      not added on this replica since the swap. */
  lemma LostWatchIff(st: State, earlier: seq<Step>, id: nat, between: seq<Step>, later: seq<Step>, a: string)
    requires var listing := Run(st, earlier); id in listing.reloads && listing.reloads[id].phase.Requested?
    requires Swap(id) !in between && NoSwap(later)
    ensures var listing := Run(st, earlier);
            var swapped := Apply(Run(Apply(listing, List(id)), between), Swap(id));
            var end := Run(swapped, later);
            (a in end.active && a !in end.filter) <==> (a in end.active && a !in listing.active && LocalAdd(a) !in later)
  {
    var listing := Run(st, earlier);
    var listed := Apply(listing, List(id));
    ListedStays(listed, between, id);
    FilterSince(Apply(Run(listed, between), Swap(id)), later, a);
  }

  // ----- Both hypotheses are needed

  lemma RunOne(st: State, step: Step, rest: seq<Step>)
    ensures Run(st, [step] + rest) == Run(Apply(st, step), rest)
  {
    assert ([step] + rest)[0] == step && ([step] + rest)[1..] == rest;
  }

  /** A resynced listener over an empty watchlist. */
  const IDLE := State({}, {}, Synced, 0, map[], false, false)

  /** An idle replica is what a first connection leads to. */
  lemma IdleIsReachable()
    ensures Run(State({}, {}, Down, 0, map[], false, false), [Connect] + ([Begin(0, Resync)] + ([List(0)] + [Swap(0)]))) == IDLE
  {
    var s0 := State({}, {}, Down, 0, map[], false, false);
    var s1 := s0.(link := Listening);
    var s2 := s1.(reloads := map[0 := Reload(Resync, Requested)]);
    var s3 := s1.(reloads := map[0 := Reload(Resync, Listed({}))]);
    RunOne(s0, Connect, [Begin(0, Resync)] + ([List(0)] + [Swap(0)]));
    RunOne(s1, Begin(0, Resync), [List(0)] + [Swap(0)]);
    RunOne(s2, List(0), [Swap(0)]);
    assert [Swap(0)] + [] == [Swap(0)];
    RunOne(s3, Swap(0), []);
    assert s3.reloads - {0} == map[];
  }

  /** If a notified reload fails, its address is missing until something else reloads. */
  lemma FailedReloadLosesWatch(a: string)
    ensures var end := Run(IDLE, [Watch(a)] + ([Begin(1, Notified)] + [FailList(1)]));
            Settled(end) && !end.overlapped && a in end.active && a !in end.filter
  {
    var s1 := IDLE.(active := {a}, queue := 1);
    var s2 := s1.(queue := 0, reloads := map[1 := Reload(Notified, Requested)]);
    RunOne(IDLE, Watch(a), [Begin(1, Notified)] + [FailList(1)]);
    assert Apply(IDLE, Watch(a)) == s1;
    RunOne(s1, Begin(1, Notified), [FailList(1)]);
    assert [FailList(1)] + [] == [FailList(1)];
    RunOne(s2, FailList(1), []);
    assert s2.reloads - {1} == map[];
  }

  /** A periodic reload has listed an empty table, a row appeared since, and the reload its
      notification asked for has begun. */
  function StaleList(a: string): State {
    State({a}, {}, Synced, 0, map[1 := Reload(Periodic, Listed({})), 2 := Reload(Notified, Requested)], true, false)
  }

  lemma StaleListIsReachable(a: string, rest: seq<Step>)
    ensures Run(IDLE, [Begin(1, Periodic)] + ([List(1)] + ([Watch(a)] + ([Begin(2, Notified)] + rest)))) == Run(StaleList(a), rest)
  {
    var s1 := IDLE.(reloads := map[1 := Reload(Periodic, Requested)]);
    var s2 := IDLE.(reloads := map[1 := Reload(Periodic, Listed({}))]);
    var s3 := s2.(active := {a}, queue := 1);
    RunOne(IDLE, Begin(1, Periodic), [List(1)] + ([Watch(a)] + ([Begin(2, Notified)] + rest)));
    RunOne(s1, List(1), [Watch(a)] + ([Begin(2, Notified)] + rest));
    RunOne(s2, Watch(a), [Begin(2, Notified)] + rest);
    assert Apply(IDLE, Begin(1, Periodic)) == s1;
    assert Apply(s1, List(1)) == s2;
    assert Apply(s2, Watch(a)) == s3;
    RunOne(s3, Begin(2, Notified), rest);
    assert 1 in s3.reloads;
    assert Apply(s3, Begin(2, Notified)) == StaleList(a);
  }

  /** If a periodic reload lists before the row appears and swaps after the notified reload
      did, the old list wins and the address is missing. */
  lemma OverlappingReloadsLoseWatch(a: string)
    ensures var end := Run(IDLE, [Begin(1, Periodic)] + ([List(1)] + ([Watch(a)] + ([Begin(2, Notified)] + ([List(2)] + ([Swap(2)] + [Swap(1)]))))));
            Settled(end) && !end.missed && a in end.active && a !in end.filter
  {
    StaleListIsReachable(a, [List(2)] + ([Swap(2)] + [Swap(1)]));
    var s4 := StaleList(a);
    var s5 := s4.(reloads := s4.reloads[2 := Reload(Notified, Listed({a}))]);
    var s6 := s4.(reloads := map[1 := Reload(Periodic, Listed({}))], filter := {a});
    RunOne(s4, List(2), [Swap(2)] + [Swap(1)]);
    RunOne(s5, Swap(2), [Swap(1)]);
    assert Apply(s4, List(2)) == s5;
    assert s5.reloads - {2} == s6.reloads;
    assert Apply(s5, Swap(2)) == s6;
    assert [Swap(1)] + [] == [Swap(1)];
    RunOne(s6, Swap(1), []);
    assert s6.reloads - {1} == map[];
    var end := State({a}, {}, Synced, 0, map[], true, false);
    assert Apply(s6, Swap(1)) == end;
  }
}
