/** The in-memory view of the webhook endpoints, and the signing keys an endpoint delivers under. */
module EndpointStore {
  import opened Base

  datatype Endpoint = Endpoint(id: string, url: string, secret: string, previous: string, active: bool)

  ghost predicate UniqueIds(eps: seq<Endpoint>) {
    forall i, j :: 0 <= i < j < |eps| ==> eps[i].id != eps[j].id
  }

  /** The id map and the ordered list hold the same endpoints. */
  ghost predicate Consistent(byId: map<string, Endpoint>, ordered: seq<Endpoint>) {
    && UniqueIds(ordered)
    && (forall i :: 0 <= i < |ordered| ==> ordered[i].id in byId && byId[ordered[i].id] == ordered[i])
    && (forall id :: id in byId ==> Listed(ordered, id))
  }

  ghost predicate Listed(eps: seq<Endpoint>, id: string) {
    exists i :: 0 <= i < |eps| && eps[i].id == id
  }

  /** The list with the endpoint replaced where it stands, or appended. */
  function Upserted(eps: seq<Endpoint>, ep: Endpoint): seq<Endpoint> {
    if eps == [] then [ep]
    else if eps[0].id == ep.id then [ep] + eps[1..]
    else [eps[0]] + Upserted(eps[1..], ep)
  }

  function Removed(eps: seq<Endpoint>, id: string): seq<Endpoint> {
    if eps == [] then []
    else
      var last := eps[|eps| - 1];
      Removed(eps[..|eps| - 1], id) + if last.id != id then [last] else []
  }

  function Lookup(eps: seq<Endpoint>, id: string): Option<Endpoint> {
    if eps == [] then None else if eps[0].id == id then Some(eps[0]) else Lookup(eps[1..], id)
  }

  lemma {:induction false} UpsertedPointwise(eps: seq<Endpoint>, ep: Endpoint, i: nat)
    requires forall j :: 0 <= j < |eps| && j < i ==> eps[j].id != ep.id
    requires i <= |eps| && (i < |eps| ==> eps[i].id == ep.id)
    ensures Upserted(eps, ep) == if i < |eps| then eps[i := ep] else eps + [ep]
  {
    if eps != [] && i > 0 {
      UpsertedPointwise(eps[1..], ep, i - 1);
    }
  }

  lemma {:induction false} RemovedMembers(eps: seq<Endpoint>, id: string)
    requires UniqueIds(eps)
    ensures UniqueIds(Removed(eps, id))
    ensures forall e :: e in Removed(eps, id) <==> e in eps && e.id != id
    decreases |eps|
  {
    if eps == [] {
    } else {
      var front := eps[..|eps| - 1];
      RemovedMembers(front, id);
      assert eps == front + [eps[|eps| - 1]];
      assert forall i :: 0 <= i < |Removed(front, id)| ==> Removed(front, id)[i] in front;
    }
  }

  lemma RemovedConsistent(byId: map<string, Endpoint>, ordered: seq<Endpoint>, id: string)
    requires Consistent(byId, ordered)
    ensures Consistent(byId - {id}, Removed(ordered, id))
  {
    RemovedMembers(ordered, id);
    var kept := Removed(ordered, id);
    forall i | 0 <= i < |kept|
      ensures kept[i].id in byId - {id} && byId[kept[i].id] == kept[i]
    {
      assert kept[i] in kept;
    }
    forall k | k in byId - {id}
      ensures Listed(kept, k)
    {
      var j :| 0 <= j < |ordered| && ordered[j].id == k;
      assert ordered[j] in kept;
      var i :| 0 <= i < |kept| && kept[i] == ordered[j];
    }
  }

  lemma UpsertedIndexed(byId: map<string, Endpoint>, ordered: seq<Endpoint>, ep: Endpoint, i: nat)
    requires forall j :: 0 <= j < |ordered| ==> ordered[j].id in byId && byId[ordered[j].id] == ordered[j]
    requires i < |ordered| ==> forall j :: i < j < |ordered| ==> ordered[j].id != ep.id
    requires i <= |ordered| && (i < |ordered| ==> ordered[i].id == ep.id) && forall j :: 0 <= j < i ==> ordered[j].id != ep.id
    ensures var next, map' := (if i < |ordered| then ordered[i := ep] else ordered + [ep]), byId[ep.id := ep];
            forall j :: 0 <= j < |next| ==> next[j].id in map' && map'[next[j].id] == next[j]
  {
  }

  lemma UpsertedListed(ordered: seq<Endpoint>, ep: Endpoint, i: nat, id: string)
    requires i <= |ordered| && (i < |ordered| ==> ordered[i].id == ep.id)
    requires id == ep.id || Listed(ordered, id)
    ensures Listed(if i < |ordered| then ordered[i := ep] else ordered + [ep], id)
  {
    var next := if i < |ordered| then ordered[i := ep] else ordered + [ep];
    if id == ep.id {
      assert next[i].id == id;
    } else {
      var j :| 0 <= j < |ordered| && ordered[j].id == id;
      assert next[j].id == id;
    }
  }

  lemma UpsertedConsistent(byId: map<string, Endpoint>, ordered: seq<Endpoint>, ep: Endpoint, i: nat)
    requires Consistent(byId, ordered)
    requires i <= |ordered| && (i < |ordered| ==> ordered[i].id == ep.id) && forall j :: 0 <= j < i ==> ordered[j].id != ep.id
    ensures Upserted(ordered, ep) == if i < |ordered| then ordered[i := ep] else ordered + [ep]
    ensures Consistent(byId[ep.id := ep], Upserted(ordered, ep))
  {
    UpsertedPointwise(ordered, ep, i);
    UpsertKeepsUnique(ordered, ep);
    UpsertedIndexed(byId, ordered, ep, i);
    forall id | id in byId[ep.id := ep]
      ensures Listed(Upserted(ordered, ep), id)
    {
      UpsertedListed(ordered, ep, i, id);
    }
  }

  // ----- Histories of the store

  datatype Op = DoReload(eps: seq<Endpoint>) | DoUpsert(ep: Endpoint) | DoRemove(id: string)

  function Apply(eps: seq<Endpoint>, op: Op): seq<Endpoint> {
    match op
    case DoReload(all) => all
    case DoUpsert(ep) => Upserted(eps, ep)
    case DoRemove(id) => Removed(eps, id)
  }

  function Run(eps: seq<Endpoint>, ops: seq<Op>): seq<Endpoint>
    decreases |ops|
  {
    if ops == [] then eps else Apply(Run(eps, ops[..|ops| - 1]), ops[|ops| - 1])
  }

  function Position(eps: seq<Endpoint>, id: string): (i: nat)
    ensures i <= |eps| && (i < |eps| ==> eps[i].id == id) && forall j :: 0 <= j < i ==> eps[j].id != id
  {
    if eps == [] || eps[0].id == id then 0 else 1 + Position(eps[1..], id)
  }

  /** Since when an id has been in the list without interruption: the number of the operation
      that brought it, and for a reload its place among the listed ones. A reload brings all it lists. */
  function Arrived(ops: seq<Op>, id: string): Option<(nat, nat)>
    decreases |ops|
  {
    if ops == [] then None
    else
      var front := Arrived(ops[..|ops| - 1], id);
      match ops[|ops| - 1]
      case DoReload(all) => if Position(all, id) < |all| then Some((|ops|, Position(all, id))) else None
      case DoUpsert(ep) => if ep.id == id && front.None? then Some((|ops|, 0)) else front
      case DoRemove(k) => if k == id then None else front
  }

  /** Both are in the list, and `x` has been there longer. */
  predicate Before(ops: seq<Op>, x: string, y: string) {
    && Arrived(ops, x).Some? && Arrived(ops, y).Some?
    && var a, b := Arrived(ops, x).value, Arrived(ops, y).value;
       a.0 < b.0 || (a.0 == b.0 && a.1 < b.1)
  }

  /** The list stands in order of arrival, and holds exactly the ids that have arrived. */
  ghost predicate InOrder(ops: seq<Op>, eps: seq<Endpoint>) {
    && Sorted(ops, eps)
    && (forall i :: 0 <= i < |eps| ==> Arrived(ops, eps[i].id).Some?)
    && (forall id :: Arrived(ops, id).Some? ==> Listed(eps, id))
  }

  ghost predicate ListsAreKeyed(ops: seq<Op>) {
    forall i :: 0 <= i < |ops| && ops[i].DoReload? ==> UniqueIds(ops[i].eps)
  }

  lemma ArrivedByNow(ops: seq<Op>, id: string)
    ensures Arrived(ops, id).Some? ==> Arrived(ops, id).value.0 <= |ops|
    decreases |ops|
  {
    if ops != [] {
      ArrivedByNow(ops[..|ops| - 1], id);
    }
  }

  lemma PositionAt(eps: seq<Endpoint>, i: nat)
    requires UniqueIds(eps) && i < |eps|
    ensures Position(eps, eps[i].id) == i
  {
  }

  lemma ReloadInOrder(ops: seq<Op>, all: seq<Endpoint>)
    requires UniqueIds(all)
    ensures InOrder(ops + [DoReload(all)], all)
  {
    var next := ops + [DoReload(all)];
    assert next[..|ops|] == ops;
    forall i | 0 <= i < |all|
      ensures Arrived(next, all[i].id) == Some((|next|, i))
    {
      PositionAt(all, i);
    }
    forall id | Arrived(next, id).Some?
      ensures Listed(all, id)
    {
      assert all[Position(all, id)].id == id;
    }
  }

  lemma ArrivedOneMore(ops: seq<Op>, op: Op, id: string)
    requires !op.DoReload?
    ensures Arrived(ops + [op], id) == if op == DoRemove(id) then None
                                       else if op.DoUpsert? && op.ep.id == id && Arrived(ops, id).None? then Some((|ops| + 1, 0))
                                       else Arrived(ops, id)
  {
    assert (ops + [op])[..|ops|] == ops;
  }

  /** Ids that keep their arrival keep their order. */
  lemma SameArrivals(ops: seq<Op>, next: seq<Op>, x: string, y: string)
    requires Before(ops, x, y) && Arrived(next, x) == Arrived(ops, x) && Arrived(next, y) == Arrived(ops, y)
    ensures Before(next, x, y)
  {
  }

  lemma AppendInOrder(ops: seq<Op>, eps: seq<Endpoint>, ep: Endpoint)
    requires InOrder(ops, eps) && !Listed(eps, ep.id)
    ensures InOrder(ops + [DoUpsert(ep)], eps + [ep])
  {
    var next, after := ops + [DoUpsert(ep)], eps + [ep];
    ArrivedOneMore(ops, DoUpsert(ep), ep.id);
    forall i | 0 <= i < |eps|
      ensures Arrived(next, eps[i].id) == Arrived(ops, eps[i].id) && Before(next, eps[i].id, ep.id)
    {
      ArrivedOneMore(ops, DoUpsert(ep), eps[i].id);
      ArrivedByNow(ops, eps[i].id);
    }
    forall i, j | 0 <= i < j < |eps|
      ensures Before(next, eps[i].id, eps[j].id)
    {
      SameArrivals(ops, next, eps[i].id, eps[j].id);
    }
    forall id | Arrived(next, id).Some?
      ensures Listed(after, id)
    {
      ArrivedOneMore(ops, DoUpsert(ep), id);
      UpsertedListed(eps, ep, |eps|, id);
    }
  }

  lemma ReplaceInOrder(ops: seq<Op>, eps: seq<Endpoint>, ep: Endpoint, at: nat)
    requires InOrder(ops, eps) && at < |eps| && eps[at].id == ep.id
    ensures InOrder(ops + [DoUpsert(ep)], eps[at := ep])
  {
    var next, after := ops + [DoUpsert(ep)], eps[at := ep];
    forall i | 0 <= i < |eps|
      ensures after[i].id == eps[i].id && Arrived(next, eps[i].id) == Arrived(ops, eps[i].id)
    {
      ArrivedOneMore(ops, DoUpsert(ep), eps[i].id);
    }
    forall i, j | 0 <= i < j < |eps|
      ensures Before(next, eps[i].id, eps[j].id)
    {
      SameArrivals(ops, next, eps[i].id, eps[j].id);
    }
    forall id | Arrived(next, id).Some?
      ensures Listed(after, id)
    {
      ArrivedOneMore(ops, DoUpsert(ep), id);
      UpsertedListed(eps, ep, at, id);
    }
  }

  lemma UpsertInOrder(ops: seq<Op>, eps: seq<Endpoint>, ep: Endpoint)
    requires InOrder(ops, eps)
    ensures InOrder(ops + [DoUpsert(ep)], Upserted(eps, ep))
  {
    var at := Position(eps, ep.id);
    UpsertedPointwise(eps, ep, at);
    if at == |eps| {
      AppendInOrder(ops, eps, ep);
    } else {
      ReplaceInOrder(ops, eps, ep, at);
    }
  }

  /** The list in order of arrival, as far as it goes. */
  ghost predicate Sorted(ops: seq<Op>, eps: seq<Endpoint>) {
    forall i, j :: 0 <= i < j < |eps| ==> Before(ops, eps[i].id, eps[j].id)
  }

  lemma {:induction false} RemovedWithin(eps: seq<Endpoint>, id: string)
    ensures forall e :: e in Removed(eps, id) ==> e in eps
    decreases |eps|
  {
    if eps == [] {
    } else {
      RemovedWithin(eps[..|eps| - 1], id);
    }
  }

  /** Removing keeps the rest in the order it had. */
  lemma {:induction false} RemovedKeepsOrder(ops: seq<Op>, eps: seq<Endpoint>, id: string)
    requires Sorted(ops, eps)
    ensures Sorted(ops, Removed(eps, id))
    decreases |eps|
  {
    if eps == [] {
    } else {
      var front, last := eps[..|eps| - 1], eps[|eps| - 1];
      RemovedKeepsOrder(ops, front, id);
      RemovedWithin(front, id);
      var kept := Removed(front, id);
      forall i | 0 <= i < |kept|
        ensures Before(ops, kept[i].id, last.id)
      {
        assert kept[i] in front;
        var j :| 0 <= j < |front| && front[j] == kept[i];
        assert eps[j] == kept[i];
      }
      assert Sorted(ops, kept + [last]);
    }
  }

  lemma RemoveInOrder(ops: seq<Op>, eps: seq<Endpoint>, id: string)
    requires InOrder(ops, eps) && UniqueIds(eps)
    ensures InOrder(ops + [DoRemove(id)], Removed(eps, id))
  {
    var next, kept := ops + [DoRemove(id)], Removed(eps, id);
    RemovedKeepsOrder(ops, eps, id);
    forall i | 0 <= i < |kept|
      ensures Arrived(next, kept[i].id) == Arrived(ops, kept[i].id) && Arrived(ops, kept[i].id).Some?
    {
      RemovedArrived(ops, eps, id, i);
      ArrivedOneMore(ops, DoRemove(id), kept[i].id);
    }
    forall i, j | 0 <= i < j < |kept|
      ensures Before(next, kept[i].id, kept[j].id)
    {
      SameArrivals(ops, next, kept[i].id, kept[j].id);
    }
    forall k | Arrived(next, k).Some?
      ensures Listed(kept, k)
    {
      ArrivedOneMore(ops, DoRemove(id), k);
      StillListed(eps, id, k);
    }
  }

  lemma RemovedArrived(ops: seq<Op>, eps: seq<Endpoint>, id: string, i: nat)
    requires InOrder(ops, eps) && UniqueIds(eps) && i < |Removed(eps, id)|
    ensures Removed(eps, id)[i].id != id && Arrived(ops, Removed(eps, id)[i].id).Some?
  {
    RemovedMembers(eps, id);
    var e := Removed(eps, id)[i];
    assert e in Removed(eps, id);
    var j :| 0 <= j < |eps| && eps[j] == e;
  }

  lemma StillListed(eps: seq<Endpoint>, id: string, k: string)
    requires UniqueIds(eps) && Listed(eps, k) && k != id
    ensures Listed(Removed(eps, id), k)
  {
    RemovedMembers(eps, id);
    var i :| 0 <= i < |eps| && eps[i].id == k;
    var kept := Removed(eps, id);
    assert eps[i] in kept;
    var j :| 0 <= j < |kept| && kept[j] == eps[i];
  }

  /** After any history the list stands in order of arrival. */
  lemma {:induction false} RunInOrder(ops: seq<Op>)
    requires ListsAreKeyed(ops)
    ensures UniqueIds(Run([], ops)) && InOrder(ops, Run([], ops))
    decreases |ops|
  {
    if ops == [] {
    } else {
      var front, eps := ops[..|ops| - 1], Run([], ops[..|ops| - 1]);
      RunInOrder(front);
      assert ops == front + [ops[|ops| - 1]];
      match ops[|ops| - 1]
      case DoReload(all) => ReloadInOrder(front, all);
      case DoUpsert(ep) =>
        UpsertKeepsUnique(eps, ep);
        UpsertInOrder(front, eps, ep);
      case DoRemove(k) =>
        RemovedMembers(eps, k);
        RemoveInOrder(front, eps, k);
    }
  }

  lemma RunOneMore(ops: seq<Op>, op: Op)
    requires ListsAreKeyed(ops) && (op.DoReload? ==> UniqueIds(op.eps))
    ensures ListsAreKeyed(ops + [op]) && Run([], ops + [op]) == Apply(Run([], ops), op)
  {
    assert (ops + [op])[..|ops|] == ops;
  }

  class WebhookConfigStore {
    var byId: map<string, Endpoint>
    var ordered: seq<Endpoint>
    ghost var history: seq<Op>

    ghost predicate Valid()
      reads this
    {
      Consistent(byId, ordered) && ListsAreKeyed(history) && ordered == Run([], history)
    }

    constructor ()
      ensures Valid() && history == []
    {
      byId, ordered, history := map[], [], [];
    }

    /** `eps` is what the database lists, or nothing when listing fails; its ids are a primary key. */
    method Reload(eps: Option<seq<Endpoint>>) returns (ok: bool)
      requires Valid() && (eps.Some? ==> UniqueIds(eps.value))
      modifies this
      ensures Valid() && ok == eps.Some?
      ensures history == if ok then old(history) + [DoReload(eps.value)] else old(history)
      ensures ordered == if ok then eps.value else old(ordered)
    {
      if eps.None? {
        return false;
      }
      var index: map<string, Endpoint> := map[];
      for i := 0 to |eps.value|
        invariant forall j :: 0 <= j < i ==> eps.value[j].id in index && index[eps.value[j].id] == eps.value[j]
        invariant forall id :: id in index ==> exists j :: 0 <= j < i && eps.value[j].id == id
      {
        index := index[eps.value[i].id := eps.value[i]];
      }
      byId, ordered := index, eps.value;
      RunOneMore(history, DoReload(eps.value));
      history := history + [DoReload(eps.value)];
      ok := true;
    }

    method UpsertEndpoint(ep: Endpoint)
      requires Valid()
      modifies this
      ensures Valid() && history == old(history) + [DoUpsert(ep)]
      ensures ordered == Upserted(old(ordered), ep)
    {
      byId := byId[ep.id := ep];
      var found := false;
      var i := 0;
      while i < |ordered| && !found
        invariant i <= |ordered| && ordered == old(ordered)
        invariant forall j :: 0 <= j < i && !found ==> ordered[j].id != ep.id
        invariant found ==> i < |ordered| && ordered[i].id == ep.id && forall j :: 0 <= j < i ==> ordered[j].id != ep.id
        decreases |ordered| - i, !found
      {
        if ordered[i].id == ep.id {
          found := true;
        } else {
          i := i + 1;
        }
      }
      UpsertedConsistent(old(byId), ordered, ep, i);
      ordered := if found then ordered[i := ep] else ordered + [ep];
      RunOneMore(history, DoUpsert(ep));
      history := history + [DoUpsert(ep)];
    }

    method RemoveEndpoint(id: string)
      requires Valid()
      modifies this
      ensures Valid() && history == old(history) + [DoRemove(id)]
      ensures ordered == Removed(old(ordered), id)
    {
      byId := byId - {id};
      var filtered: seq<Endpoint> := [];
      for i := 0 to |ordered|
        invariant filtered == Removed(ordered[..i], id) && ordered == old(ordered) && byId == old(byId) - {id}
      {
        assert ordered[..i + 1][..i] == ordered[..i];
        if ordered[i].id != id {
          filtered := filtered + [ordered[i]];
        }
      }
      assert ordered[..|ordered|] == ordered;
      RemovedConsistent(old(byId), ordered, id);
      ordered := filtered;
      RunOneMore(history, DoRemove(id));
      history := history + [DoRemove(id)];
    }

    method GetEndpoint(id: string) returns (ep: Option<Endpoint>)
      requires Valid()
      ensures ep == Lookup(ordered, id)
    {
      LookupIsMap(byId, ordered, id);
      ep := if id in byId then Some(byId[id]) else None;
    }

    /** The endpoint that has been in the list longest. */
    method GetPrimaryEndpoint() returns (ep: Option<Endpoint>)
      requires Valid()
      ensures ep.None? ==> forall id :: Arrived(history, id).None?
      ensures ep.Some? ==> ep == Lookup(ordered, ep.value.id)
      ensures ep.Some? ==> forall id :: Arrived(history, id).Some? ==> id == ep.value.id || Before(history, ep.value.id, id)
    {
      RunInOrder(history);
      ep := if |ordered| == 0 then None else Some(ordered[0]);
    }
  }

  lemma {:induction false} LookupPosition(eps: seq<Endpoint>, id: string)
    ensures match Lookup(eps, id)
            case None => forall i :: 0 <= i < |eps| ==> eps[i].id != id
            case Some(e) => exists i :: 0 <= i < |eps| && eps[i] == e && e.id == id
  {
    if eps != [] && eps[0].id != id {
      LookupPosition(eps[1..], id);
      if Lookup(eps, id).Some? {
        var i :| 0 <= i < |eps[1..]| && eps[1..][i] == Lookup(eps, id).value;
        assert eps[i + 1] == Lookup(eps, id).value;
      } else {
        assert forall i :: 1 <= i < |eps| ==> eps[i] == eps[1..][i - 1];
      }
    }
  }

  lemma LookupIsMap(byId: map<string, Endpoint>, ordered: seq<Endpoint>, id: string)
    requires Consistent(byId, ordered)
    ensures Lookup(ordered, id) == if id in byId then Some(byId[id]) else None
  {
    LookupPosition(ordered, id);
  }

  /** What a history last said about an id: the last upsert, removal or reload that settles it. */
  function LastSaid(ops: seq<Op>, id: string): Option<Endpoint>
    decreases |ops|
  {
    if ops == [] then None
    else
      match ops[|ops| - 1]
      case DoReload(all) => Lookup(all, id)
      case DoUpsert(ep) => if ep.id == id then Some(ep) else LastSaid(ops[..|ops| - 1], id)
      case DoRemove(k) => if k == id then None else LastSaid(ops[..|ops| - 1], id)
  }

  lemma {:induction false} LookupAfterUpsert(eps: seq<Endpoint>, ep: Endpoint, id: string)
    ensures Lookup(Upserted(eps, ep), id) == if ep.id == id then Some(ep) else Lookup(eps, id)
  {
    if eps != [] {
      LookupAfterUpsert(eps[1..], ep, id);
      var u := Upserted(eps, ep);
      assert u[1..] == if eps[0].id == ep.id then eps[1..] else Upserted(eps[1..], ep);
    } else {
      assert [ep][1..] == [];
    }
  }

  lemma {:induction false} UpsertKeepsUnique(eps: seq<Endpoint>, ep: Endpoint)
    requires UniqueIds(eps)
    ensures UniqueIds(Upserted(eps, ep))
  {
    var i := Position(eps, ep.id);
    UpsertedPointwise(eps, ep, i);
  }

  lemma LookupAfterRemove(eps: seq<Endpoint>, k: string, id: string)
    requires UniqueIds(eps)
    ensures Lookup(Removed(eps, k), id) == if k == id then None else Lookup(eps, id)
  {
    RemovedMembers(eps, k);
    LookupPosition(eps, id);
    LookupPosition(Removed(eps, k), id);
    if Lookup(eps, id).Some? {
      assert Lookup(eps, id).value in eps;
    }
    if Lookup(Removed(eps, k), id).Some? {
      assert Lookup(Removed(eps, k), id).value in Removed(eps, k);
    }
  }

  /** After any history of reloads, upserts and removals the ids are unique and looking an id up
      answers what the history last said about it. */
  lemma {:induction false} StoreFollowsHistory(ops: seq<Op>, id: string)
    requires ListsAreKeyed(ops)
    ensures UniqueIds(Run([], ops))
    ensures Lookup(Run([], ops), id) == LastSaid(ops, id)
    decreases |ops|
  {
    if ops == [] {
    } else {
      var front, eps := ops[..|ops| - 1], Run([], ops[..|ops| - 1]);
      StoreFollowsHistory(front, id);
      match ops[|ops| - 1]
      case DoReload(_) =>
      case DoUpsert(ep) =>
        LookupAfterUpsert(eps, ep, id);
        UpsertKeepsUnique(eps, ep);
      case DoRemove(k) =>
        RemovedMembers(eps, k);
        LookupAfterRemove(eps, k, id);
    }
  }

  /** An upsert never changes which endpoint is the primary one. */
  lemma PrimaryIsStable(eps: seq<Endpoint>, ep: Endpoint)
    requires eps != []
    ensures Upserted(eps, ep)[0].id == eps[0].id
  {
  }

  // ----- Signing key rotation

  /** The active and the previous signing key of a stored endpoint. */
  datatype Keys = Keys(secret: string, previous: string)

  /** Saving a key over a row, or a new row. Saving the same key again keeps the previous one. */
  function Save(row: Option<Keys>, key: string): Keys {
    match row
    case None => Keys(key, "")
    case Some(k) => Keys(key, if k.secret != "" && k.secret != key then k.secret else k.previous)
  }

  function SigningSecrets(k: Keys): seq<string> {
    (if k.secret != "" then [k.secret] else [])
    + (if k.previous != "" && k.previous != k.secret then [k.previous] else [])
  }

  function Saved(history: seq<string>): Option<Keys>
    decreases |history|
  {
    if history == [] then None else Some(Save(Saved(history[..|history| - 1]), history[|history| - 1]))
  }

  /** The history with consecutive repeats collapsed. */
  function Collapse(history: seq<string>): (c: seq<string>)
    decreases |history|
    ensures history != [] ==> c != [] && c[|c| - 1] == history[|history| - 1]
  {
    if history == [] then []
    else
      var front := Collapse(history[..|history| - 1]);
      var last := history[|history| - 1];
      if front != [] && front[|front| - 1] == last then front else front + [last]
  }

  function NewestTwo(c: seq<string>): seq<string> {
    if c == [] then [] else if |c| == 1 then [c[0]] else [c[|c| - 1], c[|c| - 2]]
  }

  lemma {:induction false} RotationKeeps(history: seq<string>)
    requires history != [] && forall i :: 0 <= i < |history| ==> history[i] != ""
    ensures var k, c := Saved(history).value, Collapse(history);
            && k.secret == c[|c| - 1] != ""
            && k.previous == (if |c| == 1 then "" else c[|c| - 2])
            && (|c| > 1 ==> c[|c| - 2] != "" && c[|c| - 2] != c[|c| - 1])
    decreases |history|
  {
    if |history| > 1 {
      RotationKeeps(history[..|history| - 1]);
    } else {
      assert Collapse(history[..0]) == [];
    }
  }

  /** After any sequence of saves an endpoint signs with the two newest different keys. */
  lemma SignsWithNewestTwo(history: seq<string>)
    requires history != [] && forall i :: 0 <= i < |history| ==> history[i] != ""
    ensures SigningSecrets(Saved(history).value) == NewestTwo(Collapse(history))
  {
    RotationKeeps(history);
  }
}
