/** The pool of API keys: handed out in turn, skipping keys that cool down after a rate limit. */
module KeyPool {
  import opened Base
  import opened TransferKeys

  datatype ApiKey = ApiKey(value: string, until: int)

  datatype Pool = Pool(keys: seq<ApiKey>, next: nat)

  predicate Valid(p: Pool) {
    if p.keys == [] then p.next == 0 else p.next < |p.keys|
  }

  predicate Ready(p: Pool, i: nat, now: int) {
    i < |p.keys| && p.keys[i].until <= now
  }

  /** Steps from the turn index to key `i`, going round. */
  function Distance(p: Pool, i: nat): (d: nat)
    requires Valid(p) && i < |p.keys|
    ensures d < |p.keys|
  {
    if p.next <= i then i - p.next else i + |p.keys| - p.next
  }

  function After(p: Pool, i: nat): nat
    requires i < |p.keys|
  {
    if i + 1 == |p.keys| then 0 else i + 1
  }

  /** The ready key nearest to the turn index. */
  ghost predicate IsTurn(p: Pool, now: int, i: nat) {
    && Valid(p) && Ready(p, i, now)
    && forall j :: Ready(p, j, now) ==> Distance(p, i) <= Distance(p, j)
  }

  lemma WrapOnce(x: nat, n: nat)
    requires x < n + n
    ensures x % n == if x < n then x else x - n
  {
    if x >= n {
      assert x == 1 * n + (x - n);
      assert x / n == 1;
    }
  }

  lemma WrapIndex(p: Pool, offset: nat)
    requires Valid(p) && offset < |p.keys|
    ensures var i := (p.next + offset) % |p.keys|;
            i < |p.keys| && Distance(p, i) == offset && (i + 1) % |p.keys| == After(p, i)
  {
    WrapOnce(p.next + offset, |p.keys|);
    WrapOnce(if p.next + offset < |p.keys| then p.next + offset + 1 else p.next + offset - |p.keys| + 1, |p.keys|);
  }

  predicate HasValue(keys: seq<ApiKey>, v: string) {
    exists i :: 0 <= i < |keys| && keys[i].value == v
  }

  /** `v` is the trimmed form of one of the parts. */
  predicate Given(parts: seq<string>, v: string) {
    exists k :: 0 <= k < |parts| && TrimSpace(parts[k]) == v
  }

  lemma HasValueLast(keys: seq<ApiKey>, last: ApiKey)
    ensures forall v :: HasValue(keys + [last], v) <==> HasValue(keys, v) || v == last.value
  {
    forall v
      ensures HasValue(keys + [last], v) <==> HasValue(keys, v) || v == last.value
    {
      assert forall i :: 0 <= i < |keys| ==> (keys + [last])[i] == keys[i];
      assert (keys + [last])[|keys|] == last;
    }
  }

  lemma GivenLast(parts: seq<string>, last: string)
    ensures forall v :: Given(parts + [last], v) <==> Given(parts, v) || v == TrimSpace(last)
  {
    forall v
      ensures Given(parts + [last], v) <==> Given(parts, v) || v == TrimSpace(last)
    {
      assert forall k :: 0 <= k < |parts| ==> (parts + [last])[k] == parts[k];
      assert (parts + [last])[|parts|] == last;
    }
  }

  function Split(raw: string): seq<string> {
    var i := IndexOfComma(raw);
    if i < |raw| then [raw[..i]] + Split(raw[i + 1..]) else [raw]
  }

  function IndexOfComma(s: string): (i: nat)
    ensures i <= |s| && ',' !in s[..i] && (i < |s| ==> s[i] == ',')
  {
    if s == "" || s[0] == ',' then 0
    else
      var i := 1 + IndexOfComma(s[1..]);
      assert s[..i] == [s[0]] + s[1..][..i - 1];
      i
  }

  datatype Op = Pick(now: int) | Cool(index: int, duration: int, now: int)

  /** One look at the pool, and what others do to it before the next. */
  datatype Look = Look(now: int, meanwhile: seq<Op>)

  /** The pool that look `k` finds when the looks before it found no key. */
  function PoolAt(p: Pool, looks: seq<Look>, k: nat): (p': Pool)
    requires Valid(p) && k <= |looks|
    ensures Valid(p') && |p'.keys| == |p.keys|
  {
    if k == 0 then p else Run(PoolAt(p, looks, k - 1), looks[k - 1].meanwhile)
  }

  /** None of the looks before look `k` found a ready key. */
  ghost predicate FirstReady(p: Pool, looks: seq<Look>, k: nat)
    requires Valid(p) && k <= |looks|
  {
    forall m, i :: 0 <= m < k ==> !Ready(PoolAt(p, looks, m), i, looks[m].now)
  }

  class ApiKeyPool {
    var pool: Pool

    /** Splits a comma-separated list, trims the values and drops empty and repeated ones. */
    constructor (raw: string)
      ensures Valid(pool) && pool.next == 0
      ensures forall i :: 0 <= i < |pool.keys| ==> pool.keys[i].value != "" && pool.keys[i].until == 0
      ensures forall i, j :: 0 <= i < j < |pool.keys| ==> pool.keys[i].value != pool.keys[j].value
      ensures forall v :: HasValue(pool.keys, v) <==> v != "" && Given(Split(raw), v)
    {
      var parts := Split(raw);
      var keys: seq<ApiKey> := [];
      var seen: set<string> := {};
      for k := 0 to |parts|
        invariant forall i :: 0 <= i < |keys| ==> keys[i].value != "" && keys[i].until == 0
        invariant forall i, j :: 0 <= i < j < |keys| ==> keys[i].value != keys[j].value
        invariant forall v :: v in seen <==> HasValue(keys, v)
        invariant forall v :: v in seen <==> v != "" && Given(parts[..k], v)
      {
        var value := TrimSpace(parts[k]);
        GivenLast(parts[..k], parts[k]);
        assert parts[..k + 1] == parts[..k] + [parts[k]];
        if value == "" {
          continue;
        }
        if value in seen {
          continue;
        }
        seen := seen + {value};
        HasValueLast(keys, ApiKey(value, 0));
        keys := keys + [ApiKey(value, 0)];
      }
      assert parts[..|parts|] == parts;
      pool := Pool(keys, 0);
    }

    /** One look at the clock and all keys: the key whose turn it is, or the earliest time at
        which one becomes ready. */
    method TryNext(now: int) returns (picked: Option<nat>, earliest: int)
      requires Valid(pool) && pool.keys != []
      modifies this
      ensures Valid(pool) && pool == Apply(old(pool), Pick(now)) && picked == Search(old(pool), 0, now)
      ensures picked.Some? ==> IsTurn(old(pool), now, picked.value) && pool == old(pool).(next := After(pool, picked.value))
      ensures picked.None? ==> && pool == old(pool) && earliest > now
                               && (forall i :: 0 <= i < |pool.keys| ==> earliest <= pool.keys[i].until)
                               && (exists i :: 0 <= i < |pool.keys| && pool.keys[i].until == earliest)
    {
      var n := |pool.keys|;
      earliest := 0;
      var offset := 0;
      while offset < n
        invariant offset <= n && pool == old(pool)
        invariant forall j :: 0 <= j < n && Distance(pool, j) < offset ==> pool.keys[j].until > now && earliest <= pool.keys[j].until
        invariant offset > 0 ==> earliest > now && exists j :: 0 <= j < n && pool.keys[j].until == earliest
      {
        WrapIndex(pool, offset);
        var index := (pool.next + offset) % n;
        var key := pool.keys[index];
        SameDistance(pool, index);
        if key.until <= now {
          assert IsTurn(pool, now, index);
          TurnIsFound(pool, now, index);
          pool := pool.(next := (index + 1) % n);
          return Some(index), earliest;
        }
        if offset == 0 || key.until < earliest {
          earliest := key.until;
        }
        offset := offset + 1;
      }
      SearchFindsTurn(pool, 0, now);
      picked := None;
    }

    /** Looks for a key until one is ready; after each look that finds none, other callers pick and
        cool keys while this one waits. The caller gives up when the looks end. */
    method NextAvailable(looks: seq<Look>) returns (index: int, value: string)
      requires Valid(pool)
      modifies this
      ensures Valid(pool) && |pool.keys| == |old(pool).keys|
      ensures old(pool).keys == [] ==> index == -1 && value == "" && pool == old(pool)
      ensures index >= 0 ==>
                exists k :: 0 <= k < |looks| && FirstReady(old(pool), looks, k)
                            && IsTurn(PoolAt(old(pool), looks, k), looks[k].now, index)
                            && pool == PoolAt(old(pool), looks, k).(next := After(pool, index)) && value == pool.keys[index].value
      ensures index < 0 && old(pool).keys != [] ==>
                index == -1 && FirstReady(old(pool), looks, |looks|) && pool == PoolAt(old(pool), looks, |looks|)
    {
      if |pool.keys| == 0 {
        return -1, "";
      }
      for k := 0 to |looks|
        invariant Valid(pool) && |pool.keys| == |old(pool).keys|
        invariant pool == PoolAt(old(pool), looks, k) && FirstReady(old(pool), looks, k)
      {
        var picked, earliest := TryNext(looks[k].now);
        if picked.Some? {
          return picked.value, pool.keys[picked.value].value;
        }
        pool := Run(pool, looks[k].meanwhile);
      }
      return -1, "";
    }

    method Cooldown(index: int, duration: int, now: int)
      requires Valid(pool)
      modifies this
      ensures pool == Cooled(old(pool), index, duration, now) && Valid(pool)
    {
      if index < 0 || duration <= 0 {
        return;
      }
      if index >= |pool.keys| {
        return;
      }
      var until := now + duration;
      if until > pool.keys[index].until {
        pool := pool.(keys := pool.keys[index := pool.keys[index].(until := until)]);
      }
    }
  }

  /** Different keys are at different distances. */
  lemma SameDistance(p: Pool, i: nat)
    requires Valid(p) && i < |p.keys|
    ensures forall j :: 0 <= j < |p.keys| && Distance(p, j) == Distance(p, i) ==> j == i
  {
  }

  function Cooled(p: Pool, index: int, duration: int, now: int): Pool {
    if index < 0 || duration <= 0 || index >= |p.keys| then p
    else p.(keys := p.keys[index := p.keys[index].(until := Max(p.keys[index].until, now + duration))])
  }

  // ----- Runs of picks and cooldowns

  /** The first ready key from `offset` steps past the turn index on. */
  function Search(p: Pool, offset: nat, now: int): (r: Option<nat>)
    requires Valid(p)
    ensures r.Some? ==> r.value < |p.keys|
    decreases |p.keys| - offset
  {
    if offset >= |p.keys| then None
    else
      var i := if p.next + offset < |p.keys| then p.next + offset else p.next + offset - |p.keys|;
      if p.keys[i].until <= now then Some(i) else Search(p, offset + 1, now)
  }

  lemma {:induction false} SearchFindsTurn(p: Pool, offset: nat, now: int)
    requires Valid(p)
    requires forall j :: Ready(p, j, now) ==> Distance(p, j) >= offset
    ensures match Search(p, offset, now)
            case None => forall j :: !Ready(p, j, now)
            case Some(i) => IsTurn(p, now, i)
    decreases |p.keys| - offset
  {
    if offset < |p.keys| {
      var i := if p.next + offset < |p.keys| then p.next + offset else p.next + offset - |p.keys|;
      assert Distance(p, i) == offset;
      SameDistance(p, i);
      if p.keys[i].until > now {
        SearchFindsTurn(p, offset + 1, now);
      }
    }
  }

  lemma TurnIsFound(p: Pool, now: int, i: nat)
    requires IsTurn(p, now, i)
    ensures Search(p, 0, now) == Some(i)
  {
    SearchFindsTurn(p, 0, now);
    SameDistance(p, i);
  }

  function Apply(p: Pool, op: Op): (p': Pool)
    requires Valid(p)
    ensures Valid(p') && |p'.keys| == |p.keys|
  {
    match op
    case Pick(now) =>
      SearchFindsTurn(p, 0, now);
      (match Search(p, 0, now)
       case None => p
       case Some(i) => p.(next := After(p, i)))
    case Cool(i, d, now) => Cooled(p, i, d, now)
  }

  function Run(p: Pool, ops: seq<Op>): (p': Pool)
    requires Valid(p)
    ensures Valid(p') && |p'.keys| == |p.keys|
    decreases |ops|
  {
    if ops == [] then p else Run(Apply(p, ops[0]), ops[1..])
  }

  /** The keys a run hands out, in order. */
  function Picks(p: Pool, ops: seq<Op>): seq<nat>
    requires Valid(p)
    decreases |ops|
  {
    if ops == [] then []
    else
      var rest := Picks(Apply(p, ops[0]), ops[1..]);
      if ops[0].Pick? && Search(p, 0, ops[0].now).Some? then [Search(p, 0, ops[0].now).value] + rest else rest
  }

  /** Key `i` is ready at every pick of the run. */
  predicate AlwaysReady(p: Pool, ops: seq<Op>, i: nat)
    requires Valid(p)
    decreases |ops|
  {
    ops == [] || ((ops[0].Pick? ==> Ready(p, i, ops[0].now)) && AlwaysReady(Apply(p, ops[0]), ops[1..], i))
  }

  /** A key is never handed out while it cools down. */
  lemma PickedIsReady(p: Pool, now: int)
    requires Valid(p)
    ensures Search(p, 0, now).Some? ==> Ready(p, Search(p, 0, now).value, now)
    ensures Search(p, 0, now).None? <==> forall j :: !Ready(p, j, now)
  {
    SearchFindsTurn(p, 0, now);
  }

  /** Cooldown deadlines never move earlier. */
  lemma {:induction false} DeadlinesRise(p: Pool, ops: seq<Op>, i: nat)
    requires Valid(p) && i < |p.keys|
    ensures Run(p, ops).keys[i].until >= p.keys[i].until && Run(p, ops).keys[i].value == p.keys[i].value
    decreases |ops|
  {
    if ops == [] {
    } else {
      DeadlinesRise(Apply(p, ops[0]), ops[1..], i);
    }
  }

  /** After every run a key is ready if and only if each cooldown it was ever given has run out, however picks and
      cooldowns of other keys came in between. */
  lemma {:induction false} ReadyIff(p: Pool, ops: seq<Op>, i: nat, now: int)
    requires Valid(p) && i < |p.keys|
    ensures Ready(Run(p, ops), i, now) <==>
            && Ready(p, i, now)
            && forall k :: 0 <= k < |ops| && ops[k].Cool? && ops[k].index == i && ops[k].duration > 0 ==> ops[k].now + ops[k].duration <= now
    decreases |ops|
  {
    if ops == [] {
    } else {
      var rest := ops[1..];
      ReadyIff(Apply(p, ops[0]), rest, i, now);
      assert forall k :: 0 <= k < |rest| ==> rest[k] == ops[k + 1];
      assert forall k :: 0 < k < |ops| ==> ops[k] == rest[k - 1];
    }
  }

  /** A pick that passes over a ready key brings its turn strictly closer. */
  lemma PickApproaches(p: Pool, now: int, i: nat)
    requires Valid(p) && Ready(p, i, now)
    ensures var picked := Search(p, 0, now);
            && picked.Some?
            && Distance(p, picked.value) <= Distance(p, i)
            && (picked.value != i ==>
                  Distance(Apply(p, Pick(now)), i) == Distance(p, i) - Distance(p, picked.value) - 1)
  {
    SearchFindsTurn(p, 0, now);
    SameDistance(p, i);
  }

  /** A key that stays ready waits for at most as many picks as it is steps from its turn. */
  lemma {:induction false} ReadyKeyIsPicked(p: Pool, ops: seq<Op>, i: nat)
    requires Valid(p) && i < |p.keys| && AlwaysReady(p, ops, i)
    ensures i in Picks(p, ops) || |Picks(p, ops)| <= Distance(p, i)
    decreases |ops|
  {
    if ops == [] {
    } else {
      ReadyKeyIsPicked(Apply(p, ops[0]), ops[1..], i);
      if ops[0].Pick? {
        PickApproaches(p, ops[0].now, i);
      }
    }
  }

  /** So among any `n` picks from a pool of `n` keys every key that stays ready is picked. */
  lemma PickedWithinOneRound(p: Pool, ops: seq<Op>, i: nat)
    requires Valid(p) && i < |p.keys| && AlwaysReady(p, ops, i) && |Picks(p, ops)| >= |p.keys|
    ensures i in Picks(p, ops)
  {
    ReadyKeyIsPicked(p, ops, i);
  }

  lemma {:induction false} ServedBefore(p: Pool, ops: seq<Op>, i: nat, j: nat, b: nat)
    requires Valid(p) && i < |p.keys| && j < |p.keys| && Distance(p, i) < Distance(p, j) && AlwaysReady(p, ops, i)
    requires b < |Picks(p, ops)| && Picks(p, ops)[b] == j
    ensures i in Picks(p, ops)[..b]
    decreases |ops|
  {
    var next := Apply(p, ops[0]);
    if ops[0].Pick? {
      PickApproaches(p, ops[0].now, i);
      var picked := Search(p, 0, ops[0].now).value;
      if picked == i {
        assert Picks(p, ops)[0] == i;
      } else {
        assert Distance(next, i) < Distance(next, j);
        ServedBefore(next, ops[1..], i, j, b - 1);
        assert Picks(p, ops)[..b] == [picked] + Picks(next, ops[1..])[..b - 1];
      }
    } else {
      ServedBefore(next, ops[1..], i, j, b);
    }
  }

  /** Between two picks of one key, every other key that stays ready gets its turn. */
  lemma FairBetweenPicks(p: Pool, now: int, ops: seq<Op>, i: nat, j: nat, b: nat)
    requires Valid(p) && Search(p, 0, now) == Some(j) && i != j && i < |p.keys|
    requires var after := Apply(p, Pick(now));
             AlwaysReady(after, ops, i) && b < |Picks(after, ops)| && Picks(after, ops)[b] == j
    ensures i in Picks(Apply(p, Pick(now)), ops)[..b]
  {
    SearchFindsTurn(p, 0, now);
    var after := Apply(p, Pick(now));
    assert Distance(after, i) < Distance(after, j);
    ServedBefore(after, ops, i, j, b);
  }
}
