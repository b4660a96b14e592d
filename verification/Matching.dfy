/** Which transfers concern a watched address. A Bloom filter gives a fast first answer; the
    database confirms it through a per-batch cache with bounded retries that fails open. The claim:
    the fast path never loses a watched address and, without errors, is the exact watchlist. */
module Matching {
  import opened Base
  import opened TransferKeys
  import Outbox

  // ----- The prefilter

  function Locations(hash: (string, nat) -> nat, k: nat, address: string): set<nat> {
    if k == 0 then {} else Locations(hash, k - 1, address) + {hash(address, k - 1)}
  }

  /** The bits of an address are the values of the `k` hash functions. */
  lemma {:induction false} LocationsIff(hash: (string, nat) -> nat, k: nat, address: string, bit: nat)
    ensures bit in Locations(hash, k, address) <==> exists i: nat :: i < k && hash(address, i) == bit
  {
    if k == 0 {
    } else {
      LocationsIff(hash, k - 1, address, bit);
    }
  }

  function AllLocations(hash: (string, nat) -> nat, k: nat, addresses: seq<string>): set<nat> {
    if addresses == [] then {}
    else AllLocations(hash, k, addresses[..|addresses| - 1]) + Locations(hash, k, addresses[|addresses| - 1])
  }

  lemma {:induction false} LocationsInAll(hash: (string, nat) -> nat, k: nat, addresses: seq<string>, a: string)
    requires a in addresses
    ensures Locations(hash, k, a) <= AllLocations(hash, k, addresses)
    decreases |addresses|
  {
    var front, last := addresses[..|addresses| - 1], addresses[|addresses| - 1];
    if a != last {
      assert addresses == front + [last];
      LocationsInAll(hash, k, front, a);
    }
  }

  /** A bit set with `k` hash functions whose values are left open. */
  class BloomFilter {
    const hash: (string, nat) -> nat
    const k: nat
    var bits: set<nat>
    var count: nat

    constructor (hash: (string, nat) -> nat, k: nat)
      ensures this.hash == hash && this.k == k && bits == {} && count == 0
    {
      this.hash, this.k := hash, k;
      bits, count := {}, 0;
    }

    predicate Contains(address: string)
      reads this
    {
      Locations(hash, k, address) <= bits
    }

    method Add(address: string)
      modifies this
      ensures bits == old(bits) + Locations(hash, k, address) && count == old(count) + 1
      ensures Contains(address) && forall a :: old(Contains(a)) ==> Contains(a)
    {
      var i := 0;
      while i < k
        invariant i <= k
        invariant bits == old(bits) + Locations(hash, i, address) && count == old(count)
      {
        bits := bits + {hash(address, i)};
        i := i + 1;
      }
      count := count + 1;
    }

    method AddBatch(addresses: seq<string>)
      modifies this
      ensures bits == old(bits) + AllLocations(hash, k, addresses) && count == old(count) + |addresses|
      ensures forall a :: a in addresses || old(Contains(a)) ==> Contains(a)
    {
      for i := 0 to |addresses|
        invariant bits == old(bits) + AllLocations(hash, k, addresses[..i]) && count == old(count)
      {
        assert addresses[..i + 1][..i] == addresses[..i];
        bits := bits + Locations(hash, k, addresses[i]);
      }
      count := count + |addresses|;
      assert addresses[..|addresses|] == addresses;
      forall a | a in addresses
        ensures Contains(a)
      {
        LocationsInAll(hash, k, addresses, a);
      }
    }
  }

  // ----- The database as the confirmation sees it

  datatype DbReply = Answer | Fault | Cancelled

  /** Call `n` answers from the watchlist `active(n)`, faults, or is cancelled; `rested(n)` says
      whether the pause after a fault ran to its end. */
  class WatchlistDb {
    const replies: nat -> DbReply
    const rested: nat -> bool
    const active: nat -> set<string>
    var calls: nat

    constructor (replies: nat -> DbReply, rested: nat -> bool, active: nat -> set<string>)
      ensures this.replies == replies && this.rested == rested && this.active == active && calls == 0
    {
      this.replies, this.rested, this.active := replies, rested, active;
      calls := 0;
    }

    method Lookup(addresses: seq<string>) returns (reply: DbReply, found: map<string, bool>)
      modifies this
      ensures calls == old(calls) + 1 && reply == replies(old(calls))
      ensures reply.Answer? ==> forall a :: a in addresses ==> a in found && (found[a] <==> a in active(old(calls)))
    {
      reply := replies(calls);
      found := map a | a in addresses :: a in active(calls);
      calls := calls + 1;
    }
  }

  const MAX_ATTEMPTS := 3

  /** Call `n` ended a lookup for good: cancelled, cut off in the pause after a fault, or the last
      of three faults in a row. */
  predicate GaveUp(db: WatchlistDb, n: nat) {
    || db.replies(n).Cancelled?
    || (db.replies(n).Fault? && !db.rested(n))
    || (n >= 2 && db.replies(n).Fault? && db.replies(n - 1).Fault? && db.replies(n - 2).Fault?)
  }

  /** Some call so far answered that `a` is (not) on the watchlist. */
  ghost predicate Answered(db: WatchlistDb, a: string, isActive: bool)
    reads db
  {
    exists n: nat :: n < db.calls && db.replies(n).Answer? && (a in db.active(n) <==> isActive)
  }

  /** Some call so far ended its lookup without an answer. */
  ghost predicate Troubled(db: WatchlistDb)
    reads db
  {
    exists n: nat :: n < db.calls && GaveUp(db, n)
  }

  /** `Stopped` is a cancellation or a pause cut short, `Exhausted` three faults. */
  datatype Lookup = Found | Stopped | Exhausted

  /** At most three calls; a cancellation or an interrupted pause ends them early. `last` is the
      call that decided. */
  method LookupWithRetry(db: WatchlistDb, addresses: seq<string>) returns (result: Lookup, found: map<string, bool>, ghost last: nat)
    modifies db
    ensures old(db.calls) <= last && db.calls == last + 1 && db.calls <= old(db.calls) + MAX_ATTEMPTS
    ensures forall n :: old(db.calls) <= n < last ==> db.replies(n).Fault? && db.rested(n)
    ensures result.Found? <==> db.replies(last).Answer?
    ensures result.Found? ==> forall a :: a in addresses ==> a in found && (found[a] <==> a in db.active(last))
    ensures !result.Found? ==> GaveUp(db, last)
    ensures result.Exhausted? <==> db.calls == old(db.calls) + MAX_ATTEMPTS && db.replies(last).Fault?
  {
    found, last := map[], db.calls;
    var attempt := 0;
    while true
      invariant attempt < MAX_ATTEMPTS && db.calls == old(db.calls) + attempt
      invariant forall n :: old(db.calls) <= n < db.calls ==> db.replies(n).Fault? && db.rested(n)
      decreases MAX_ATTEMPTS - attempt
    {
      var reply;
      last := db.calls;
      reply, found := db.Lookup(addresses);
      if reply.Answer? {
        return Found, found, last;
      }
      if reply.Cancelled? {
        return Stopped, found, last;
      }
      if attempt + 1 == MAX_ATTEMPTS {
        return Exhausted, found, last;
      }
      if !db.rested(db.calls - 1) {
        return Stopped, found, last;
      }
      attempt := attempt + 1;
    }
  }

  /** The distinct non-empty addresses that the cache does not know, in order of appearance. */
  method UniqueStringsNotCached(addresses: seq<string>, cache: map<string, bool>) returns (out: seq<string>)
    ensures forall a :: a in out <==> a in addresses && a != "" && a !in cache
    ensures forall i, j :: 0 <= i < j < |out| ==> out[i] != out[j]
  {
    out := [];
    var seen: set<string> := {};
    for i := 0 to |addresses|
      invariant forall a :: a in out <==> a in addresses[..i] && a != "" && a !in cache
      invariant forall a :: a in seen <==> a in out
      invariant forall i, j :: 0 <= i < j < |out| ==> out[i] != out[j]
    {
      var a := addresses[i];
      assert addresses[..i + 1] == addresses[..i] + [a];
      if a == "" {
        continue;
      }
      if a in cache {
        continue;
      }
      if a in seen {
        continue;
      }
      seen := seen + {a};
      out := out + [a];
    }
    assert addresses[..|addresses|] == addresses;
  }

  /** A verdict has a reason: a refusal was answered by the database, an acceptance was answered
      by it or let through because a lookup was given up. */
  ghost predicate Reason(db: WatchlistDb, a: string, verdict: bool)
    reads db
  {
    if verdict then Answered(db, a, true) || Troubled(db) else Answered(db, a, false)
  }

  ghost predicate Justified(db: WatchlistDb, cache: map<string, bool>)
    reads db
  {
    "" !in cache && forall a :: a in cache ==> Reason(db, a, cache[a])
  }

  /** Entries are added, never changed. */
  ghost predicate Extends(before: map<string, bool>, after: map<string, bool>) {
    forall a :: a in before ==> a in after && after[a] == before[a]
  }

  /** What every operation of a cache keeps. */
  twostate predicate Kept(db: WatchlistDb, before: map<string, bool>, after: map<string, bool>)
    reads db
  {
    Justified(db, after) && Extends(before, after) && db.calls >= old(db.calls)
  }

  class AddressConfirm {
    const db: WatchlistDb
    var cache: map<string, bool>

    constructor (db: WatchlistDb)
      ensures this.db == db && cache == map[] && Justified(db, cache)
    {
      this.db := db;
      cache := map[];
    }

    method PopulateCache(address: string)
      requires Justified(db, cache)
      modifies this, db
      ensures Kept(db, old(cache), cache)
      ensures cache.Keys == old(cache).Keys + if address == "" then {} else {address}
      ensures address == "" || address in old(cache) ==> db.calls == old(db.calls)
    {
      if address == "" || address in cache {
        return;
      }
      var result, found, last := LookupWithRetry(db, [address]);
      assert address in [address];
      var verdict := if result.Found? then found[address] else true;
      cache := cache[address := verdict];
    }

    /** Stores the answers of one batch lookup. */
    method StoreAnswers(need: seq<string>, found: map<string, bool>, ghost last: nat)
      requires Justified(db, cache) && "" !in need
      requires last < db.calls && db.replies(last).Answer?
      requires forall a :: a in need ==> a !in cache && a in found && (found[a] <==> a in db.active(last))
      requires forall i, j :: 0 <= i < j < |need| ==> need[i] != need[j]
      modifies this
      ensures Kept(db, old(cache), cache)
      ensures forall a :: a in cache <==> a in old(cache) || a in need
    {
      for i := 0 to |need|
        invariant Justified(db, cache) && Extends(old(cache), cache)
        invariant forall a :: a in cache <==> a in old(cache) || a in need[..i]
      {
        assert need[..i + 1] == need[..i] + [need[i]];
        assert need[i] in need;
        cache := cache[need[i] := found[need[i]]];
      }
      assert need[..|need|] == need;
    }

    method FailOpenAddresses(addresses: seq<string>)
      requires Justified(db, cache) && "" !in addresses && Troubled(db)
      requires forall a :: a in addresses ==> a !in cache
      modifies this
      ensures Kept(db, old(cache), cache)
      ensures forall a :: a in cache <==> a in old(cache) || a in addresses
    {
      for i := 0 to |addresses|
        invariant Justified(db, cache) && Extends(old(cache), cache)
        invariant forall a :: a in cache <==> a in old(cache) || a in addresses[..i]
      {
        assert addresses[..i + 1] == addresses[..i] + [addresses[i]];
        assert addresses[i] in addresses;
        cache := cache[addresses[i] := true];
      }
      assert addresses[..|addresses|] == addresses;
    }

    method PopulateEach(addresses: seq<string>)
      requires Justified(db, cache) && "" !in addresses
      modifies this, db
      ensures Kept(db, old(cache), cache)
      ensures forall a :: a in cache <==> a in old(cache) || a in addresses
    {
      for i := 0 to |addresses|
        invariant Kept(db, old(cache), cache)
        invariant forall a :: a in cache <==> a in old(cache) || a in addresses[..i]
      {
        assert addresses[..i + 1] == addresses[..i] + [addresses[i]];
        assert addresses[i] in addresses;
        PopulateCache(addresses[i]);
      }
      assert addresses[..|addresses|] == addresses;
    }

    /** One lookup for all addresses. If it is stopped all of them are let through; if its
        attempts are exhausted each address is looked up by itself. */
    method Prefetch(addresses: seq<string>)
      requires Justified(db, cache)
      modifies this, db
      ensures Kept(db, old(cache), cache)
      ensures forall a :: a in cache <==> a in old(cache) || (a in addresses && a != "")
      ensures (forall a :: a in addresses ==> a == "" || a in old(cache)) ==> db.calls == old(db.calls)
      ensures db.calls <= old(db.calls) + MAX_ATTEMPTS || Troubled(db)
    {
      var need := UniqueStringsNotCached(addresses, cache);
      if |need| == 0 {
        return;
      }
      assert need[0] in need;
      var result, found, last := LookupWithRetry(db, need);
      match result
      case Found => StoreAnswers(need, found, last);
      case Stopped => FailOpenAddresses(need);
      case Exhausted => PopulateEach(need);
    }

    method IsActive(address: string) returns (active: bool)
      requires Justified(db, cache)
      modifies this, db
      ensures Kept(db, old(cache), cache)
      ensures active <==> address in cache && cache[address]
      ensures address != "" ==> address in cache
      ensures address == "" || address in old(cache) ==> db.calls == old(db.calls)
    {
      if address in cache {
        return cache[address];
      }
      PopulateCache(address);
      if address !in cache {
        return false;
      }
      active := cache[address];
    }
  }

  /** The addresses of a transfer that the prefilter lets through, each once. */
  method BloomConfirmCandidates(filter: BloomFilter, from: string, to: string) returns (out: seq<string>)
    ensures forall a :: a in out <==> (a == from || a == to) && filter.Contains(a)
    ensures forall i, j :: 0 <= i < j < |out| ==> out[i] != out[j]
  {
    out := [];
    if filter.Contains(to) {
      out := out + [to];
    }
    if filter.Contains(from) && from != to {
      out := out + [from];
    }
  }

  /** Whether a role counts as watched: past the prefilter, not empty, and not refused. */
  ghost predicate Watched(filter: BloomFilter, cache: map<string, bool>, address: string)
    reads filter
  {
    filter.Contains(address) && address in cache && cache[address]
  }

  /** One event per watched role of a transfer. */
  method MatchedTransferEvents(filter: BloomFilter, confirm: AddressConfirm, scope: string, t: Outbox.Transfer, block: int, tip: int)
    returns (out: seq<RawEvent>)
    requires Justified(confirm.db, confirm.cache)
    modifies confirm, confirm.db
    ensures Kept(confirm.db, old(confirm.cache), confirm.cache)
    ensures filter.Contains(t.to) && t.to != "" ==> t.to in confirm.cache
    ensures filter.Contains(t.from) && t.from != "" ==> t.from in confirm.cache
    ensures Asked(filter, old(confirm.cache), t) ==> confirm.db.calls == old(confirm.db.calls)
    ensures var watched := set a | a in {t.from, t.to} && Watched(filter, confirm.cache, a);
            out == Outbox.Matches(watched, scope, t, block, tip)
    ensures forall e :: e in out <==>
              exists d :: e == Outbox.EventOf(scope, t, d, block, tip) && Outbox.Party(t, d) != "" && Watched(filter, confirm.cache, Outbox.Party(t, d))
  {
    out := [];
    if !filter.Contains(t.to) && !filter.Contains(t.from) {
      MatchedIff(filter, confirm.cache, scope, t, block, tip);
      return;
    }
    var base := RawEvent(if scope == Outbox.TRX then Trx else Trc20, Received, t.txHash, t.from, t.to, t.amount,
                         if scope == Outbox.TRX then "" else scope, block, t.timestamp, Outbox.Confirmations(tip, block));
    if filter.Contains(t.to) {
      var active := confirm.IsActive(t.to);
      if active {
        out := out + [base];
      }
    }
    if filter.Contains(t.from) {
      var active := confirm.IsActive(t.from);
      if active {
        out := out + [base.(direction := Broadcasted)];
      }
    }
    MatchedIff(filter, confirm.cache, scope, t, block, tip);
  }

  lemma MatchedIff(filter: BloomFilter, cache: map<string, bool>, scope: string, t: Outbox.Transfer, block: int, tip: int)
    ensures var watched := set a | a in {t.from, t.to} && Watched(filter, cache, a);
            forall e :: e in Outbox.Matches(watched, scope, t, block, tip) <==>
              exists d :: e == Outbox.EventOf(scope, t, d, block, tip) && Outbox.Party(t, d) != "" && Watched(filter, cache, Outbox.Party(t, d))
  {
    var watched := set a | a in {t.from, t.to} && Watched(filter, cache, a);
    Outbox.MatchesIff(watched, scope, t, block, tip);
    assert forall d :: Outbox.Party(t, d) in watched <==> Watched(filter, cache, Outbox.Party(t, d));
  }

  // ----- What the cache and the prefilter guarantee together

  ghost predicate Covers(filter: BloomFilter, addresses: set<string>)
    reads filter
  {
    forall a :: a in addresses ==> filter.Contains(a)
  }

  /** Whatever fails: an address that is active at every call is never refused, and an address
      is refused only when a call said so. */
  lemma NeverRefusesWatched(db: WatchlistDb, cache: map<string, bool>, a: string)
    requires Justified(db, cache) && a in cache
    ensures (forall n :: a in db.active(n)) ==> cache[a]
    ensures !cache[a] ==> exists n: nat :: n < db.calls && db.replies(n).Answer? && a !in db.active(n)
  {
    assert Reason(db, a, cache[a]);
  }

  /** The database is steady: whenever it answers it is from `watchlist`, and every lookup gets
      its answer within its attempts. Single faults may occur. */
  ghost predicate Steady(db: WatchlistDb, watchlist: set<string>) {
    forall n: nat :: !GaveUp(db, n) && (db.replies(n).Answer? ==> db.active(n) == watchlist)
  }

  /** Over a steady database the cached verdicts are the watchlist. */
  lemma CacheIsExact(db: WatchlistDb, cache: map<string, bool>, watchlist: set<string>, a: string)
    requires Justified(db, cache) && a in cache && Steady(db, watchlist)
    ensures cache[a] <==> a in watchlist
  {
    assert Reason(db, a, cache[a]);
  }

  /** The events of a transfer depend on which of its own addresses are watched, no others. */
  lemma MatchesByRoles(x: set<string>, y: set<string>, scope: string, t: Outbox.Transfer, block: int, tip: int)
    requires t.to != "" ==> (t.to in x <==> t.to in y)
    requires t.from != "" ==> (t.from in x <==> t.from in y)
    ensures Outbox.Matches(x, scope, t, block, tip) == Outbox.Matches(y, scope, t, block, tip)
  {
  }

  lemma {:induction false} MatchAllByRoles(x: set<string>, y: set<string>, scope: string, ts: seq<Outbox.Transfer>, block: int, tip: int)
    requires forall i :: 0 <= i < |ts| && ts[i].to != "" ==> (ts[i].to in x <==> ts[i].to in y)
    requires forall i :: 0 <= i < |ts| && ts[i].from != "" ==> (ts[i].from in x <==> ts[i].from in y)
    ensures Outbox.MatchAll(x, scope, ts, block, tip) == Outbox.MatchAll(y, scope, ts, block, tip)
  {
    if ts == [] {
    } else {
      MatchesByRoles(x, y, scope, ts[0], block, tip);
      MatchAllByRoles(x, y, scope, ts[1..], block, tip);
    }
  }

  /** An address takes part in one of the transfers. */
  ghost predicate TakesPart(ts: seq<Outbox.Transfer>, a: string) {
    exists i :: 0 <= i < |ts| && (ts[i].to == a || ts[i].from == a)
  }

  method PrefetchTransfers(filter: BloomFilter, confirm: AddressConfirm, ts: seq<Outbox.Transfer>)
    requires Justified(confirm.db, confirm.cache)
    modifies confirm, confirm.db
    ensures Kept(confirm.db, old(confirm.cache), confirm.cache)
    ensures forall i :: 0 <= i < |ts| ==> Asked(filter, confirm.cache, ts[i])
    ensures confirm.db.calls <= old(confirm.db.calls) + MAX_ATTEMPTS || Troubled(confirm.db)
  {
    var candidates: seq<string> := [];
    for i := 0 to |ts|
      invariant confirm.cache == old(confirm.cache) && confirm.db.calls == old(confirm.db.calls)
      invariant forall j :: 0 <= j < i ==>
                  (filter.Contains(ts[j].to) ==> ts[j].to in candidates) && (filter.Contains(ts[j].from) ==> ts[j].from in candidates)
    {
      var some := BloomConfirmCandidates(filter, ts[i].from, ts[i].to);
      candidates := candidates + some;
    }
    confirm.Prefetch(candidates);
  }

  /** The addresses past the prefilter that the cache accepts. */
  ghost function Accepted(filter: BloomFilter, cache: map<string, bool>): set<string>
    reads filter
  {
    set a | a in cache && Watched(filter, cache, a)
  }

  /** Matches a batch of transfers. The verdict on an address is the same for the whole batch, whatever
      fails in between: the events are exactly those for the accepted addresses. */
  method MatchBatch(filter: BloomFilter, confirm: AddressConfirm, prefetch: bool, scope: string, ts: seq<Outbox.Transfer>, block: int, tip: int)
    returns (out: seq<RawEvent>)
    requires Justified(confirm.db, confirm.cache)
    modifies confirm, confirm.db
    ensures Kept(confirm.db, old(confirm.cache), confirm.cache)
    ensures out == Outbox.MatchAll(Accepted(filter, confirm.cache), scope, ts, block, tip)
    ensures forall a :: TakesPart(ts, a) && filter.Contains(a) && a != "" ==> a in confirm.cache
    ensures prefetch ==> confirm.db.calls <= old(confirm.db.calls) + MAX_ATTEMPTS || Troubled(confirm.db)
  {
    if prefetch {
      PrefetchTransfers(filter, confirm, ts);
    }
    out := [];
    for i := 0 to |ts|
      invariant Kept(confirm.db, old(confirm.cache), confirm.cache)
      invariant out == Outbox.MatchAll(Accepted(filter, confirm.cache), scope, ts[..i], block, tip)
      invariant forall j :: 0 <= j < i || (prefetch && 0 <= j < |ts|) ==> Asked(filter, confirm.cache, ts[j])
      invariant prefetch ==> confirm.db.calls <= old(confirm.db.calls) + MAX_ATTEMPTS || Troubled(confirm.db)
    {
      ghost var before := confirm.cache;
      var matched := MatchedTransferEvents(filter, confirm, scope, ts[i], block, tip);
      OneMoreMatched(filter, before, confirm.cache, scope, ts, i, block, tip);
      out := out + matched;
    }
    assert ts[..|ts|] == ts;
  }

  /** The addresses of the transfer that pass the prefilter have their verdict. */
  ghost predicate Asked(filter: BloomFilter, cache: map<string, bool>, t: Outbox.Transfer)
    reads filter
  {
    && (filter.Contains(t.to) && t.to != "" ==> t.to in cache)
    && (filter.Contains(t.from) && t.from != "" ==> t.from in cache)
  }

  /** Later verdicts do not change what was matched before. */
  lemma OneMoreMatched(filter: BloomFilter, before: map<string, bool>, after: map<string, bool>, scope: string,
                       ts: seq<Outbox.Transfer>, i: nat, block: int, tip: int)
    requires i < |ts| && Extends(before, after) && forall j :: 0 <= j < i ==> Asked(filter, before, ts[j])
    ensures var watched := set a | a in {ts[i].from, ts[i].to} && Watched(filter, after, a);
            Outbox.MatchAll(Accepted(filter, after), scope, ts[..i + 1], block, tip)
            == Outbox.MatchAll(Accepted(filter, before), scope, ts[..i], block, tip) + Outbox.Matches(watched, scope, ts[i], block, tip)
  {
    var accepted := Accepted(filter, after);
    var watched := set a | a in {ts[i].from, ts[i].to} && Watched(filter, after, a);
    MatchesByRoles(watched, accepted, scope, ts[i], block, tip);
    MatchAllByRoles(Accepted(filter, before), accepted, scope, ts[..i], block, tip);
    MatchAllLast(accepted, scope, ts[..i], ts[i], block, tip);
    assert ts[..i + 1] == ts[..i] + [ts[i]];
  }

  /** Whatever fails: every transfer with a watched receiver or sender, past a covering prefilter
      and active at every call, yields the event of that role. */
  method MatchBatchUnderFaults(filter: BloomFilter, db: WatchlistDb, prefetch: bool, ghost watchlist: set<string>,
                               scope: string, ts: seq<Outbox.Transfer>, block: int, tip: int)
    returns (out: seq<RawEvent>)
    requires Covers(filter, watchlist)
    requires forall n: nat :: watchlist <= db.active(n)
    modifies db
    ensures forall i :: 0 <= i < |ts| && ts[i].to != "" && ts[i].to in watchlist ==> Outbox.EventOf(scope, ts[i], Received, block, tip) in out
    ensures forall i :: 0 <= i < |ts| && ts[i].from != "" && ts[i].from in watchlist ==> Outbox.EventOf(scope, ts[i], Broadcasted, block, tip) in out
  {
    var confirm := new AddressConfirm(db);
    out := MatchBatch(filter, confirm, prefetch, scope, ts, block, tip);
    ghost var accepted := Accepted(filter, confirm.cache);
    forall a | a in watchlist && a in confirm.cache
      ensures a in accepted
    {
      NeverRefusesWatched(db, confirm.cache, a);
    }
    forall i | 0 <= i < |ts|
      ensures ts[i].to != "" && ts[i].to in watchlist ==> Outbox.EventOf(scope, ts[i], Received, block, tip) in out
      ensures ts[i].from != "" && ts[i].from in watchlist ==> Outbox.EventOf(scope, ts[i], Broadcasted, block, tip) in out
    {
      assert TakesPart(ts, ts[i].to) && TakesPart(ts, ts[i].from);
      assert Outbox.Party(ts[i], Received) == ts[i].to && Outbox.Party(ts[i], Broadcasted) == ts[i].from;
      Outbox.MatchAllIff(accepted, scope, ts, block, tip, Outbox.EventOf(scope, ts[i], Received, block, tip));
      Outbox.MatchAllIff(accepted, scope, ts, block, tip, Outbox.EventOf(scope, ts[i], Broadcasted, block, tip));
    }
  }

  /** The fast path is exact: with a covering prefilter and a database whose faults the retries
      overcome, the matched events are those of the watchlist itself, prefetched or not. */
  method ConfirmBatchExactly(filter: BloomFilter, db: WatchlistDb, prefetch: bool, ghost watchlist: set<string>,
                             scope: string, ts: seq<Outbox.Transfer>, block: int, tip: int)
    returns (out: seq<RawEvent>)
    requires Covers(filter, watchlist) && Steady(db, watchlist)
    modifies db
    ensures out == Outbox.MatchAll(watchlist, scope, ts, block, tip)
    ensures forall e :: e in out <==>
              exists i, d :: 0 <= i < |ts| && e == Outbox.EventOf(scope, ts[i], d, block, tip) && Outbox.Party(ts[i], d) != "" && Outbox.Party(ts[i], d) in watchlist
  {
    var confirm := new AddressConfirm(db);
    out := MatchBatch(filter, confirm, prefetch, scope, ts, block, tip);
    ghost var accepted := Accepted(filter, confirm.cache);
    forall a | TakesPart(ts, a) && a != ""
      ensures a in accepted <==> a in watchlist
    {
      if a in confirm.cache {
        CacheIsExact(db, confirm.cache, watchlist, a);
      }
    }
    forall i | 0 <= i < |ts|
      ensures TakesPart(ts, ts[i].to) && TakesPart(ts, ts[i].from)
    {
    }
    MatchAllByRoles(accepted, watchlist, scope, ts, block, tip);
    forall e: RawEvent
      ensures e in out <==>
              exists i, d :: 0 <= i < |ts| && e == Outbox.EventOf(scope, ts[i], d, block, tip) && Outbox.Party(ts[i], d) != "" && Outbox.Party(ts[i], d) in watchlist
    {
      Outbox.MatchAllIff(watchlist, scope, ts, block, tip, e);
    }
  }

  lemma {:induction false} MatchAllLast(active: set<string>, scope: string, ts: seq<Outbox.Transfer>, t: Outbox.Transfer, block: int, tip: int)
    ensures Outbox.MatchAll(active, scope, ts + [t], block, tip)
            == Outbox.MatchAll(active, scope, ts, block, tip) + Outbox.Matches(active, scope, t, block, tip)
  {
    if ts == [] {
      assert [t][1..] == [];
    } else {
      assert (ts + [t])[0] == ts[0] && (ts + [t])[1..] == ts[1..] + [t];
      MatchAllLast(active, scope, ts[1..], t, block, tip);
    }
  }
}
