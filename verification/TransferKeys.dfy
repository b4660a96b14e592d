/** The textual keys under which transfers are told apart: within a batch (`TransferEventKey`)
    and in the outbox (`DedupeKey`, plus the two forms older releases wrote). */
module TransferKeys {

  datatype Kind = Trx | Trc20

  datatype Direction = Received | Broadcasted

  /** A matched transfer leg before it enters the outbox. */
  datatype RawEvent = RawEvent(kind: Kind, direction: Direction, txHash: string, from: string, to: string,
                               amount: string, contract: string, block: int, timestamp: int, confirmations: int)

  predicate IsSpace(c: char) {
    || '\t' <= c <= '\r' || c == ' '
    || c == '\U{0085}' || c == '\U{00A0}' || c == '\U{1680}' || '\U{2000}' <= c <= '\U{200A}'
    || c == '\U{2028}' || c == '\U{2029}' || c == '\U{202F}' || c == '\U{205F}' || c == '\U{3000}'
  }

  /** The blanks are the 25 characters with the White_Space property of Unicode. */
  lemma IsSpaceIff(c: char)
    ensures IsSpace(c) <==>
            c in {'\U{0009}', '\U{000A}', '\U{000B}', '\U{000C}', '\U{000D}', '\U{0020}', '\U{0085}', '\U{00A0}', '\U{1680}',
                  '\U{2000}', '\U{2001}', '\U{2002}', '\U{2003}', '\U{2004}', '\U{2005}', '\U{2006}', '\U{2007}', '\U{2008}',
                  '\U{2009}', '\U{200A}', '\U{2028}', '\U{2029}', '\U{202F}', '\U{205F}', '\U{3000}'}
  {
  }

  function TrimLeft(s: string): string {
    if s != "" && IsSpace(s[0]) then TrimLeft(s[1..]) else s
  }

  function TrimRight(s: string): string {
    if s != "" && IsSpace(s[|s| - 1]) then TrimRight(s[..|s| - 1]) else s
  }

  function TrimSpace(s: string): (t: string)
    ensures ':' !in s ==> ':' !in t
    ensures t != "" ==> !IsSpace(t[0]) && !IsSpace(t[|t| - 1])
  {
    TrimLeftKeeps(s);
    TrimRightKeeps(TrimLeft(s));
    TrimRight(TrimLeft(s))
  }

  lemma {:induction false} TrimLeftKeeps(s: string)
    ensures forall c :: c in TrimLeft(s) ==> c in s
    ensures TrimLeft(s) != "" ==> !IsSpace(TrimLeft(s)[0])
  {
    if s != "" && IsSpace(s[0]) {
      TrimLeftKeeps(s[1..]);
    }
  }

  lemma {:induction false} TrimRightKeeps(s: string)
    ensures forall c :: c in TrimRight(s) ==> c in s
    ensures TrimRight(s) != "" ==> !IsSpace(TrimRight(s)[|TrimRight(s)| - 1]) && TrimRight(s)[0] == s[0]
  {
    if s != "" && IsSpace(s[|s| - 1]) {
      TrimRightKeeps(s[..|s| - 1]);
    }
  }

  /** Trimming drops blanks at both ends and nothing else. */
  lemma TrimDropsOnlyBlanks(s: string)
    ensures exists i, j :: 0 <= i <= j <= |s| && TrimSpace(s) == s[i..j]
                           && (forall k :: 0 <= k < i ==> IsSpace(s[k])) && (forall k :: j <= k < |s| ==> IsSpace(s[k]))
  {
    var i := TrimmedLeft(s);
    var m := TrimmedRight(s[i..]);
    assert s[i..][..m] == s[i..i + m];
    forall k | i + m <= k < |s|
      ensures IsSpace(s[k])
    {
      assert s[k] == s[i..][k - i];
    }
  }

  lemma {:induction false} TrimmedLeft(s: string) returns (i: nat)
    ensures i <= |s| && TrimLeft(s) == s[i..] && forall k :: 0 <= k < i ==> IsSpace(s[k])
  {
    if s != "" && IsSpace(s[0]) {
      var n := TrimmedLeft(s[1..]);
      i := n + 1;
      assert s[1..][n..] == s[i..];
      assert forall k :: 1 <= k < i ==> s[k] == s[1..][k - 1];
    } else {
      i := 0;
    }
  }

  lemma {:induction false} TrimmedRight(s: string) returns (j: nat)
    ensures j <= |s| && TrimRight(s) == s[..j] && forall k :: j <= k < |s| ==> IsSpace(s[k])
  {
    if s != "" && IsSpace(s[|s| - 1]) {
      j := TrimmedRight(s[..|s| - 1]);
      assert s[..|s| - 1][..j] == s[..j];
    } else {
      j := |s|;
    }
  }

  function DirectionName(d: Direction): string {
    match d
    case Received => "received"
    case Broadcasted => "broadcasted"
  }

  function EventType(kind: Kind, d: Direction): string {
    match (kind, d)
    case (Trx, Received) => "transaction.trx.received"
    case (Trx, Broadcasted) => "transaction.trx.broadcasted"
    case (Trc20, Received) => "transaction.trc20.received"
    case (Trc20, Broadcasted) => "transaction.trc20.broadcasted"
  }

  function TransferDedupeKey(from: string, to: string, amount: string): string {
    TrimSpace(from) + ":" + TrimSpace(to) + ":" + TrimSpace(amount)
  }

  function TransferEventKey(ev: RawEvent): string {
    ev.txHash + ":" + DirectionName(ev.direction) + ":" + TransferDedupeKey(ev.from, ev.to, ev.amount)
  }

  function DedupeKey(scope: string, ev: RawEvent, endpoint: string): string {
    var key := scope + ":" + ev.txHash + ":" + EventType(ev.kind, ev.direction) + ":" + TransferDedupeKey(ev.from, ev.to, ev.amount);
    if endpoint == "" then key else key + ":" + endpoint
  }

  function LegacyKey(scope: string, txHash: string): string {
    scope + ":" + txHash
  }

  function LegacyEndpointKey(scope: string, txHash: string, endpoint: string): string {
    scope + ":" + txHash + ":" + endpoint
  }

  // ----- Joined fields can be told apart when no field holds the separator

  predicate Plain(s: string) {
    ':' !in s
  }

  function Join(fields: seq<string>): string
    requires fields != []
  {
    if |fields| == 1 then fields[0] else fields[0] + ":" + Join(fields[1..])
  }

  /** The first separator ends the first field. */
  lemma FirstField(a: string, x: string, b: string, y: string)
    requires Plain(a) && Plain(b) && a + ":" + x == b + ":" + y
    ensures a == b && x == y
  {
    var s, t := a + ":" + x, b + ":" + y;
    assert s[|a|] == ':' && t[|b|] == ':';
    assert (forall i :: 0 <= i < |a| ==> s[i] == a[i]) && (forall i :: 0 <= i < |b| ==> t[i] == b[i]);
    assert |a| == |b|;
    assert a == s[..|a|] && b == t[..|a|];
    assert x == s[|a| + 1..] && y == t[|a| + 1..];
  }

  lemma JoinHasSeparator(f: seq<string>)
    requires f != []
    ensures |f| > 1 ==> ':' in Join(f)
  {
    if |f| > 1 {
      assert Join(f)[|f[0]|] == ':';
    }
  }

  lemma {:induction false} JoinInjective(f: seq<string>, g: seq<string>)
    requires f != [] && g != []
    requires (forall s :: s in f ==> Plain(s)) && (forall s :: s in g ==> Plain(s))
    ensures Join(f) == Join(g) <==> f == g
  {
    if Join(f) == Join(g) {
      JoinHasSeparator(f);
      JoinHasSeparator(g);
      assert f[0] in f && g[0] in g;
      if |f| > 1 {
        FirstField(f[0], Join(f[1..]), g[0], Join(g[1..]));
        JoinInjective(f[1..], g[1..]);
        assert f == [f[0]] + f[1..] && g == [g[0]] + g[1..];
      }
    }
  }

  function Leg(ev: RawEvent): seq<string> {
    [TrimSpace(ev.from), TrimSpace(ev.to), TrimSpace(ev.amount)]
  }

  function Fields(scope: string, ev: RawEvent, endpoint: string): seq<string> {
    [scope, ev.txHash, EventType(ev.kind, ev.direction)] + Leg(ev) + if endpoint == "" then [] else [endpoint]
  }

  predicate PlainEvent(ev: RawEvent) {
    Plain(ev.txHash) && Plain(ev.from) && Plain(ev.to) && Plain(ev.amount)
  }

  lemma JoinThree(a: string, b: string, c: string)
    ensures Join([a, b, c]) == a + ":" + b + ":" + c
  {
    assert [a, b, c][1..] == [b, c] && [b, c][1..] == [c];
    assert Join([b, c]) == b + ":" + c;
  }

  lemma {:induction false} JoinAppend(f: seq<string>, g: seq<string>)
    requires f != [] && g != []
    ensures Join(f + g) == Join(f) + ":" + Join(g)
  {
    if |f| == 1 {
      assert (f + g)[1..] == g;
    } else {
      assert (f + g)[1..] == f[1..] + g;
      JoinAppend(f[1..], g);
    }
  }

  lemma DedupeKeyJoins(scope: string, ev: RawEvent, endpoint: string)
    ensures DedupeKey(scope, ev, endpoint) == Join(Fields(scope, ev, endpoint))
  {
    var head, leg := [scope, ev.txHash, EventType(ev.kind, ev.direction)], Leg(ev);
    JoinThree(head[0], head[1], head[2]);
    JoinThree(leg[0], leg[1], leg[2]);
    JoinAppend(head, leg);
    if endpoint == "" {
      assert head + leg + [] == head + leg;
    } else {
      JoinAppend(head + leg, [endpoint]);
    }
  }

  lemma EventKeyJoins(ev: RawEvent)
    ensures TransferEventKey(ev) == Join([ev.txHash, DirectionName(ev.direction)] + Leg(ev))
  {
    var head, leg := [ev.txHash, DirectionName(ev.direction)], Leg(ev);
    JoinThree(leg[0], leg[1], leg[2]);
    assert head[1..] == [head[1]];
    JoinAppend(head, leg);
  }

  predicate SameLeg(a: RawEvent, b: RawEvent) {
    TrimSpace(a.from) == TrimSpace(b.from) && TrimSpace(a.to) == TrimSpace(b.to) && TrimSpace(a.amount) == TrimSpace(b.amount)
  }

  lemma FieldsFaithful(s1: string, a: RawEvent, e1: string, s2: string, b: RawEvent, e2: string)
    ensures Fields(s1, a, e1) == Fields(s2, b, e2) <==>
            && s1 == s2 && a.txHash == b.txHash && EventType(a.kind, a.direction) == EventType(b.kind, b.direction)
            && SameLeg(a, b) && e1 == e2
  {
    var f, g := Fields(s1, a, e1), Fields(s2, b, e2);
    if f == g {
      assert f[0] == g[0] && f[1] == g[1] && f[2] == g[2] && f[3] == g[3] && f[4] == g[4] && f[5] == g[5];
      assert |f| == |g|;
      assert e1 != "" ==> f[6] == e1 && g[6] == e2;
    }
  }

  lemma FieldsPlain(scope: string, ev: RawEvent, endpoint: string)
    requires Plain(scope) && Plain(endpoint) && PlainEvent(ev)
    ensures forall s :: s in Fields(scope, ev, endpoint) ==> Plain(s)
  {
    NamesPlain(ev.kind, ev.direction);
  }

  /** The outbox key is faithful: two keys agree exactly when scope, transaction, event type,
      trimmed addresses and amount, and endpoint all agree. */
  lemma DedupeKeyFaithful(s1: string, a: RawEvent, e1: string, s2: string, b: RawEvent, e2: string)
    requires Plain(s1) && Plain(s2) && Plain(e1) && Plain(e2) && PlainEvent(a) && PlainEvent(b)
    ensures DedupeKey(s1, a, e1) == DedupeKey(s2, b, e2) <==>
            && s1 == s2 && a.txHash == b.txHash && a.kind == b.kind && a.direction == b.direction
            && SameLeg(a, b) && e1 == e2
  {
    DedupeKeyJoins(s1, a, e1);
    DedupeKeyJoins(s2, b, e2);
    FieldsPlain(s1, a, e1);
    FieldsPlain(s2, b, e2);
    JoinInjective(Fields(s1, a, e1), Fields(s2, b, e2));
    FieldsFaithful(s1, a, e1, s2, b, e2);
    EventTypeFaithful(a.kind, a.direction, b.kind, b.direction);
  }

  lemma EventTypeFaithful(k1: Kind, d1: Direction, k2: Kind, d2: Direction)
    ensures EventType(k1, d1) == EventType(k2, d2) <==> k1 == k2 && d1 == d2
    ensures DirectionName(d1) == DirectionName(d2) <==> d1 == d2
  {
    assert |EventType(Trx, Received)| == 24 && |EventType(Trx, Broadcasted)| == 27;
    assert |EventType(Trc20, Received)| == 26 && |EventType(Trc20, Broadcasted)| == 29;
    assert |DirectionName(Received)| == 8 && |DirectionName(Broadcasted)| == 11;
  }

  lemma NamesPlain(kind: Kind, d: Direction)
    ensures Plain(EventType(kind, d)) && Plain(DirectionName(d))
  {
  }

  /** The key as it is stored, for a transfer whose fields have no blanks at their ends. */
  lemma DedupeKeyText(scope: string, ev: RawEvent, endpoint: string)
    requires TrimSpace(ev.from) == ev.from && TrimSpace(ev.to) == ev.to && TrimSpace(ev.amount) == ev.amount
    requires ev.kind.Trc20? && ev.direction.Broadcasted? && endpoint != ""
    ensures DedupeKey(scope, ev, endpoint)
            == scope + ":" + ev.txHash + ":" + "transaction.trc20.broadcasted" + ":" + ev.from + ":" + ev.to + ":" + ev.amount + ":" + endpoint
    ensures TransferEventKey(ev) == ev.txHash + ":" + "broadcasted" + ":" + ev.from + ":" + ev.to + ":" + ev.amount
  {
    var leg := ev.from + ":" + ev.to + ":" + ev.amount;
    assert TransferDedupeKey(ev.from, ev.to, ev.amount) == leg;
    var head := scope + ":" + ev.txHash + ":" + "transaction.trc20.broadcasted" + ":";
    assert head + leg == head + ev.from + ":" + ev.to + ":" + ev.amount;
    var start := ev.txHash + ":" + "broadcasted" + ":";
    assert start + leg == start + ev.from + ":" + ev.to + ":" + ev.amount;
  }

  /** Without the separator rule the key is ambiguous: the first address takes the colon of the next. */
  lemma ColonsMakeKeysAmbiguous(scope: string, endpoint: string)
    ensures var a := RawEvent(Trx, Received, "t", "x:y", "z", "1", "", 0, 0, 0);
            var b := RawEvent(Trx, Received, "t", "x", "y:z", "1", "", 0, 0, 0);
            DedupeKey(scope, a, endpoint) == DedupeKey(scope, b, endpoint) && !SameLeg(a, b)
  {
    assert TrimSpace("x:y") == "x:y" && TrimSpace("z") == "z" && TrimSpace("x") == "x" && TrimSpace("y:z") == "y:z";
    assert "x:y" + ":" + "z" == "x" + ":" + "y:z";
  }

  /** Within one scope, which has one kind, the batch key tells events apart exactly as the
      outbox keys of every endpoint do. */
  lemma BatchKeyAgreesWithOutboxKey(scope: string, a: RawEvent, b: RawEvent, endpoint: string)
    requires Plain(scope) && Plain(endpoint) && PlainEvent(a) && PlainEvent(b) && a.kind == b.kind
    ensures TransferEventKey(a) == TransferEventKey(b) <==> DedupeKey(scope, a, endpoint) == DedupeKey(scope, b, endpoint)
  {
    EventKeyJoins(a);
    EventKeyJoins(b);
    var f, g := [a.txHash, DirectionName(a.direction)] + Leg(a), [b.txHash, DirectionName(b.direction)] + Leg(b);
    EventTypeFaithful(a.kind, a.direction, b.kind, b.direction);
    NamesPlain(a.kind, a.direction);
    NamesPlain(b.kind, b.direction);
    JoinInjective(f, g);
    DedupeKeyFaithful(scope, a, endpoint, scope, b, endpoint);
    if f == g {
      assert f[0] == g[0] && f[1] == g[1] && f[2] == g[2] && f[3] == g[3] && f[4] == g[4];
    }
  }

  /** A key of the current form never equals an old form of the same transaction, so a current
      row never passes for a legacy one. Only the endpoint id must be free of the separator. */
  lemma CurrentKeyIsNeverLegacy(scope: string, ev: RawEvent, endpoint: string, other: string)
    requires Plain(other)
    ensures DedupeKey(scope, ev, endpoint) != LegacyKey(scope, ev.txHash)
    ensures DedupeKey(scope, ev, endpoint) != LegacyEndpointKey(scope, ev.txHash, other)
  {
    var key, prefix := DedupeKey(scope, ev, endpoint), scope + ":" + ev.txHash + ":";
    var typed := EventType(ev.kind, ev.direction);
    assert |key| > |LegacyKey(scope, ev.txHash)|;
    assert key[|prefix| + |typed|] == ':';
    assert LegacyEndpointKey(scope, ev.txHash, other)[|prefix|..] == other;
    assert |other| > |typed| ==> LegacyEndpointKey(scope, ev.txHash, other)[|prefix| + |typed|] == other[|typed|];
  }
}
