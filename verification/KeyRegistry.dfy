/**
 The key registry: a bounded cache of static public keys. Entries learned by handshake are
 never evicted; entries learned by gossip are evicted oldest first, and a handshake promotes
 a gossip entry out of eviction tracking. The queue that records the eviction order is proved
 to refine a ledger in which every gossip entry carries the moment it was learned.
 */
module KeyRegistry {
  import opened Types

  /** `order` is the sole record of which entries were learned by gossip, oldest first. */
  datatype Registry = Registry(entries: map<PeerId, Key>, order: seq<PeerId>, maxSize: Option<nat>)

  function Empty(maxSize: Option<nat>): Registry {
    Registry(map[], [], maxSize)
  }

  /** `order` with every occurrence of `p` left out. */
  function Without(order: seq<PeerId>, p: PeerId): (r: seq<PeerId>)
    ensures forall q :: q in r <==> q in order && q != p
    ensures |r| <= |order|
  {
    if order == [] then []
    else if order[0] == p then Without(order[1..], p)
    else [order[0]] + Without(order[1..], p)
  }

  function Remove(r: Registry, p: PeerId): Registry {
    r.(entries := r.entries - {p}, order := Without(r.order, p))
  }

  function InsertDirect(r: Registry, p: PeerId, k: Key): Registry {
    r.(entries := r.entries[p := k], order := Without(r.order, p))
  }

  predicate Full(r: Registry) {
    r.maxSize.Some? && |r.entries| >= r.maxSize.value
  }

  function InsertGossip(r: Registry, p: PeerId, k: Key): Registry {
    if p in r.entries then r.(entries := r.entries[p := k])
    else if Full(r) && r.order == [] then r
    else
      var room := if Full(r) then r.(entries := r.entries - {r.order[0]}, order := r.order[1..]) else r;
      room.(entries := room.entries[p := k], order := room.order + [p])
  }

  class KeyRegistryState {
    var entries: map<PeerId, Key>
    var gossipOrder: seq<PeerId>
    const maxSize: Option<nat>

    constructor (maxSize: Option<nat>)
      ensures Value() == Empty(maxSize)
    {
      entries, gossipOrder, this.maxSize := map[], [], maxSize;
    }

    function Value(): Registry
      reads this
    {
      Registry(entries, gossipOrder, maxSize)
    }

    method Retain(p: PeerId)
      modifies this`gossipOrder
      ensures gossipOrder == Without(old(gossipOrder), p)
    {
      var kept: seq<PeerId> := [];
      var i := 0;
      while i < |gossipOrder|
        invariant 0 <= i <= |gossipOrder|
        invariant gossipOrder == old(gossipOrder)
        invariant Without(gossipOrder, p) == kept + Without(gossipOrder[i..], p)
      {
        ghost var rest := gossipOrder[i..];
        assert rest[0] == gossipOrder[i] && rest[1..] == gossipOrder[i + 1..];
        if gossipOrder[i] != p {
          assert Without(rest, p) == [gossipOrder[i]] + Without(rest[1..], p);
          kept := kept + [gossipOrder[i]];
        }
        i := i + 1;
      }
      gossipOrder := kept;
    }

    method Get(p: PeerId) returns (k: Option<Key>)
      ensures k == if p in entries then Some(entries[p]) else None
    {
      k := if p in entries then Some(entries[p]) else None;
    }

    method RemoveKey(p: PeerId) returns (k: Option<Key>)
      modifies this
      ensures Value() == Remove(old(Value()), p)
      ensures k == if p in old(entries) then Some(old(entries)[p]) else None
    {
      Retain(p);
      k := if p in entries then Some(entries[p]) else None;
      entries := entries - {p};
    }

    method InsertDirectKey(p: PeerId, key: Key) returns (isNew: bool)
      modifies this
      ensures Value() == InsertDirect(old(Value()), p, key)
      ensures isNew <==> p !in old(entries)
    {
      Retain(p);
      isNew := p !in entries;
      entries := entries[p := key];
    }

    method InsertGossipKey(p: PeerId, key: Key)
      modifies this
      ensures Value() == InsertGossip(old(Value()), p, key)
    {
      if p in entries {
        entries := entries[p := key];
        return;
      }
      if maxSize.Some? {
        if |entries| >= maxSize.value {
          if gossipOrder == [] {
            return;
          }
          var oldest := gossipOrder[0];
          gossipOrder := gossipOrder[1..];
          entries := entries - {oldest};
        }
      }
      entries := entries[p := key];
      gossipOrder := gossipOrder + [p];
    }
  }

  // ---- every sequence of operations --------------------------------------------

  datatype Op = Handshake(peer: PeerId, key: Key) | Gossip(peer: PeerId, key: Key) | Forget(peer: PeerId)

  function Apply(r: Registry, op: Op): Registry {
    match op
    case Handshake(p, k) => InsertDirect(r, p, k)
    case Gossip(p, k) => InsertGossip(r, p, k)
    case Forget(p) => Remove(r, p)
  }

  function Run(r: Registry, ops: seq<Op>): Registry {
    if ops == [] then r else Apply(Run(r, ops[..|ops| - 1]), ops[|ops| - 1])
  }

  ghost predicate Unrepeated(s: seq<PeerId>) {
    s != [] ==> s[0] !in s[1..] && Unrepeated(s[1..])
  }

  ghost predicate Valid(r: Registry) {
    && Unrepeated(r.order)
    && (forall p :: p in r.order ==> p in r.entries)
    && (r.maxSize.Some? ==> |r.order| <= r.maxSize.value)
  }

  lemma {:induction false} WithoutDistinct(s: seq<PeerId>, p: PeerId)
    requires Unrepeated(s)
    ensures Unrepeated(Without(s, p))
  {
    if s != [] { WithoutDistinct(s[1..], p); }
  }

  /** A duplicate-free sequence of keys of `m` is no longer than `m` is large. */
  lemma {:induction false} OrderFits(s: seq<PeerId>, m: map<PeerId, Key>)
    requires Unrepeated(s) && forall p :: p in s ==> p in m
    ensures |s| <= |m|
  {
    if s != [] {
      var rest := m - {s[0]};
      assert rest.Keys == m.Keys - {s[0]};
      OrderFits(s[1..], rest);
      assert |rest.Keys| == |m.Keys| - 1;
    }
  }

  lemma {:induction false} AppendDistinct(s: seq<PeerId>, p: PeerId)
    requires Unrepeated(s) && p !in s
    ensures Unrepeated(s + [p])
  {
    if s != [] {
      AppendDistinct(s[1..], p);
      assert (s + [p])[1..] == s[1..] + [p];
    }
  }

  lemma ApplyValid(r: Registry, op: Op)
    requires Valid(r)
    ensures Valid(Apply(r, op))
  {
    match op
    case Handshake(p, k) => WithoutDistinct(r.order, p);
    case Forget(p) => WithoutDistinct(r.order, p);
    case Gossip(p, k) =>
      OrderFits(r.order, r.entries);
      if p !in r.entries {
        if !Full(r) { AppendDistinct(r.order, p); }
        else if r.order != [] { AppendDistinct(r.order[1..], p); }
      }
  }

  /** A gossip insert never takes the size above the larger of what it was and the bound. */
  lemma GossipBounded(r: Registry, p: PeerId, k: Key)
    requires Valid(r) && r.maxSize.Some?
    ensures var before, after := |r.entries|, |InsertGossip(r, p, k).entries|;
            after <= if before > r.maxSize.value then before else r.maxSize.value
  {
  }

  // ---- the reference: a ledger of when each entry was learned ------------------

  datatype Source = ByHandshake | ByGossip(learned: nat)

  datatype Line = Line(key: Key, source: Source)

  /** `clock` counts the gossip entries ever created. */
  datatype Ledger = Ledger(lines: map<PeerId, Line>, clock: nat)

  /** When a gossip entry was learned; -1 for every other peer. */
  ghost function Learned(l: Ledger, p: PeerId): int {
    if p in l.lines && l.lines[p].source.ByGossip? then l.lines[p].source.learned else -1
  }

  ghost predicate Evictable(l: Ledger, p: PeerId) {
    Learned(l, p) >= 0
  }

  /** `p` is the never-promoted gossip entry that has been known longest. */
  ghost predicate Oldest(l: Ledger, p: PeerId) {
    Evictable(l, p) && forall q :: Evictable(l, q) ==> Learned(l, p) <= Learned(l, q)
  }

  ghost function LedgerApply(l: Ledger, maxSize: Option<nat>, op: Op): Ledger {
    match op
    case Handshake(p, k) => l.(lines := l.lines[p := Line(k, ByHandshake)])
    case Forget(p) => l.(lines := l.lines - {p})
    case Gossip(p, k) =>
      if p in l.lines then l.(lines := l.lines[p := l.lines[p].(key := k)])
      else
        var line := Line(k, ByGossip(l.clock));
        if maxSize.None? || |l.lines| < maxSize.value then Ledger(l.lines[p := line], l.clock + 1)
        else if exists v :: Oldest(l, v) then
          var v :| Oldest(l, v);
          Ledger((l.lines - {v})[p := line], l.clock + 1)
        else l
  }

  ghost function LedgerRun(maxSize: Option<nat>, ops: seq<Op>): Ledger {
    if ops == [] then Ledger(map[], 0)
    else LedgerApply(LedgerRun(maxSize, ops[..|ops| - 1]), maxSize, ops[|ops| - 1])
  }

  /** The registry shows the ledger's keys, and its queue lists the evictable entries in learning order. */
  ghost predicate Matches(r: Registry, l: Ledger) {
    && r.entries.Keys == l.lines.Keys
    && (forall p :: p in r.entries ==> r.entries[p] == l.lines[p].key)
    && (forall p :: p in r.order <==> Evictable(l, p))
    && (forall p :: Learned(l, p) < l.clock)
    && Rising(r.order, l)
  }

  ghost predicate Rising(order: seq<PeerId>, l: Ledger) {
    order != [] ==> (forall q :: q in order[1..] ==> Learned(l, order[0]) < Learned(l, q)) && Rising(order[1..], l)
  }

  /** Dropping `p` keeps the order rising when only `p`'s line changed. */
  lemma {:induction false} WithoutRising(order: seq<PeerId>, p: PeerId, l: Ledger, m: Ledger)
    requires Rising(order, l)
    requires forall q :: q != p ==> Learned(m, q) == Learned(l, q)
    ensures Rising(Without(order, p), m)
  {
    if order != [] { WithoutRising(order[1..], p, l, m); }
  }

  lemma {:induction false} AppendRising(order: seq<PeerId>, p: PeerId, l: Ledger, m: Ledger)
    requires Rising(order, l)
    requires forall q :: q in order ==> Learned(m, q) == Learned(l, q) < Learned(m, p)
    ensures Rising(order + [p], m)
  {
    if order != [] {
      AppendRising(order[1..], p, l, m);
      assert (order + [p])[1..] == order[1..] + [p];
    }
  }

  lemma {:induction false} SameRising(order: seq<PeerId>, l: Ledger, m: Ledger)
    requires Rising(order, l) && forall q :: q in order ==> Learned(m, q) == Learned(l, q)
    ensures Rising(order, m)
  {
    if order != [] { SameRising(order[1..], l, m); }
  }

  lemma ApplyMatches(r: Registry, l: Ledger, op: Op)
    requires Valid(r) && Matches(r, l)
    ensures Matches(Apply(r, op), LedgerApply(l, r.maxSize, op))
  {
    match op
    case Handshake(p, k) => WithoutMatches(r, l, p, Some(k));
    case Forget(p) => WithoutMatches(r, l, p, None);
    case Gossip(p, k) => GossipMatches(r, l, p, k);
  }

  /** Handshakes and removals take the peer out of the queue. */
  lemma WithoutMatches(r: Registry, l: Ledger, p: PeerId, k: Option<Key>)
    requires Matches(r, l)
    ensures k.Some? ==> Matches(InsertDirect(r, p, k.value), LedgerApply(l, r.maxSize, Handshake(p, k.value)))
    ensures k.None? ==> Matches(Remove(r, p), LedgerApply(l, r.maxSize, Forget(p)))
  {
    var l' := LedgerApply(l, r.maxSize, if k.Some? then Handshake(p, k.value) else Forget(p));
    assert forall q :: q != p ==> Learned(l', q) == Learned(l, q);
    WithoutRising(r.order, p, l, l');
  }

  lemma GossipMatches(r: Registry, l: Ledger, p: PeerId, k: Key)
    requires Valid(r) && Matches(r, l)
    ensures Matches(InsertGossip(r, p, k), LedgerApply(l, r.maxSize, Gossip(p, k)))
  {
    assert |r.entries| == |r.entries.Keys| == |l.lines.Keys| == |l.lines|;
    if p in r.entries {
      SameRising(r.order, l, LedgerApply(l, r.maxSize, Gossip(p, k)));
    } else if !Full(r) {
      hide Valid;
      NewMatches(r, l, p, k);
    } else if r.order != [] {
      hide Matches, Valid;
      EvictMatches(r, l, p, k);
    } else {
      assert forall v :: !Evictable(l, v);
    }
  }

  /** With room left, the new entry goes to the end of the queue. */
  lemma NewMatches(r: Registry, l: Ledger, p: PeerId, k: Key)
    requires Matches(r, l) && p !in r.entries
    ensures var line := Line(k, ByGossip(l.clock));
            Matches(r.(entries := r.entries[p := k], order := r.order + [p]), Ledger(l.lines[p := line], l.clock + 1))
  {
    var l' := Ledger(l.lines[p := Line(k, ByGossip(l.clock))], l.clock + 1);
    assert forall q :: Learned(l', q) == if q == p then l.clock else Learned(l, q);
    AppendRising(r.order, p, l, l');
  }

  /** Without its oldest gossip entry the ledger matches the registry without the queue's head. */
  lemma EvictedMatches(r: Registry, l: Ledger)
    requires Valid(r) && Matches(r, l) && r.order != []
    ensures var first := r.order[0];
            Matches(r.(entries := r.entries - {first}, order := r.order[1..]), l.(lines := l.lines - {first}))
  {
    var first, rest := r.order[0], r.order[1..];
    var l' := l.(lines := l.lines - {first});
    assert first !in rest && r.order == [first] + rest;
    assert forall q :: Learned(l', q) == if q == first then -1 else Learned(l, q);
    assert forall q :: q in rest <==> q in r.order && q != first;
    SameRising(rest, l, l');
  }

  /** At capacity, the queue's head and the ledger's oldest gossip entry are the same victim. */
  lemma EvictMatches(r: Registry, l: Ledger, p: PeerId, k: Key)
    requires Valid(r) && Matches(r, l) && p !in r.entries && Full(r) && r.order != []
    ensures Matches(InsertGossip(r, p, k), LedgerApply(l, r.maxSize, Gossip(p, k)))
  {
    var first := r.order[0];
    assert |r.entries| == |r.entries.Keys| == |l.lines.Keys| == |l.lines|;
    HeadIsOldest(r, l);
    assert Oldest(l, first);
    EvictedMatches(r, l);
    hide Matches, Valid, Oldest;
    NewMatches(r.(entries := r.entries - {first}, order := r.order[1..]), l.(lines := l.lines - {first}), p, k);
  }

  /** The head of the queue is the one oldest gossip entry. */
  lemma HeadIsOldest(r: Registry, l: Ledger)
    requires Valid(r) && Matches(r, l) && r.order != []
    ensures forall v :: Oldest(l, v) <==> v == r.order[0]
  {
  }

  /**
   For every sequence of operations the registry agrees with the ledger: the same keys, and
   an eviction queue that is the never-promoted gossip entries in the order they were learned.
   So the entry at its head, which is the one evicted, is the oldest of them.
   */
  lemma {:induction false} RegistryRefinesLedger(maxSize: Option<nat>, ops: seq<Op>)
    ensures Valid(Run(Empty(maxSize), ops)) && Run(Empty(maxSize), ops).maxSize == maxSize
    ensures Matches(Run(Empty(maxSize), ops), LedgerRun(maxSize, ops))
  {
    if ops != [] {
      var before := ops[..|ops| - 1];
      RegistryRefinesLedger(maxSize, before);
      ApplyValid(Run(Empty(maxSize), before), ops[|ops| - 1]);
      ApplyMatches(Run(Empty(maxSize), before), LedgerRun(maxSize, before), ops[|ops| - 1]);
    }
  }

  ghost predicate Protected(r: Registry, p: PeerId) {
    p in r.entries && p !in r.order
  }

  lemma ApplyProtects(r: Registry, op: Op, p: PeerId)
    requires Protected(r, p) && op != Forget(p)
    ensures Protected(Apply(r, op), p)
  {
    if op.Gossip? && r.order != [] { assert r.order[0] in r.order; }
  }

  /** An entry confirmed by a handshake stays until it is explicitly forgotten, whatever else happens. */
  lemma {:induction false} DirectEntriesStay(r: Registry, ops: seq<Op>, p: PeerId)
    requires Protected(r, p) && Forget(p) !in ops
    ensures Protected(Run(r, ops), p)
  {
    if ops != [] {
      var before := ops[..|ops| - 1];
      DirectEntriesStay(r, before, p);
      assert ops[|ops| - 1] in ops;
      ApplyProtects(Run(r, before), ops[|ops| - 1], p);
    }
  }
}
