/**
 The duplicate-suppression cache. Two maps from keys to acceptance times, pruned lazily
 on every check: one keyed by (sender, id) for direct messages, one by id for routed ones.
 The cache is proved to answer exactly as the full history of checks would.
 */
module Dedup {
  import opened Types

  /** An entry survives while it is younger than `ttl`; one from the future survives too. */
  predicate Live(at: Time, now: Time, ttl: nat) {
    now < at || now - at < ttl
  }

  function Prune<K>(m: map<K, Time>, now: Time, ttl: nat): map<K, Time> {
    map k | k in m && Live(m[k], now, ttl) :: m[k]
  }

  /** What one check leaves in the map. */
  function Checked<K>(m: map<K, Time>, k: K, now: Time, ttl: nat): map<K, Time> {
    var live := Prune(m, now, ttl);
    if k in live then live else live[k := now]
  }

  predicate IsDuplicate<K>(m: map<K, Time>, k: K, now: Time, ttl: nat) {
    k in Prune(m, now, ttl)
  }

  class DeduplicationCache {
    var seen: map<(PeerId, MsgId), Time>
    var seenRouted: map<MsgId, Time>
    const ttl: nat

    constructor ()
      ensures seen == map[] && seenRouted == map[] && ttl == 60
    {
      seen, seenRouted, ttl := map[], map[], DEDUP_TTL;
    }

    method CheckAndInsert(peer: PeerId, id: MsgId, now: Time) returns (duplicate: bool)
      modifies this`seen
      ensures duplicate == IsDuplicate(old(seen), (peer, id), now, ttl)
      ensures seen == Checked(old(seen), (peer, id), now, ttl)
    {
      seen := map k | k in seen && Live(seen[k], now, ttl) :: seen[k];
      var key := (peer, id);
      if key in seen {
        return true;
      }
      seen := seen[key := now];
      return false;
    }

    method CheckAndInsertRouted(id: MsgId, now: Time) returns (duplicate: bool)
      modifies this`seenRouted
      ensures duplicate == IsDuplicate(old(seenRouted), id, now, ttl)
      ensures seenRouted == Checked(old(seenRouted), id, now, ttl)
    {
      seenRouted := map k | k in seenRouted && Live(seenRouted[k], now, ttl) :: seenRouted[k];
      if id in seenRouted {
        return true;
      }
      seenRouted := seenRouted[id := now];
      return false;
    }
  }

  // ---- the reference: the whole history of checks ------------------------------

  datatype Check<K> = Check(key: K, at: Time)

  ghost predicate Monotone<K>(h: seq<Check<K>>) {
    forall i, j :: 0 <= i <= j < |h| ==> h[i].at <= h[j].at
  }

  /** Check `i` is accepted when no earlier accepted check of its key is less than `ttl` old. */
  ghost predicate Accepted<K(!new)>(h: seq<Check<K>>, i: nat, ttl: nat)
    requires i < |h|
    decreases i, 0
  {
    !exists j: nat :: j < i && AcceptedWithin(h, j, h[i].key, h[i].at, ttl)
  }

  /** Check `j` was accepted for `key` and is less than `ttl` old at `now`. */
  ghost predicate AcceptedWithin<K(!new)>(h: seq<Check<K>>, j: nat, key: K, now: Time, ttl: nat)
    requires j < |h|
    decreases j, 1
  {
    h[j].key == key && Live(h[j].at, now, ttl) && Accepted(h, j, ttl)
  }

  /** The map after replaying the checks one by one. */
  function Replay<K>(h: seq<Check<K>>, ttl: nat): map<K, Time> {
    if h == [] then map[]
    else
      var last := h[|h| - 1];
      Checked(Replay(h[..|h| - 1], ttl), last.key, last.at, ttl)
  }

  /** Acceptance looks only at the past. */
  lemma {:induction false} AcceptedPrefix<K(!new)>(h: seq<Check<K>>, n: nat, i: nat, ttl: nat)
    requires i < n <= |h|
    ensures Accepted(h[..n], i, ttl) == Accepted(h, i, ttl)
    decreases i
  {
    forall j: nat | j < i
      ensures AcceptedWithin(h[..n], j, h[i].key, h[i].at, ttl)
           == AcceptedWithin(h, j, h[i].key, h[i].at, ttl)
    {
      AcceptedPrefix(h, n, j, ttl);
    }
  }

  /** `k -> t` is in the map exactly when the newest check is at most a window younger than an accepted check of `k` at `t`. */
  ghost predicate Holds<K(!new)>(h: seq<Check<K>>, k: K, t: Time, ttl: nat)
    requires h != []
  {
    exists j: nat :: j < |h| && h[j].at == t && AcceptedWithin(h, j, k, h[|h| - 1].at, ttl)
  }

  /** Two accepted checks of one key are at least `ttl` apart, so a window holds at most one. */
  lemma AcceptedApart<K(!new)>(h: seq<Check<K>>, i: nat, j: nat, ttl: nat)
    requires Monotone(h) && i < j < |h|
    requires h[i].key == h[j].key && Accepted(h, i, ttl) && Accepted(h, j, ttl)
    ensures h[j].at - h[i].at >= ttl
  {
    assert !AcceptedWithin(h, i, h[j].key, h[j].at, ttl);
  }

  /**
   The cache refines the history. After any non-empty sequence of checks with a
   non-decreasing clock the map holds exactly the keys accepted within the last window,
   each with the time it was accepted.
   */
  lemma {:induction false} CacheRefinesHistory<K(!new)>(h: seq<Check<K>>, ttl: nat)
    requires Monotone(h) && h != [] && ttl > 0
    ensures forall k, t :: (k in Replay(h, ttl) && Replay(h, ttl)[k] == t) <==> Holds(h, k, t, ttl)
  {
    forall k, t
      ensures (k in Replay(h, ttl) && Replay(h, ttl)[k] == t) <==> Holds(h, k, t, ttl)
    {
      HeldExactly(h, k, t, ttl);
    }
  }

  lemma {:induction false} HeldExactly<K(!new)>(h: seq<Check<K>>, k: K, t: Time, ttl: nat)
    requires Monotone(h) && h != [] && ttl > 0
    ensures (k in Replay(h, ttl) && Replay(h, ttl)[k] == t) <==> Holds(h, k, t, ttl)
    decreases |h|, 2
  {
    var n := |h| - 1;
    var past := h[..n];
    var now := h[n].at;
    var live := Prune(Replay(past, ttl), now, ttl);
    LiveExactly(h, k, t, ttl);
    AnswersHistory(h, ttl);
    if k == h[n].key && k !in live {
      assert Accepted(h, n, ttl);
      if t == now { assert AcceptedWithin(h, n, k, now, ttl); }
      forall j: nat | j < |h| && AcceptedWithin(h, j, k, now, ttl) ensures j == n {
      }
    } else if k == h[n].key {
      assert !Accepted(h, n, ttl);
    }
  }

  /** Before check `n` is recorded, the pruned map holds what earlier acceptances justify. */
  lemma {:induction false} LiveExactly<K(!new)>(h: seq<Check<K>>, k: K, t: Time, ttl: nat)
    requires Monotone(h) && h != [] && ttl > 0
    ensures var live := Prune(Replay(h[..|h| - 1], ttl), h[|h| - 1].at, ttl);
            (k in live && live[k] == t) <==>
            exists j: nat :: j < |h| - 1 && h[j].at == t && AcceptedWithin(h, j, k, h[|h| - 1].at, ttl)
    decreases |h|, 0
  {
    var n := |h| - 1;
    var past := h[..n];
    if n > 0 {
      HeldExactly(past, k, t, ttl);
      forall j: nat | j < n
        ensures Accepted(past, j, ttl) == Accepted(h, j, ttl)
      {
        AcceptedPrefix(h, n, j, ttl);
      }
      if exists j: nat :: j < n && h[j].at == t && AcceptedWithin(h, j, k, h[n].at, ttl) {
        var j: nat :| j < n && h[j].at == t && AcceptedWithin(h, j, k, h[n].at, ttl);
        assert past[j] == h[j];
        assert AcceptedWithin(past, j, k, past[n - 1].at, ttl);
      }
    }
  }

  /** The newest check is answered "duplicate" exactly when the history has an accepted one less than `ttl` old. */
  lemma {:induction false} AnswersHistory<K(!new)>(h: seq<Check<K>>, ttl: nat)
    requires Monotone(h) && h != [] && ttl > 0
    ensures var n := |h| - 1;
            IsDuplicate(Replay(h[..n], ttl), h[n].key, h[n].at, ttl) <==> !Accepted(h, n, ttl)
    decreases |h|, 1
  {
    var n := |h| - 1;
    var live := Prune(Replay(h[..n], ttl), h[n].at, ttl);
    if h[n].key in live {
      LiveExactly(h, h[n].key, live[h[n].key], ttl);
    }
    if exists j: nat :: j < n && AcceptedWithin(h, j, h[n].key, h[n].at, ttl) {
      var j: nat :| j < n && AcceptedWithin(h, j, h[n].key, h[n].at, ttl);
      LiveExactly(h, h[n].key, h[j].at, ttl);
    }
  }

  // ---- the two maps of one cache -----------------------------------------------

  datatype Op = OnDirect(peer: PeerId, id: MsgId, at: Time) | OnRouted(id: MsgId, at: Time)

  /** The pair of maps a cache holds after a mixed sequence of checks. */
  function CacheAfter(ops: seq<Op>, ttl: nat): (map<(PeerId, MsgId), Time>, map<MsgId, Time>) {
    if ops == [] then (map[], map[])
    else
      var (direct, routed) := CacheAfter(ops[..|ops| - 1], ttl);
      match ops[|ops| - 1]
      case OnDirect(peer, id, at) => (Checked(direct, (peer, id), at, ttl), routed)
      case OnRouted(id, at) => (direct, Checked(routed, id, at, ttl))
  }

  function DirectChecks(ops: seq<Op>): seq<Check<(PeerId, MsgId)>> {
    if ops == [] then []
    else
      var before := DirectChecks(ops[..|ops| - 1]);
      match ops[|ops| - 1]
      case OnDirect(peer, id, at) => before + [Check((peer, id), at)]
      case OnRouted(_, _) => before
  }

  function RoutedChecks(ops: seq<Op>): seq<Check<MsgId>> {
    if ops == [] then []
    else
      var before := RoutedChecks(ops[..|ops| - 1]);
      match ops[|ops| - 1]
      case OnDirect(_, _, _) => before
      case OnRouted(id, at) => before + [Check(id, at)]
  }

  /** Direct and routed checks never affect each other: each map is the replay of its own kind. */
  lemma {:induction false} KindsIndependent(ops: seq<Op>, ttl: nat)
    ensures CacheAfter(ops, ttl).0 == Replay(DirectChecks(ops), ttl)
    ensures CacheAfter(ops, ttl).1 == Replay(RoutedChecks(ops), ttl)
  {
    if ops != [] {
      var before := ops[..|ops| - 1];
      KindsIndependent(before, ttl);
      var d, r := DirectChecks(ops), RoutedChecks(ops);
      match ops[|ops| - 1]
      case OnDirect(peer, id, at) => assert d[..|d| - 1] == DirectChecks(before);
      case OnRouted(id, at) => assert r[..|r| - 1] == RoutedChecks(before);
    }
  }
}
