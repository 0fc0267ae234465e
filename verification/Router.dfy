/**
 Choosing transports: each attempt of a send tries the kind-matching pairs of available
 transports and known addresses, cheapest first, and up to three attempts are made.
 */
module Router {
  import opened AddrExchange

  datatype Kind = QuicKind | BleKind | WifiDirectKind | BleAdvertisingKind

  datatype Cost = Free | Metered | Unknown

  /** One registered transport and whether it is available at the moment. */
  datatype Entry = Entry(kind: Kind, cost: Cost, available: bool)

  /** A transport and an address, by their positions in the registration and address lists. */
  datatype Pair = Pair(t: nat, a: nat)

  const MAX_SEND_ATTEMPTS: nat := 3

  function KindOf(a: PeerAddress): Kind {
    match a
    case Quic(_) => QuicKind
    case Ble(_) => BleKind
    case WifiDirect(_) => WifiDirectKind
    case BleAdvertising(_) => BleAdvertisingKind
  }

  function Rank(c: Cost): nat {
    match c case Free => 0 case Metered => 1 case Unknown => 2
  }

  // ---- what an attempt is to try -----------------------------------------------

  predicate Matches(es: seq<Entry>, addrs: seq<PeerAddress>, p: Pair) {
    p.t < |es| && p.a < |addrs| && es[p.t].available && KindOf(addrs[p.a]) == es[p.t].kind
  }

  /** Cost first, then registration order, then address order. */
  predicate Before(es: seq<Entry>, p: Pair, q: Pair)
    requires p.t < |es| && q.t < |es|
  {
    var x, y := Rank(es[p.t].cost), Rank(es[q.t].cost);
    x < y || (x == y && (p.t < q.t || (p.t == q.t && p.a < q.a)))
  }

  ghost predicate Ordered(es: seq<Entry>, plan: seq<Pair>) {
    && (forall i :: 0 <= i < |plan| ==> plan[i].t < |es|)
    && forall i, j :: 0 <= i < j < |plan| ==> Before(es, plan[i], plan[j])
  }

  /** Exactly the matching pairs, each once, in the order of `Before`. */
  ghost predicate IsPlan(es: seq<Entry>, addrs: seq<PeerAddress>, plan: seq<Pair>) {
    Ordered(es, plan) && forall p :: p in plan <==> Matches(es, addrs, p)
  }

  lemma OrderedPrefix(es: seq<Entry>, plan: seq<Pair>, n: nat)
    requires Ordered(es, plan) && n <= |plan|
    ensures Ordered(es, plan[..n])
  {
  }

  /** Membership, apart from the last element. */
  lemma OrderedLast(es: seq<Entry>, p: seq<Pair>, x: Pair)
    requires Ordered(es, p) && p != []
    ensures var n := |p| - 1;
            && (x in p ==> x.t < |es| && (x == p[n] || Before(es, x, p[n])))
            && (x in p[..n] <==> x in p && x != p[n])
  {
  }

  ghost predicate SameElements(p: seq<Pair>, q: seq<Pair>) {
    forall x :: x in p <==> x in q
  }

  lemma SameLast(es: seq<Entry>, p: seq<Pair>, q: seq<Pair>)
    requires Ordered(es, p) && Ordered(es, q) && SameElements(p, q) && p != [] && q != []
    ensures p[|p| - 1] == q[|q| - 1]
  {
    hide Ordered;
    var x, y := p[|p| - 1], q[|q| - 1];
    assert x in p && y in q;
    OrderedLast(es, q, x);
    OrderedLast(es, p, y);
  }

  lemma SamePrefix(es: seq<Entry>, p: seq<Pair>, q: seq<Pair>)
    requires Ordered(es, p) && Ordered(es, q) && SameElements(p, q) && p != [] && q != []
    ensures SameElements(p[..|p| - 1], q[..|q| - 1])
  {
    hide Ordered, Before;
    SameLast(es, p, q);
    var a, b := p[..|p| - 1], q[..|q| - 1];
    forall z ensures z in a <==> z in b {
      OrderedLast(es, p, z);
      OrderedLast(es, q, z);
    }
  }

  /** An ordered list is determined by its elements. */
  lemma {:induction false} OrderedUnique(es: seq<Entry>, p: seq<Pair>, q: seq<Pair>)
    requires Ordered(es, p) && Ordered(es, q) && SameElements(p, q)
    ensures p == q
    decreases |p|
  {
    assert (p != [] ==> p[0] in p) && (q != [] ==> q[0] in q);
    if p != [] {
      var n, m := |p| - 1, |q| - 1;
      OrderedPrefix(es, p, n);
      OrderedPrefix(es, q, m);
      hide Ordered, SameElements;
      SameLast(es, p, q);
      SamePrefix(es, p, q);
      OrderedUnique(es, p[..n], q[..m]);
      assert p == p[..n] + [p[n]] && q == q[..m] + [q[m]];
    }
  }

  /** There is only one plan. */
  lemma PlanUnique(es: seq<Entry>, addrs: seq<PeerAddress>, p: seq<Pair>, q: seq<Pair>)
    requires IsPlan(es, addrs, p) && IsPlan(es, addrs, q)
    ensures p == q
  {
    OrderedUnique(es, p, q);
  }

  // ---- building the list -------------------------------------------------------

  /** Positions up to transport `t`, address `a`, in registration then address order. */
  predicate Reached(p: Pair, t: nat, a: nat) {
    p.t < t || (p.t == t && p.a < a)
  }

  predicate Registered(p: Pair, q: Pair) {
    p.t < q.t || (p.t == q.t && p.a < q.a)
  }

  /** The matching pairs in registration then address order. */
  method Collect(es: seq<Entry>, addrs: seq<PeerAddress>) returns (pairs: seq<Pair>)
    ensures forall p :: p in pairs <==> Matches(es, addrs, p)
    ensures forall i, j :: 0 <= i < j < |pairs| ==> Registered(pairs[i], pairs[j])
  {
    pairs := [];
    var t := 0;
    while t < |es|
      invariant 0 <= t <= |es|
      invariant forall p :: p in pairs <==> Matches(es, addrs, p) && Reached(p, t, 0)
      invariant forall i, j :: 0 <= i < j < |pairs| ==> Registered(pairs[i], pairs[j])
    {
      var a := 0;
      while a < |addrs|
        invariant 0 <= a <= |addrs|
        invariant forall p :: p in pairs <==> Matches(es, addrs, p) && Reached(p, t, a)
        invariant forall i, j :: 0 <= i < j < |pairs| ==> Registered(pairs[i], pairs[j])
      {
        if es[t].available && KindOf(addrs[a]) == es[t].kind {
          assert forall i :: 0 <= i < |pairs| ==> pairs[i] in pairs;
          pairs := pairs + [Pair(t, a)];
        }
        a := a + 1;
      }
      t := t + 1;
    }
  }

  /** A stable sort by cost: every pair goes behind those that cost no more. */
  method SortByCost(es: seq<Entry>, pairs: seq<Pair>) returns (plan: seq<Pair>)
    requires forall i :: 0 <= i < |pairs| ==> pairs[i].t < |es|
    requires forall i, j :: 0 <= i < j < |pairs| ==> Registered(pairs[i], pairs[j])
    ensures Ordered(es, plan) && forall p :: p in plan <==> p in pairs
  {
    plan := [];
    var k := 0;
    while k < |pairs|
      invariant 0 <= k <= |pairs| && Ordered(es, plan)
      invariant forall p :: p in plan <==> p in pairs[..k]
    {
      var x := pairs[k];
      var i := |plan|;
      while i > 0 && Rank(es[plan[i - 1].t].cost) > Rank(es[x.t].cost)
        invariant 0 <= i <= |plan|
        invariant forall j :: i <= j < |plan| ==> Rank(es[plan[j].t].cost) > Rank(es[x.t].cost)
      {
        i := i - 1;
      }
      forall j | 0 <= j < |plan| ensures Registered(plan[j], x) {
        assert plan[j] in plan;
      }
      InsertOrdered(es, plan, i, x);
      assert pairs[..k + 1] == pairs[..k] + [x];
      plan := plan[..i] + [x] + plan[i..];
      k := k + 1;
    }
    assert pairs[..k] == pairs;
  }

  /** Behind everything that costs no more and was registered earlier. */
  lemma CheaperBefore(es: seq<Entry>, plan: seq<Pair>, i: nat, x: Pair, j: nat)
    requires Ordered(es, plan) && j < i <= |plan| && x.t < |es| && Registered(plan[j], x)
    requires Rank(es[plan[i - 1].t].cost) <= Rank(es[x.t].cost)
    ensures Before(es, plan[j], x)
  {
  }

  ghost predicate AllBefore(es: seq<Entry>, a: seq<Pair>, b: seq<Pair>)
    requires Ordered(es, a) && Ordered(es, b)
  {
    forall i, j :: 0 <= i < |a| && 0 <= j < |b| ==> Before(es, a[i], b[j])
  }

  lemma OrderedConcat(es: seq<Entry>, a: seq<Pair>, b: seq<Pair>)
    requires Ordered(es, a) && Ordered(es, b) && AllBefore(es, a, b)
    ensures Ordered(es, a + b)
  {
  }

  lemma OrderedParts(es: seq<Entry>, plan: seq<Pair>, i: nat)
    requires Ordered(es, plan) && i <= |plan|
    ensures Ordered(es, plan[..i]) && Ordered(es, plan[i..]) && AllBefore(es, plan[..i], plan[i..])
  {
  }

  lemma DearerAfter(es: seq<Entry>, x: Pair, plan: seq<Pair>, i: nat, j: nat)
    requires Ordered(es, plan) && i + j < |plan| && x.t < |es|
    requires Rank(es[plan[i + j].t].cost) > Rank(es[x.t].cost)
    ensures Before(es, x, plan[i..][j])
  {
  }

  lemma JoinOrdered(es: seq<Entry>, a: seq<Pair>, x: Pair, b: seq<Pair>)
    requires Ordered(es, a) && Ordered(es, b) && AllBefore(es, a, b) && x.t < |es|
    requires forall j :: 0 <= j < |a| ==> Before(es, a[j], x)
    requires forall j :: 0 <= j < |b| ==> Before(es, x, b[j])
    ensures Ordered(es, a + [x] + b)
  {
    hide Before;
    OrderedConcat(es, a, [x]);
    forall k, l | 0 <= k < |a| + 1 && 0 <= l < |b| ensures Before(es, (a + [x])[k], b[l]) {
      if k < |a| { assert Before(es, a[k], b[l]); }
    }
    OrderedConcat(es, a + [x], b);
  }

  lemma InsertOrdered(es: seq<Entry>, plan: seq<Pair>, i: nat, x: Pair)
    requires Ordered(es, plan) && i <= |plan| && x.t < |es|
    requires forall j :: 0 <= j < |plan| ==> Registered(plan[j], x)
    requires forall j :: i <= j < |plan| ==> Rank(es[plan[j].t].cost) > Rank(es[x.t].cost)
    requires i > 0 ==> Rank(es[plan[i - 1].t].cost) <= Rank(es[x.t].cost)
    ensures Ordered(es, plan[..i] + [x] + plan[i..])
    ensures forall p :: p in plan[..i] + [x] + plan[i..] <==> p in plan || p == x
  {
    hide Ordered, Before;
    assert plan == plan[..i] + plan[i..];
    OrderedParts(es, plan, i);
    var a, b := plan[..i], plan[i..];
    forall j | 0 <= j < i ensures Before(es, a[j], x) {
      CheaperBefore(es, plan, i, x, j);
    }
    forall j | 0 <= j < |b| ensures Before(es, x, b[j]) {
      DearerAfter(es, x, plan, i, j);
    }
    hide Ordered, AllBefore, Before, Registered, Rank;
    JoinOrdered(es, a, x, b);
  }

  /** The candidates of one attempt. */
  method Candidates(es: seq<Entry>, addrs: seq<PeerAddress>) returns (plan: seq<Pair>)
    ensures IsPlan(es, addrs, plan)
    ensures forall p :: p in plan <==>
              p.t < |es| && p.a < |addrs| && es[p.t].available && KindOf(addrs[p.a]) == es[p.t].kind
    ensures CheapestFirst(es, plan)
  {
    var pairs := Collect(es, addrs);
    assert forall i :: 0 <= i < |pairs| ==> pairs[i] in pairs;
    plan := SortByCost(es, pairs);
    PlanCheapestFirst(es, addrs, plan);
  }

  /** Free transports come first, those of unknown cost last. */
  ghost predicate CheapestFirst(es: seq<Entry>, plan: seq<Pair>) {
    && (forall i :: 0 <= i < |plan| ==> plan[i].t < |es|)
    && forall i, j :: 0 <= i < j < |plan| ==>
         && (es[plan[j].t].cost == Free ==> es[plan[i].t].cost == Free)
         && (es[plan[j].t].cost == Metered ==> es[plan[i].t].cost != Unknown)
  }

  lemma PlanCheapestFirst(es: seq<Entry>, addrs: seq<PeerAddress>, plan: seq<Pair>)
    requires IsPlan(es, addrs, plan)
    ensures CheapestFirst(es, plan)
  {
    forall i, j | 0 <= i < j < |plan|
      ensures es[plan[j].t].cost == Free ==> es[plan[i].t].cost == Free
      ensures es[plan[j].t].cost == Metered ==> es[plan[i].t].cost != Unknown
    {
      assert Before(es, plan[i], plan[j]);
    }
  }

  /** An address is only ever tried over a transport of its own kind. */
  lemma PlanKinds(es: seq<Entry>, addrs: seq<PeerAddress>, plan: seq<Pair>, i: nat)
    requires IsPlan(es, addrs, plan) && i < |plan|
    ensures plan[i].t < |es| && plan[i].a < |addrs|
    ensures match addrs[plan[i].a]
            case Quic(_) => es[plan[i].t].kind == QuicKind
            case Ble(_) => es[plan[i].t].kind == BleKind
            case WifiDirect(_) => es[plan[i].t].kind == WifiDirectKind
            case BleAdvertising(_) => es[plan[i].t].kind == BleAdvertisingKind
  {
    assert plan[i] in plan;
  }

  /** Every cheaper or earlier matching pair comes before in the plan. */
  lemma PlanTriesCheaperFirst(es: seq<Entry>, addrs: seq<PeerAddress>, plan: seq<Pair>, k: nat, p: Pair)
    requires IsPlan(es, addrs, plan) && k < |plan| && Matches(es, addrs, p) && Before(es, p, plan[k])
    ensures p in plan[..k]
  {
  }

  // ---- the retry loop ----------------------------------------------------------

  datatype Try = Try(pass: nat, pair: Pair, acked: bool)

  datatype Outcome = Delivered | NoTransportAvailable | DeliveryFailed

  /** The first `n` tries of a pass, all failed. */
  function Fails(plan: seq<Pair>, pass: nat, n: nat): (r: seq<Try>)
    requires n <= |plan|
    ensures |r| == n && forall k :: 0 <= k < n ==> r[k] == Try(pass, plan[k], false)
  {
    if n == 0 then [] else Fails(plan, pass, n - 1) + [Try(pass, plan[n - 1], false)]
  }

  /** All tries of the first `n` passes, all failed. */
  function FailedPasses(plans: seq<seq<Pair>>, n: nat): seq<Try>
    requires n <= |plans|
  {
    if n == 0 then [] else FailedPasses(plans, n - 1) + Fails(plans[n - 1], n - 1, |plans[n - 1]|)
  }

  /** Every try of every pass is there, as a failure, and there are no others. */
  lemma {:induction false} FailedPassesAre(plans: seq<seq<Pair>>, n: nat, x: Try)
    requires n <= |plans|
    ensures x in FailedPasses(plans, n) <==> x.pass < n && x.pair in plans[x.pass] && !x.acked
  {
    if n > 0 {
      FailedPassesAre(plans, n - 1, x);
      var last := Fails(plans[n - 1], n - 1, |plans[n - 1]|);
      if x.pass == n - 1 && x.pair in plans[n - 1] && !x.acked {
        var k :| 0 <= k < |plans[n - 1]| && plans[n - 1][k] == x.pair;
        assert last[k] == x;
      }
    }
  }

  predicate AnyAvailable(es: seq<Entry>) {
    exists i :: 0 <= i < |es| && es[i].available
  }

  ghost predicate PassFails(plan: seq<Pair>, pass: nat, acked: (nat, nat) -> bool) {
    plan != [] && forall k :: 0 <= k < |plan| ==> !acked(pass, k)
  }

  /** No try of the first `n` passes is acknowledged, and none of these passes is empty. */
  ghost predicate AllFail(plans: seq<seq<Pair>>, acked: (nat, nat) -> bool, n: nat)
    requires n <= |plans|
  {
    forall p :: 0 <= p < n ==> PassFails(plans[p], p, acked)
  }

  ghost predicate PlansOk(plans: seq<seq<Pair>>, addrs: seq<PeerAddress>, snapshot: nat -> seq<Entry>) {
    forall p :: 0 <= p < |plans| ==> IsPlan(snapshot(p + 1), addrs, plans[p])
  }

  lemma {:induction false} FailedPassesPrefix(plans: seq<seq<Pair>>, plan: seq<Pair>, n: nat)
    requires n <= |plans|
    ensures FailedPasses(plans + [plan], n) == FailedPasses(plans, n)
  {
    if n > 0 { FailedPassesPrefix(plans, plan, n - 1); }
  }

  lemma PlansGrow(plans: seq<seq<Pair>>, plan: seq<Pair>, addrs: seq<PeerAddress>, snapshot: nat -> seq<Entry>)
    requires PlansOk(plans, addrs, snapshot) && IsPlan(snapshot(|plans| + 1), addrs, plan)
    ensures PlansOk(plans + [plan], addrs, snapshot)
  {
    hide IsPlan;
  }

  lemma FailuresGrow(plans: seq<seq<Pair>>, plan: seq<Pair>, acked: (nat, nat) -> bool)
    requires AllFail(plans, acked, |plans|)
    ensures AllFail(plans + [plan], acked, |plans|)
    ensures PassFails(plan, |plans|, acked) ==> AllFail(plans + [plan], acked, |plans| + 1)
  {
    hide PassFails;
  }

  lemma TriesGrow(plans: seq<seq<Pair>>, plan: seq<Pair>)
    ensures FailedPasses(plans + [plan], |plans|) == FailedPasses(plans, |plans|)
    ensures FailedPasses(plans + [plan], |plans| + 1) == FailedPasses(plans, |plans|) + Fails(plan, |plans|, |plan|)
  {
    hide Fails;
    FailedPassesPrefix(plans, plan, |plans|);
  }

  lemma NoPasses(addrs: seq<PeerAddress>, snapshot: nat -> seq<Entry>, acked: (nat, nat) -> bool)
    ensures PlansOk([], addrs, snapshot) && AllFail([], acked, 0) && FailedPasses([], 0) == []
  {
  }

  lemma EmptyPass(pass: nat)
    ensures Fails([], pass, 0) == []
  {
  }

  /** Tries the candidates of one pass until one is acknowledged. */
  method TryAll(candidates: seq<Pair>, pass: nat, acked: (nat, nat) -> bool)
    returns (ok: bool, at: nat, tries: seq<Try>)
    ensures at <= |candidates| && forall k :: 0 <= k < at ==> !acked(pass, k)
    ensures if ok then
              at < |candidates| && acked(pass, at) && tries == Fails(candidates, pass, at) + [Try(pass, candidates[at], true)]
            else at == |candidates| && tries == Fails(candidates, pass, at)
  {
    at, tries := 0, [];
    while at < |candidates|
      invariant 0 <= at <= |candidates| && forall k :: 0 <= k < at ==> !acked(pass, k)
      invariant tries == Fails(candidates, pass, at)
    {
      if acked(pass, at) {
        return true, at, tries + [Try(pass, candidates[at], true)];
      }
      tries := tries + [Try(pass, candidates[at], false)];
      at := at + 1;
    }
    ok := false;
  }

  /**
   Tries up to three passes. `snapshot(0)` is the transport list at entry and `snapshot(p + 1)` the
   list when pass `p` begins; `acked(p, k)` says whether the `k`-th try of pass `p` is acknowledged.
   Returns the plans made, the tries in order, and the position of the successful try in the last plan.
   */
  method Send(addrs: seq<PeerAddress>, snapshot: nat -> seq<Entry>, acked: (nat, nat) -> bool)
    returns (r: Outcome, plans: seq<seq<Pair>>, tries: seq<Try>, at: nat)
    ensures |plans| <= 3 && PlansOk(plans, addrs, snapshot)
    ensures plans == [] <==> forall i :: 0 <= i < |snapshot(0)| ==> !snapshot(0)[i].available
    ensures match r
            case Delivered =>
              var last := |plans| - 1;
              && 0 <= last && AllFail(plans, acked, last)
              && at < |plans[last]| && acked(last, at) && (forall k :: 0 <= k < at ==> !acked(last, k))
              && tries == FailedPasses(plans, last) + (Fails(plans[last], last, at) + [Try(last, plans[last][at], true)])
            case DeliveryFailed =>
              |plans| == 3 && AllFail(plans, acked, |plans|) && tries == FailedPasses(plans, |plans|)
            case NoTransportAvailable =>
              && (plans != [] ==> plans[|plans| - 1] == [] && AllFail(plans, acked, |plans| - 1))
              && tries == FailedPasses(plans, |plans|)
  {
    hide IsPlan, AllFail, PlansOk, FailedPasses, Fails;
    r, plans, tries, at := NoTransportAvailable, [], [], 0;
    NoPasses(addrs, snapshot, acked);
    var any := IsAnyAvailable(snapshot(0));
    if !any {
      return;
    }
    var attempt := 0;
    while attempt < MAX_SEND_ATTEMPTS
      invariant 0 <= attempt <= MAX_SEND_ATTEMPTS && attempt == |plans|
      invariant PlansOk(plans, addrs, snapshot) && AllFail(plans, acked, attempt)
      invariant tries == FailedPasses(plans, attempt)
    {
      var candidates := Candidates(snapshot(attempt + 1), addrs);
      PlansGrow(plans, candidates, addrs, snapshot);
      FailuresGrow(plans, candidates, acked);
      TriesGrow(plans, candidates);
      plans := plans + [candidates];
      if candidates == [] {
        EmptyPass(attempt);
        return NoTransportAvailable, plans, tries, 0;
      }
      var ok, k, more := TryAll(candidates, attempt, acked);
      tries := tries + more;
      if ok {
        return Delivered, plans, tries, k;
      }
      attempt := attempt + 1;
    }
    r := DeliveryFailed;
  }

  method IsAnyAvailable(es: seq<Entry>) returns (any: bool)
    ensures any <==> AnyAvailable(es)
  {
    var i := 0;
    while i < |es|
      invariant 0 <= i <= |es| && forall j :: 0 <= j < i ==> !es[j].available
    {
      if es[i].available {
        return true;
      }
      i := i + 1;
    }
    any := false;
  }
}
