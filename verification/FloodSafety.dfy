/**
 What every flood keeps, whatever is lost, repeated or reordered: frames arrive as they were
 sent, over a walk the ttl accounts for; the handler runs at most once and only at the
 destination; every node relays at most once; and the total number of sends is bounded.
 */
module FloodSafety {
  import opened Types
  import opened Wire
  import opened Node
  import opened Mesh
  import opened Flood
  import opened FloodDelivery

  /** `path` is the walk of neighbour links a copy has taken: its ttl and its hops add up to MAX_TTL + 1. */
  ghost predicate Travelled(c: Config, o: PeerId, p: Packet, path: seq<PeerId>) {
    && Routable(p.frame) && |path| >= 2 && Connects(c, path, o, p.dst) && path[|path| - 2] == p.src
    && |path| - 1 + p.frame.ttl as int == MAX_TTL as int + 1
  }

  ghost predicate OnWalk(c: Config, o: PeerId, p: Packet) {
    exists path :: Travelled(c, o, p, path)
  }

  ghost predicate AllOnWalks(c: Config, o: PeerId, v: View) {
    forall p :: p in v.air ==> OnWalk(c, o, p)
  }

  /** A handler call: at the destination, with the payload that was sent, over at most MAX_TTL + 1 links. */
  ghost predicate Genuine(c: Config, o: PeerId, f: Frame, at: PeerId, call: Call, path: seq<PeerId>) {
    && Routable(f) && at == f.dest && at in c.handlers
    && |path| >= 2 && Connects(c, path, o, at) && |path| - 1 <= MAX_TTL as int + 1
    && (f.Routed? ==> call == Call(path[|path| - 2], f.payload))
    && (f.Sealed? ==> call.from == f.sender && exists key :: c.crypto.unseal(at, key, f.message) == Some(call.data))
  }

  ghost predicate GenuineCall(c: Config, o: PeerId, f: Frame, at: PeerId, call: Call) {
    exists path :: Genuine(c, o, f, at, call, path)
  }

  ghost predicate CallsGenuine(c: Config, o: PeerId, f: Frame, v: View) {
    && |v.calls| <= 1
    && (v.calls != [] ==> Routable(f) && f.dest in v.seen && GenuineCall(c, o, f, v.calls[0].0, v.calls[0].1))
    && (f.Routed? && f.dest in v.seen && f.dest in c.handlers ==> v.calls != [])
  }

  /** The relays are the nodes other than the destination that recorded the id, each listed once. */
  ghost predicate RelaysOnce(c: Config, d: PeerId, v: View) {
    && (forall i, j :: 0 <= i < j < |v.relays| ==> v.relays[i] != v.relays[j])
    && (forall u :: u in v.relays <==> u in v.seen && u != d)
    && v.seen <= c.nodes
  }

  /** The degrees of the nodes in `us`, added up. */
  function Degrees(c: Config, us: seq<PeerId>): nat
    requires forall u :: u in us ==> u in c.nbrs
  {
    if us == [] then 0 else Degrees(c, us[..|us| - 1]) + |c.nbrs[us[|us| - 1]]|
  }

  ghost predicate SendsBounded(c: Config, o: PeerId, v: View) {
    && o in c.nbrs && (forall u :: u in v.relays ==> u in c.nbrs)
    && v.sends <= |c.nbrs[o]| + Degrees(c, v.relays)
  }

  ghost predicate Safe(c: Config, o: PeerId, f: Frame, v: View) {
    && Carried(v, f)
    && AllOnWalks(c, o, v)
    && CallsGenuine(c, o, f, v)
    && RelaysOnce(c, f.dest, v)
    && SendsBounded(c, o, v)
  }

  lemma StartWalks(c: Config, o: PeerId, f: Frame)
    requires WellFormed(c) && o in c.nodes && Routable(f) && f.ttl == MAX_TTL
    ensures AllOnWalks(c, o, Start(c, o, f))
  {
    hide Copies;
    var v := Start(c, o, f);
    CopiesAre(o, OriginTargets(c, o, f), f);
    forall p | p in v.air ensures OnWalk(c, o, p) {
      assert Travelled(c, o, p, [o, p.dst]);
    }
  }

  lemma SafeStart(c: Config, o: PeerId, f: Frame)
    requires WellFormed(c) && o in c.nodes && Routable(f) && f.ttl == MAX_TTL
    ensures Safe(c, o, f, Start(c, o, f))
  {
    hide Copies, AllOnWalks, GenuineCall;
    StartWalks(c, o, f);
    CopiesAre(o, OriginTargets(c, o, f), f);
    SubsetSize(OriginTargets(c, o, f), c.nbrs[o]);
  }

  lemma SafeStep(c: Config, o: PeerId, f: Frame, v: View, m: Move)
    requires WellFormed(c) && Safe(c, o, f, v) && Possible(c, f.dest, v, m)
    ensures Safe(c, o, f, Next(c, f.dest, v, m))
  {
    CarriedNext(c, v, f, m);
    if m.Take? && m.p.dst == f.dest {
      ArriveSafe(c, o, f, v, m.p, m.call);
    } else if m.Take? && m.p.frame.ttl > 0 && m.p.dst !in v.seen {
      RelaySafe(c, o, f, v, m.p, m.call);
    } else {
      IdleSafe(c, o, f, v, m);
    }
  }

  lemma IdleSafe(c: Config, o: PeerId, f: Frame, v: View, m: Move)
    requires Safe(c, o, f, v) && Possible(c, f.dest, v, m)
    requires m.Take? ==> m.p.dst != f.dest && (m.p.frame.ttl == 0 || m.p.dst in v.seen)
    requires Carried(Next(c, f.dest, v, m), f)
    ensures Safe(c, o, f, Next(c, f.dest, v, m))
  {
  }

  lemma ArriveSafe(c: Config, o: PeerId, f: Frame, v: View, p: Packet, call: Option<Call>)
    requires WellFormed(c) && Safe(c, o, f, v) && Possible(c, f.dest, v, Take(p, call))
    requires p.dst == f.dest && Carried(Next(c, f.dest, v, Take(p, call)), f)
    ensures Safe(c, o, f, Next(c, f.dest, v, Take(p, call)))
  {
    hide Degrees, Next, Connects;
    var v' := Next(c, f.dest, v, Take(p, call));
    NextTake(c, f.dest, v, p, call);
    assert p.frame == At(f, p.frame.ttl);
    if call.Some? {
      assert v.calls == [];
      var path :| Travelled(c, o, p, path);
      assert CallFits(c, p, call);
      assert v'.calls == [(f.dest, call.value)];
      assert Genuine(c, o, f, f.dest, call.value, path);
      assert GenuineCall(c, o, f, f.dest, call.value);
    } else {
      assert v'.calls == v.calls;
    }
    assert AllOnWalks(c, o, v');
    assert RelaysOnce(c, f.dest, v');
    assert SendsBounded(c, o, v');
    assert CallsGenuine(c, o, f, v');
  }

  lemma RelayWalks(c: Config, o: PeerId, f: Frame, v: View, v': View, p: Packet, g: Frame)
    requires WellFormed(c) && Carried(v, f) && AllOnWalks(c, o, v) && Relaying(c, f.dest, v, v', p, g)
    requires Routable(g) && g.ttl as int + 1 == p.frame.ttl as int
    ensures AllOnWalks(c, o, v')
  {
    hide Copies, OnWalk;
    CopiesAre(p.dst, RelayTargets(c, p.dst, p.src), g);
    forall q | q in v'.air ensures OnWalk(c, o, q) {
      if q !in v.air { WalkOn(c, o, p, q); }
    }
  }

  lemma RelayCounts(c: Config, o: PeerId, d: PeerId, v: View, v': View, p: Packet)
    requires WellFormed(c) && RelaysOnce(c, d, v) && SendsBounded(c, o, v)
    requires p.dst in c.nbrs && p.dst != d && p.dst !in v.seen
    requires v'.seen == v.seen + {p.dst} && v'.relays == v.relays + [p.dst]
    requires v'.sends == v.sends + |RelayTargets(c, p.dst, p.src)|
    ensures RelaysOnce(c, d, v') && SendsBounded(c, o, v')
  {
    SubsetSize(RelayTargets(c, p.dst, p.src), c.nbrs[p.dst]);
    assert v'.relays[..|v.relays|] == v.relays;
  }

  lemma RelaySafe(c: Config, o: PeerId, f: Frame, v: View, p: Packet, call: Option<Call>)
    requires WellFormed(c) && Safe(c, o, f, v) && Possible(c, f.dest, v, Take(p, call))
    requires p.dst != f.dest && p.frame.ttl > 0 && p.dst !in v.seen
    requires Carried(Next(c, f.dest, v, Take(p, call)), f)
    ensures Safe(c, o, f, Next(c, f.dest, v, Take(p, call)))
  {
    hide Next, Copies, CallFits, AllOnWalks, RelaysOnce, SendsBounded, GenuineCall;
    NextTake(c, f.dest, v, p, call);
    var v' := Next(c, f.dest, v, Take(p, call));
    RelayWalks(c, o, f, v, v', p, At(p.frame, Clamp(p.frame.ttl) - 1));
    RelayCounts(c, o, f.dest, v, v', p);
  }

  /** A relayed copy's walk is the relay's walk and one link more. */
  lemma WalkOn(c: Config, o: PeerId, p: Packet, q: Packet)
    requires WellFormed(c) && OnWalk(c, o, p) && Routable(q.frame)
    requires q.src == p.dst && q.dst in c.nbrs[p.dst] && q.frame.ttl as int + 1 == p.frame.ttl as int
    ensures OnWalk(c, o, q)
  {
    var path :| Travelled(c, o, p, path);
    assert Travelled(c, o, q, path + [q.dst]);
  }

  lemma {:induction false} SafeFlow(c: Config, o: PeerId, f: Frame, v: View, ms: seq<Move>)
    requires WellFormed(c) && Safe(c, o, f, v) && CanFlow(c, f.dest, v, ms)
    ensures Safe(c, o, f, Flow(c, f.dest, v, ms))
    decreases ms
  {
    if ms != [] {
      SafeStep(c, o, f, v, ms[0]);
      SafeFlow(c, o, f, Next(c, f.dest, v, ms[0]), ms[1..]);
    }
  }

  // ---- the bound on sends ------------------------------------------------------

  ghost function DegreeSum(c: Config, us: set<PeerId>): nat
    requires us <= c.nbrs.Keys
  {
    if us == {} then 0
    else
      var u :| u in us;
      |c.nbrs[u]| + DegreeSum(c, us - {u})
  }

  lemma {:induction false} DegreeSumWithout(c: Config, us: set<PeerId>, u: PeerId)
    requires us <= c.nbrs.Keys && u in us
    ensures DegreeSum(c, us) == |c.nbrs[u]| + DegreeSum(c, us - {u})
  {
    var w :| w in us && DegreeSum(c, us) == |c.nbrs[w]| + DegreeSum(c, us - {w});
    if w != u {
      DegreeSumWithout(c, us - {w}, u);
      DegreeSumWithout(c, us - {u}, w);
      assert us - {w} - {u} == us - {u} - {w};
    }
  }

  /** Distinct nodes have no more neighbours together than all nodes have. */
  lemma {:induction false} DegreesBounded(c: Config, us: seq<PeerId>, all: set<PeerId>)
    requires forall u :: u in us ==> u in all
    requires all <= c.nbrs.Keys
    requires forall i, j :: 0 <= i < j < |us| ==> us[i] != us[j]
    ensures Degrees(c, us) <= DegreeSum(c, all)
  {
    if us != [] {
      var u := us[|us| - 1];
      DegreeSumWithout(c, all, u);
      DegreesBounded(c, us[..|us| - 1], all - {u});
    }
  }
}
