/**
 When a flood reaches its destination. A copy that arrives first over a long way uses the id
 up, so a later copy with more ttl is suppressed; delivery to every reachable node therefore
 needs a small mesh, or copies handled in hop order. Both are proved here.
 */
module FloodDelivery {
  import opened Types
  import opened Wire
  import opened Node
  import opened Mesh
  import opened Flood

  /** Links a copy has crossed once it arrives: one when it comes from the origin. */
  function Hop(p: Packet): int
    requires Routable(p.frame)
  {
    MAX_TTL as int + 1 - p.frame.ttl as int
  }

  lemma CopiesAre(u: PeerId, targets: set<PeerId>, f: Frame)
    ensures forall v :: v in targets ==> Packet(u, v, f) in Copies(u, targets, f)
    ensures forall p :: p in Copies(u, targets, f) ==> p == Packet(u, p.dst, f) && p.dst in targets
  {
  }

  ghost predicate Lossless(ms: seq<Move>) {
    forall m :: m in ms ==> !m.Drop?
  }

  // ---- meshes of at most MAX_TTL + 1 nodes -------------------------------------

  ghost predicate Pending(v: View, w: PeerId) {
    exists p :: p in v.air && p.dst == w
  }

  /** `w` has the message, or a copy is on its way to it. */
  ghost predicate Reached(o: PeerId, v: View, w: PeerId) {
    w == o || w in v.seen || Pending(v, w)
  }

  /** `u` has sent the message on. */
  ghost predicate Sender(o: PeerId, d: PeerId, v: View, u: PeerId) {
    u == o || (u in v.seen && u != d)
  }

  ghost predicate Link(c: Config, u: PeerId, w: PeerId) {
    u in c.nbrs && w in c.nbrs[u] && w != u
  }

  /** Copies come from senders, and a copy with little ttl left has many relays behind it. */
  ghost predicate SmallCopies(c: Config, o: PeerId, d: PeerId, v: View) {
    forall p :: p in v.air ==>
      && Routable(p.frame) && p.dst in c.nodes && Sender(o, d, v, p.src)
      && MAX_TTL as int - p.frame.ttl as int <= |v.seen - {d}|
  }

  /** Whomever a sender has in its peer table is reached. */
  ghost predicate AllSent(c: Config, o: PeerId, d: PeerId, v: View) {
    forall u, w :: Sender(o, d, v, u) && Link(c, u, w) ==> Reached(o, v, w)
  }

  ghost predicate SmallInv(c: Config, o: PeerId, f: Frame, v: View) {
    Carried(v, f) && v.seen <= c.nodes && SmallCopies(c, o, f.dest, v) && AllSent(c, o, f.dest, v)
  }

  /** What a flood in any mesh and a move in it are assumed to be. */
  ghost predicate Flooding(c: Config, o: PeerId, f: Frame) {
    && WellFormed(c) && o in c.nodes && Routable(f) && f.dest in c.nodes && f.dest != o
  }

  lemma SmallStart(c: Config, o: PeerId, f: Frame)
    requires Flooding(c, o, f) && f.ttl == MAX_TTL
    ensures SmallInv(c, o, f, Start(c, o, f))
  {
    hide Copies;
    var v := Start(c, o, f);
    CopiesAre(o, OriginTargets(c, o, f), f);
    forall u, w | Sender(o, f.dest, v, u) && Link(c, u, w) ensures Reached(o, v, w) {
      assert Packet(o, w, f) in v.air;
    }
  }

  /** A ttl-0 copy has used up MAX_TTL distinct relays; with dropper and destination that is MAX_TTL + 2 nodes. */
  lemma NoHarmfulDrop(c: Config, o: PeerId, f: Frame, v: View, p: Packet)
    requires Flooding(c, o, f) && SmallInv(c, o, f, v) && |c.nodes| <= MAX_TTL as int + 1
    requires p in v.air && p.frame.ttl == 0 && p.dst != f.dest
    ensures p.dst in v.seen
  {
    if p.dst !in v.seen {
      var relays := v.seen - {f.dest};
      var all := relays + {f.dest} + {p.dst};
      assert |all| == |relays| + 2;
      SubsetSize(all, c.nodes);
      assert false;
    }
  }

  lemma SubsetSize(a: set<PeerId>, b: set<PeerId>)
    requires a <= b
    ensures |a| <= |b|
  {
    assert b == a + (b - a);
  }

  lemma SmallStep(c: Config, o: PeerId, f: Frame, v: View, m: Move)
    requires Flooding(c, o, f) && SmallInv(c, o, f, v) && |c.nodes| <= MAX_TTL as int + 1
    requires Possible(c, f.dest, v, m) && !m.Drop?
    ensures SmallInv(c, o, f, Next(c, f.dest, v, m))
  {
    if m.Take? && m.p.dst != f.dest && m.p.frame.ttl > 0 && m.p.dst !in v.seen {
      SmallRelay(c, o, f, v, m.p, m.call);
    } else if !m.Idle? {
      if m.Take? && m.p.dst != f.dest && m.p.frame.ttl == 0 { NoHarmfulDrop(c, o, f, v, m.p); }
      SmallOther(c, o, f, v, m);
    }
  }

  /** `v'` is `v` after a move that makes no new sender: a retry, a repeat, an arrival, or a drop at ttl 0. */
  ghost predicate Settling(d: PeerId, v: View, v': View, m: Move) {
    && (m.Copy? || m.Take?) && m.p in v.air
    && v'.air == (if m.Copy? then v.air + multiset{m.p} else v.air - multiset{m.p})
    && v'.seen == (if m.Take? && m.p.dst == d then v.seen + {d} else v.seen)
  }

  lemma SmallOther(c: Config, o: PeerId, f: Frame, v: View, m: Move)
    requires Flooding(c, o, f) && SmallInv(c, o, f, v)
    requires Possible(c, f.dest, v, m) && (m.Take? || m.Copy?)
    requires m.Take? ==> m.p.dst == f.dest || m.p.dst in v.seen
    ensures SmallInv(c, o, f, Next(c, f.dest, v, m))
  {
    hide Copies, CallFits, SmallCopies, AllSent;
    CarriedNext(c, v, f, m);
    SettleSmall(c, o, f.dest, v, Next(c, f.dest, v, m), m);
  }

  lemma SettleSmall(c: Config, o: PeerId, d: PeerId, v: View, v': View, m: Move)
    requires SmallCopies(c, o, d, v) && AllSent(c, o, d, v) && Settling(d, v, v', m)
    requires m.Take? ==> m.p.dst in v'.seen
    ensures SmallCopies(c, o, d, v') && AllSent(c, o, d, v')
  {
    hide Reached;
    assert v'.seen - {d} == v.seen - {d};
    StillReached(o, v, v', if m.Take? then Some(m.p) else None);
  }

  /** Nobody stops being reached when a copy is taken by a node that then has the message. */
  lemma StillReached(o: PeerId, v: View, v': View, taken: Option<Packet>)
    requires v.seen <= v'.seen
    requires forall q :: q in v.air && Some(q) != taken ==> q in v'.air
    requires taken.Some? ==> taken.value.dst in v'.seen
    ensures forall w :: Reached(o, v, w) ==> Reached(o, v', w)
  {
  }

  lemma SmallRelay(c: Config, o: PeerId, f: Frame, v: View, p: Packet, call: Option<Call>)
    requires Flooding(c, o, f) && SmallInv(c, o, f, v)
    requires Possible(c, f.dest, v, Take(p, call))
    requires p.dst != f.dest && p.frame.ttl > 0 && p.dst !in v.seen
    ensures SmallInv(c, o, f, Next(c, f.dest, v, Take(p, call)))
  {
    hide Next, Copies, CallFits, SmallCopies, AllSent;
    var v' := Next(c, f.dest, v, Take(p, call));
    CarriedNext(c, v, f, Take(p, call));
    NextTake(c, f.dest, v, p, call);
    RelayCopies(c, o, f.dest, v, v', p, At(p.frame, Clamp(p.frame.ttl) - 1));
    RelaySent(c, o, f.dest, v, v', p, At(p.frame, Clamp(p.frame.ttl) - 1));
  }

  /** `v'` is `v` after `p.dst` recorded the id and put copies of `g` in the air. */
  ghost predicate Relaying(c: Config, d: PeerId, v: View, v': View, p: Packet, g: Frame) {
    && p in v.air && p.dst in c.nbrs && p.dst != d && p.dst !in v.seen
    && v'.seen == v.seen + {p.dst}
    && v'.air == v.air - multiset{p} + Copies(p.dst, RelayTargets(c, p.dst, p.src), g)
  }

  lemma RelayCopies(c: Config, o: PeerId, d: PeerId, v: View, v': View, p: Packet, g: Frame)
    requires WellFormed(c) && SmallCopies(c, o, d, v) && Relaying(c, d, v, v', p, g)
    requires Routable(g) && Routable(p.frame) && p.frame.ttl as int - g.ttl as int <= 1
    ensures SmallCopies(c, o, d, v') && Sender(o, d, v, p.src)
  {
  }

  lemma RelaySent(c: Config, o: PeerId, d: PeerId, v: View, v': View, p: Packet, g: Frame)
    requires AllSent(c, o, d, v) && Relaying(c, d, v, v', p, g) && Sender(o, d, v, p.src)
    ensures AllSent(c, o, d, v')
  {
    hide Copies, Reached;
    CopiesAre(p.dst, RelayTargets(c, p.dst, p.src), g);
    StillReached(o, v, v', Some(p));
    forall u, w | Sender(o, d, v', u) && Link(c, u, w) ensures Reached(o, v', w) {
      if u == p.dst { RelayReaches(c, o, v', p, w, g); }
    }
  }

  /** The relay's peers are reached; the one it heard from has the message already. */
  lemma RelayReaches(c: Config, o: PeerId, v': View, p: Packet, w: PeerId, g: Frame)
    requires Link(c, p.dst, w) && (p.src == o || p.src in v'.seen)
    requires Copies(p.dst, RelayTargets(c, p.dst, p.src), g) <= v'.air
    ensures Reached(o, v', w)
  {
    CopiesAre(p.dst, RelayTargets(c, p.dst, p.src), g);
    if w != p.src { assert Packet(p.dst, w, g) in v'.air; }
  }

  /** When nothing is in the air any more, whoever the origin's peers lead to has the message. */
  lemma {:induction false} QuietMeansSeen(c: Config, o: PeerId, f: Frame, v: View, path: seq<PeerId>, i: nat)
    requires Flooding(c, o, f) && SmallInv(c, o, f, v) && v.air == multiset{}
    requires Connects(c, path, o, f.dest) && i < |path|
    ensures f.dest in v.seen || path[i] == o || (path[i] in v.seen && path[i] != f.dest)
  {
    if i > 0 {
      QuietMeansSeen(c, o, f, v, path, i - 1);
      assert path[i - 1 + 1] in c.nbrs[path[i - 1]];
      if f.dest !in v.seen {
        assert Sender(o, f.dest, v, path[i - 1]);
        assert path[i] != path[i - 1] ==> Link(c, path[i - 1], path[i]);
      }
    }
  }

  lemma {:induction false} SmallFlow(c: Config, o: PeerId, f: Frame, v: View, ms: seq<Move>)
    requires Flooding(c, o, f) && SmallInv(c, o, f, v) && |c.nodes| <= MAX_TTL as int + 1
    requires CanFlow(c, f.dest, v, ms) && Lossless(ms)
    ensures SmallInv(c, o, f, Flow(c, f.dest, v, ms))
    decreases ms
  {
    if ms != [] {
      assert ms[0] in ms;
      SmallStep(c, o, f, v, ms[0]);
      SmallFlow(c, o, f, Next(c, f.dest, v, ms[0]), ms[1..]);
    }
  }

  // ---- copies handled in hop order ---------------------------------------------

  /** `h` gives the hop at which each node got the message; copies in flight are no fewer hops old. */
  ghost predicate HopCopies(c: Config, v: View, h: map<PeerId, int>) {
    forall p :: p in v.air ==>
      && Routable(p.frame) && p.src in h && p.dst in c.nodes
      && forall u :: u in h ==> h[u] <= Hop(p)
  }

  /** A node's peers hear from it one hop later; at the last hop only the destination takes a copy. */
  ghost predicate HopSent(c: Config, d: PeerId, v: View, h: map<PeerId, int>) {
    forall u, w :: u in h && u != d && Link(c, u, w) && (w == d || h[u] < MAX_TTL as int) ==>
      InTime(v, h, w, h[u] + 1)
  }

  ghost predicate HopInv(c: Config, o: PeerId, f: Frame, v: View, h: map<PeerId, int>) {
    && Carried(v, f) && h.Keys == v.seen + {o} && h[o] == 0
    && HopCopies(c, v, h) && HopSent(c, f.dest, v, h)
  }

  /** `w` got the message by hop `k`, or a copy is under way that will have crossed at most `k` links. */
  ghost predicate InTime(v: View, h: map<PeerId, int>, w: PeerId, k: int) {
    (w in h && h[w] <= k) || exists p :: p in v.air && p.dst == w && Routable(p.frame) && Hop(p) <= k
  }

  /** The copy taken has crossed no more links than any other in flight. */
  ghost predicate HopFirst(v: View, m: Move) {
    m.Take? && Routable(m.p.frame) ==>
      forall q :: q in v.air && Routable(q.frame) ==> Hop(m.p) <= Hop(q)
  }

  lemma HopStart(c: Config, o: PeerId, f: Frame)
    requires Flooding(c, o, f) && f.ttl == MAX_TTL
    ensures HopInv(c, o, f, Start(c, o, f), map[o := 0])
  {
    hide Copies;
    var v, h: map<PeerId, int> := Start(c, o, f), map[o := 0];
    CopiesAre(o, OriginTargets(c, o, f), f);
    forall u, w | u in h && Link(c, u, w) ensures InTime(v, h, w, 1) {
      assert Packet(o, w, f) in v.air;
    }
  }

  /** The packet taken does not matter for `w` being in time by `k`: others do, or its receiver is in time itself. */
  ghost predicate Spared(taken: Option<Packet>, h': map<PeerId, int>, w: PeerId, k: int) {
    taken.Some? && Routable(taken.value.frame) ==>
      var p := taken.value;
      w != p.dst || k < Hop(p) || (w in h' && h'[w] <= Hop(p))
  }

  lemma StillInTime(v: View, v': View, h: map<PeerId, int>, h': map<PeerId, int>, taken: Option<Packet>, w: PeerId, k: int)
    requires InTime(v, h, w, k) && Spared(taken, h', w, k)
    requires taken.Some? ==> Routable(taken.value.frame)
    requires forall q :: q in v.air && Some(q) != taken ==> q in v'.air
    requires forall u :: u in h ==> u in h' && h'[u] == h[u]
    ensures InTime(v', h', w, k)
  {
  }

  lemma HopStep(c: Config, o: PeerId, f: Frame, v: View, h: map<PeerId, int>, m: Move) returns (h': map<PeerId, int>)
    requires Flooding(c, o, f) && HopInv(c, o, f, v, h)
    requires Possible(c, f.dest, v, m) && !m.Drop? && HopFirst(v, m)
    ensures HopInv(c, o, f, Next(c, f.dest, v, m), h')
  {
    if m.Take? && m.p.dst != f.dest && m.p.frame.ttl > 0 && m.p.dst !in v.seen {
      h' := HopRelay(c, o, f, v, h, m.p, m.call);
    } else if m.Idle? {
      h' := h;
    } else {
      h' := if m.Take? && m.p.dst == f.dest && f.dest !in h then h[f.dest := Hop(m.p)] else h;
      HopOther(c, o, f, v, h, h', m);
    }
  }

  lemma HopOther(c: Config, o: PeerId, f: Frame, v: View, h: map<PeerId, int>, h': map<PeerId, int>, m: Move)
    requires Flooding(c, o, f) && HopInv(c, o, f, v, h)
    requires Possible(c, f.dest, v, m) && (m.Take? || m.Copy?) && HopFirst(v, m)
    requires m.Take? ==> m.p.dst == f.dest || m.p.dst in v.seen || m.p.frame.ttl == 0
    requires h' == if m.Take? && m.p.dst == f.dest && f.dest !in h then h[f.dest := Hop(m.p)] else h
    ensures HopInv(c, o, f, Next(c, f.dest, v, m), h')
  {
    hide Copies, CallFits, HopCopies, HopSent, HopFirst;
    CarriedNext(c, v, f, m);
    SettleHop(c, f.dest, v, Next(c, f.dest, v, m), h, h', m);
  }

  lemma SettleKeepsTime(c: Config, d: PeerId, v: View, v': View, h: map<PeerId, int>, h': map<PeerId, int>, m: Move,
                        u: PeerId, w: PeerId)
    requires HopCopies(c, v, h) && HopSent(c, d, v, h) && Settling(d, v, v', m)
    requires Routable(m.p.frame) && m.p.frame.ttl <= MAX_TTL
    requires m.Take? ==> m.p.dst == d || m.p.dst in h || m.p.frame.ttl == 0
    requires h' == if m.Take? && m.p.dst == d && d !in h then h[d := Hop(m.p)] else h
    requires u in h' && u != d && Link(c, u, w) && (w == d || h'[u] < MAX_TTL as int)
    ensures InTime(v', h', w, h'[u] + 1)
  {
    hide InTime;
    assert InTime(v, h, w, h[u] + 1);
    StillInTime(v, v', h, h', if m.Take? then Some(m.p) else None, w, h[u] + 1);
  }

  lemma SettleHop(c: Config, d: PeerId, v: View, v': View, h: map<PeerId, int>, h': map<PeerId, int>, m: Move)
    requires HopCopies(c, v, h) && HopSent(c, d, v, h) && Settling(d, v, v', m) && HopFirst(v, m)
    requires Routable(m.p.frame) && m.p.frame.ttl <= MAX_TTL
    requires m.Take? ==> m.p.dst == d || m.p.dst in h || m.p.frame.ttl == 0
    requires h' == if m.Take? && m.p.dst == d && d !in h then h[d := Hop(m.p)] else h
    ensures HopCopies(c, v', h') && HopSent(c, d, v', h')
  {
    hide InTime, Link;
    forall u, w | u in h' && u != d && Link(c, u, w) && (w == d || h'[u] < MAX_TTL as int)
      ensures InTime(v', h', w, h'[u] + 1)
    {
      SettleKeepsTime(c, d, v, v', h, h', m, u, w);
    }
  }

  lemma HopRelay(c: Config, o: PeerId, f: Frame, v: View, h: map<PeerId, int>, p: Packet, call: Option<Call>)
    returns (h': map<PeerId, int>)
    requires Flooding(c, o, f) && HopInv(c, o, f, v, h)
    requires Possible(c, f.dest, v, Take(p, call)) && HopFirst(v, Take(p, call))
    requires p.dst != f.dest && p.frame.ttl > 0 && p.dst !in v.seen
    ensures HopInv(c, o, f, Next(c, f.dest, v, Take(p, call)), h')
  {
    hide Next, Copies, CallFits, HopCopies, HopSent, HopFirst;
    CarriedNext(c, v, f, Take(p, call));
    NextTake(c, f.dest, v, p, call);
    h' := if p.dst == o then h else h[p.dst := Hop(p)];
    RelayHops(c, f.dest, v, Next(c, f.dest, v, Take(p, call)), h, h', p, At(p.frame, Clamp(p.frame.ttl) - 1));
  }

  /** Whoever had to be in time still is, and the peers of the new relay are. */
  lemma RelayKeepsTime(c: Config, d: PeerId, v: View, v': View, h: map<PeerId, int>, h': map<PeerId, int>, p: Packet, g: Frame,
                       u: PeerId, w: PeerId)
    requires HopCopies(c, v, h) && HopSent(c, d, v, h) && Relaying(c, d, v, v', p, g)
    requires Routable(p.frame) && Routable(g) && p.frame.ttl as int == g.ttl as int + 1
    requires h' == if p.dst in h then h else h[p.dst := Hop(p)]
    requires Copies(p.dst, RelayTargets(c, p.dst, p.src), g) <= v'.air
    requires u in h' && u != d && Link(c, u, w) && (w == d || h'[u] < MAX_TTL as int)
    ensures InTime(v', h', w, h'[u] + 1)
  {
    hide InTime, Copies;
    if u in h {
      assert InTime(v, h, w, h[u] + 1);
      StillInTime(v, v', h, h', Some(p), w, h[u] + 1);
    } else {
      RelayInTime(c, v', h', p, w, g);
    }
  }

  lemma RelayHops(c: Config, d: PeerId, v: View, v': View, h: map<PeerId, int>, h': map<PeerId, int>, p: Packet, g: Frame)
    requires WellFormed(c) && HopCopies(c, v, h) && HopSent(c, d, v, h)
    requires Relaying(c, d, v, v', p, g) && HopFirst(v, Take(p, None))
    requires Routable(p.frame) && Routable(g) && p.frame.ttl as int == g.ttl as int + 1
    requires h' == if p.dst in h then h else h[p.dst := Hop(p)]
    ensures HopCopies(c, v', h') && HopSent(c, d, v', h')
  {
    hide InTime, Copies, HopFirst, HopCopies, Link, Relaying;
    RelayHopCopies(c, d, v, v', h, h', p, g);
    forall u, w | u in h' && u != d && Link(c, u, w) && (w == d || h'[u] < MAX_TTL as int)
      ensures InTime(v', h', w, h'[u] + 1)
    {
      RelayKeepsTime(c, d, v, v', h, h', p, g, u, w);
    }
  }

  lemma RelayHopCopies(c: Config, d: PeerId, v: View, v': View, h: map<PeerId, int>, h': map<PeerId, int>, p: Packet, g: Frame)
    requires WellFormed(c) && HopCopies(c, v, h)
    requires Relaying(c, d, v, v', p, g) && HopFirst(v, Take(p, None))
    requires Routable(p.frame) && Routable(g) && p.frame.ttl as int == g.ttl as int + 1
    requires h' == if p.dst in h then h else h[p.dst := Hop(p)]
    ensures HopCopies(c, v', h') && Copies(p.dst, RelayTargets(c, p.dst, p.src), g) <= v'.air
  {
  }

  lemma RelayInTime(c: Config, v': View, h': map<PeerId, int>, p: Packet, w: PeerId, g: Frame)
    requires Link(c, p.dst, w) && Routable(p.frame) && Routable(g) && p.frame.ttl as int == g.ttl as int + 1
    requires p.src in h' && h'[p.src] <= Hop(p)
    requires Copies(p.dst, RelayTargets(c, p.dst, p.src), g) <= v'.air
    ensures InTime(v', h', w, Hop(p) + 1)
  {
    CopiesAre(p.dst, RelayTargets(c, p.dst, p.src), g);
    if w != p.src { assert Packet(p.dst, w, g) in v'.air; }
  }

  ghost predicate HopOrdered(c: Config, d: PeerId, v: View, ms: seq<Move>)
    requires CanFlow(c, d, v, ms)
    decreases ms
  {
    ms != [] ==> HopFirst(v, ms[0]) && HopOrdered(c, d, Next(c, d, v, ms[0]), ms[1..])
  }

  lemma {:induction false} HopFlow(c: Config, o: PeerId, f: Frame, v: View, h: map<PeerId, int>, ms: seq<Move>)
    returns (h': map<PeerId, int>)
    requires Flooding(c, o, f) && HopInv(c, o, f, v, h)
    requires CanFlow(c, f.dest, v, ms) && Lossless(ms) && HopOrdered(c, f.dest, v, ms)
    ensures HopInv(c, o, f, Flow(c, f.dest, v, ms), h')
    decreases ms
  {
    h' := h;
    if ms != [] {
      assert ms[0] in ms;
      h' := HopStep(c, o, f, v, h, ms[0]);
      h' := HopFlow(c, o, f, Next(c, f.dest, v, ms[0]), h', ms[1..]);
    }
  }

  /** When nothing is in the air any more, node `i` of a path got the message by hop `i`. */
  lemma {:induction false} QuietInTime(c: Config, o: PeerId, f: Frame, v: View, h: map<PeerId, int>, path: seq<PeerId>, i: nat)
    requires Flooding(c, o, f) && HopInv(c, o, f, v, h) && v.air == multiset{}
    requires Connects(c, path, o, f.dest) && |path| - 1 <= MAX_TTL as int + 1 && i < |path|
    ensures f.dest in v.seen || (path[i] in h && h[path[i]] <= i && path[i] != f.dest)
  {
    if i > 0 {
      QuietInTime(c, o, f, v, h, path, i - 1);
      assert path[i - 1 + 1] in c.nbrs[path[i - 1]];
      if f.dest !in v.seen && path[i] != path[i - 1] {
        assert path[i] == f.dest || i < |path| - 1;
        assert Link(c, path[i - 1], path[i]);
        assert InTime(v, h, path[i], h[path[i - 1]] + 1);
      }
    }
  }

  // ---- the theorems on views ---------------------------------------------------

  lemma SmallMeshReaches(c: Config, o: PeerId, f: Frame, ms: seq<Move>, path: seq<PeerId>)
    requires Flooding(c, o, f) && f.ttl == MAX_TTL && |c.nodes| <= MAX_TTL as int + 1
    requires CanFlow(c, f.dest, Start(c, o, f), ms) && Lossless(ms)
    requires Flow(c, f.dest, Start(c, o, f), ms).air == multiset{}
    requires Connects(c, path, o, f.dest)
    ensures f.dest in Flow(c, f.dest, Start(c, o, f), ms).seen
  {
    SmallStart(c, o, f);
    SmallFlow(c, o, f, Start(c, o, f), ms);
    QuietMeansSeen(c, o, f, Flow(c, f.dest, Start(c, o, f), ms), path, |path| - 1);
  }

  lemma HopOrderReaches(c: Config, o: PeerId, f: Frame, ms: seq<Move>, path: seq<PeerId>)
    requires Flooding(c, o, f) && f.ttl == MAX_TTL
    requires CanFlow(c, f.dest, Start(c, o, f), ms) && Lossless(ms) && HopOrdered(c, f.dest, Start(c, o, f), ms)
    requires Flow(c, f.dest, Start(c, o, f), ms).air == multiset{}
    requires Connects(c, path, o, f.dest) && |path| - 1 <= MAX_TTL as int + 1
    ensures f.dest in Flow(c, f.dest, Start(c, o, f), ms).seen
  {
    HopStart(c, o, f);
    var h := HopFlow(c, o, f, Start(c, o, f), map[o := 0], ms);
    QuietInTime(c, o, f, Flow(c, f.dest, Start(c, o, f), ms), h, path, |path| - 1);
  }
}
