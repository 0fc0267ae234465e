/**
 How large a mesh may be for flooding to reach every node the peer tables lead to. Up to
 MAX_TTL + 1 nodes it always does; from MAX_TTL + 2 nodes on there is a mesh and a run,
 losing nothing, in which the destination never hears of the message.
 */
module FloodThreshold {
  import opened Types
  import opened Wire
  import opened Node
  import opened Mesh
  import opened Flood
  import opened FloodDelivery
  import opened MeshTheorems
  import KeyRegistry

  // ---- a mesh in which a long way is faster than a short one --------------------

  /** A triangle n0-n1-n2 with a tail n0-n3-n4-n5-n6-n7-n8; any further node has no peers. All links go both ways. */
  function KitePeers(n: seq<PeerId>, u: PeerId): set<PeerId>
    requires |n| == 9
  {
    if u == n[0] then {n[1], n[2], n[3]}
    else if u == n[1] then {n[0], n[2]}
    else if u == n[2] then {n[0], n[1]}
    else if u == n[3] then {n[0], n[4]}
    else if u == n[4] then {n[3], n[5]}
    else if u == n[5] then {n[4], n[6]}
    else if u == n[6] then {n[5], n[7]}
    else if u == n[7] then {n[6], n[8]}
    else if u == n[8] then {n[7]}
    else {}
  }

  function Kite(n: seq<PeerId>, nodes: set<PeerId>): Config
    requires |n| == 9
  {
    Config(nodes, map u | u in nodes :: KitePeers(n, u), {}, Crypto((k: Key) => PeerId(k), (self, key, sealed) => None))
  }

  ghost predicate KiteNodes(n: seq<PeerId>, nodes: set<PeerId>) {
    |n| == 9 && Distinct(n) && forall i :: 0 <= i < 9 ==> n[i] in nodes
  }

  function Probe(n: seq<PeerId>, ttl: byte): Frame
    requires |n| == 9
  {
    Routed(n[8], ttl, [])
  }

  function Hopping(n: seq<PeerId>, i: nat, j: nat, ttl: byte): Packet
    requires |n| == 9 && i < 9 && j < 9
  {
    Packet(n[i], n[j], Probe(n, ttl))
  }

  /** One relay to one further node. */
  lemma RelayOne(c: Config, d: PeerId, v: View, p: Packet, w: PeerId)
    requires p.dst in c.nbrs && Routable(p.frame) && 0 < p.frame.ttl <= MAX_TTL
    requires p.dst != d && p.dst !in v.seen && p in v.air
    requires RelayTargets(c, p.dst, p.src) == {w}
    ensures var v' := Next(c, d, v, Take(p, None));
            v'.air == v.air - multiset{p} + multiset{Packet(p.dst, w, At(p.frame, p.frame.ttl - 1))} && v'.seen == v.seen + {p.dst}
  {
  }

  lemma CopiesTwo(u: PeerId, w: PeerId, x: PeerId, g: Frame)
    requires w != x
    ensures Copies(u, {w, x}, g) == multiset{Packet(u, w, g), Packet(u, x, g)}
  {
    assert (set y | y in {w, x} :: Packet(u, y, g)) == {Packet(u, w, g), Packet(u, x, g)};
    assert multiset({Packet(u, w, g), Packet(u, x, g)}) == multiset{Packet(u, w, g), Packet(u, x, g)};
  }

  lemma RelayTwo(c: Config, d: PeerId, v: View, p: Packet, w: PeerId, x: PeerId)
    requires p.dst in c.nbrs && Routable(p.frame) && 0 < p.frame.ttl <= MAX_TTL
    requires p.dst != d && p.dst !in v.seen && p in v.air
    requires RelayTargets(c, p.dst, p.src) == {w, x} && w != x
    ensures var g := At(p.frame, p.frame.ttl - 1);
            var v' := Next(c, d, v, Take(p, None));
            v'.air == v.air - multiset{p} + multiset{Packet(p.dst, w, g), Packet(p.dst, x, g)} && v'.seen == v.seen + {p.dst}
  {
    CopiesTwo(p.dst, w, x, At(p.frame, p.frame.ttl - 1));
    NextTake(c, d, v, p, None);
    hide Next, Copies, RelayTargets;
  }

  // ---- building a run arrival by arrival ---------------------------------------

  lemma {:induction false} RunAppend(c: Config, s: State, steps: seq<Step>, step: Step)
    requires CanRun(c, s, steps) && Enabled(c, Run(c, s, steps), step)
    ensures CanRun(c, s, steps + [step])
    ensures Run(c, s, steps + [step]) == Apply(c, Run(c, s, steps), step)
    decreases steps
  {
    hide Apply, Enabled;
    if steps == [] {
      assert steps + [step] == [step];
      assert CanRun(c, Apply(c, s, step), []);
    } else {
      RunAppend(c, Apply(c, s, steps[0]), steps[1..], step);
      assert (steps + [step])[1..] == steps[1..] + [step];
    }
  }

  /** `steps` is a run of arrivals after the launch that loses nothing, takes no time and leaves view `v`. */
  ghost predicate Witness(c: Config, s: State, o: PeerId, id: MsgId, f: Frame, steps: seq<Step>, v: View) {
    && FloodRun(c, s, o, id, f, steps) && NothingLost(steps, id)
    && var s' := Run(c, Launched(c, s, o, id, f), steps);
       s'.now == s.now && s'.node.Keys == c.nodes && Window(s'.node, id, s.now) && ViewOf(s', id) == v && Carried(v, f)
  }

  /** A copy arrives somewhere other than the destination. */
  lemma Arrive(c: Config, s: State, o: PeerId, id: MsgId, f: Frame, steps: seq<Step>, v: View, p: Packet)
    returns (steps': seq<Step>, v': View)
    requires Witness(c, s, o, id, f, steps, v)
    requires p in v.air && p.dst in c.nodes && p.dst != f.dest
    ensures Routable(p.frame) && v' == Next(c, f.dest, v, Take(p, None))
    ensures Witness(c, s, o, id, f, steps', v')
  {
    hide Apply, Next, Possible, RelaysIn, SendsIn, CallsIn, Dispatch, SeenBy;
    var s1 := Launched(c, s, o, id, f);
    var sn := Run(c, s1, steps);
    var step := Deliver(id, p);
    StepProjects(c, sn, step, id, f, s.now);
    EffectInWindow(c, sn, p, id, f, s.now);
    ArriveKeeps(c, sn, id, p);
    RunAppend(c, s1, steps, step);
    steps', v' := steps + [step], Next(c, f.dest, v, Take(p, None));
  }

  lemma ArriveKeeps(c: Config, s: State, id: MsgId, p: Packet)
    requires Enabled(c, s, Deliver(id, p))
    ensures var s' := Apply(c, s, Deliver(id, p)); s'.now == s.now && s'.node.Keys == s.node.Keys
  {
  }

  // ---- the run -----------------------------------------------------------------

  function Quiet(c: Config): State {
    State(map u | u in c.nodes :: NodeState(map[], map[], KeyRegistry.Empty(None)), map[], 0, [])
  }

  /** A copy in flight next to `rest`, and who has recorded the id. */
  ghost predicate Holds(v: View, p: Packet, rest: multiset<Packet>, seen: set<PeerId>) {
    v.air == multiset{p} + rest && v.seen == seen
  }

  /** The copy held is relayed to one further node. */
  lemma Pass(c: Config, s: State, o: PeerId, id: MsgId, f: Frame, steps: seq<Step>, v: View,
             p: Packet, rest: multiset<Packet>, seen: set<PeerId>, w: PeerId)
    returns (steps': seq<Step>, v': View)
    requires Witness(c, s, o, id, f, steps, v) && Holds(v, p, rest, seen)
    requires p.dst in c.nodes && p.dst != f.dest && p.dst !in seen
    requires Routable(p.frame) && 0 < p.frame.ttl <= MAX_TTL && RelayTargets(c, p.dst, p.src) == {w}
    ensures Witness(c, s, o, id, f, steps', v')
    ensures Holds(v', Packet(p.dst, w, At(p.frame, p.frame.ttl - 1)), rest, seen + {p.dst})
  {
    hide Next, Witness;
    WitnessConfig(c, s, o, id, f, steps, v);
    RelayOne(c, f.dest, v, p, w);
    steps', v' := Arrive(c, s, o, id, f, steps, v, p);
    var q := Packet(p.dst, w, At(p.frame, p.frame.ttl - 1));
    assert multiset{p} + rest - multiset{p} + multiset{q} == multiset{q} + rest;
  }

  /** The copy held goes nowhere: its receiver knows the id, or its ttl has run out. */
  lemma Waste(c: Config, s: State, o: PeerId, id: MsgId, f: Frame, steps: seq<Step>, v: View,
              p: Packet, rest: multiset<Packet>, seen: set<PeerId>)
    returns (steps': seq<Step>, v': View)
    requires Witness(c, s, o, id, f, steps, v) && Holds(v, p, rest, seen)
    requires p.dst in c.nodes && p.dst != f.dest
    requires Routable(p.frame) && (p.frame.ttl == 0 || p.dst in seen)
    ensures Witness(c, s, o, id, f, steps', v')
    ensures v'.air == rest && v'.seen == seen
  {
    hide Witness;
    WitnessConfig(c, s, o, id, f, steps, v);
    steps', v' := Arrive(c, s, o, id, f, steps, v, p);
    assert multiset{p} + rest - multiset{p} == rest;
  }

  lemma WitnessConfig(c: Config, s: State, o: PeerId, id: MsgId, f: Frame, steps: seq<Step>, v: View)
    requires Witness(c, s, o, id, f, steps, v)
    ensures WellFormed(c) && Routable(f)
  {
  }

  lemma KitePeersKnown(n: seq<PeerId>, nodes: set<PeerId>, u: PeerId)
    requires KiteNodes(n, nodes)
    ensures KitePeers(n, u) <= nodes
  {
    hide Distinct;
  }

  lemma KiteShape(n: seq<PeerId>, nodes: set<PeerId>)
    requires KiteNodes(n, nodes)
    ensures WellFormed(Kite(n, nodes))
    ensures forall i :: 0 <= i < 9 ==> n[i] in Kite(n, nodes).nbrs && Kite(n, nodes).nbrs[n[i]] == KitePeers(n, n[i])
  {
    hide KitePeers, Distinct;
    forall u | u in nodes ensures KitePeers(n, u) <= nodes { KitePeersKnown(n, nodes, u); }
  }

  lemma KiteStart(n: seq<PeerId>, nodes: set<PeerId>)
    requires KiteNodes(n, nodes)
    ensures WellFormed(Kite(n, nodes))
    ensures var v := Start(Kite(n, nodes), n[0], Probe(n, 7));
            Holds(v, Hopping(n, 0, 1, 7), multiset{Hopping(n, 0, 2, 7), Hopping(n, 0, 3, 7)}, {})
  {
    KiteShape(n, nodes);
    hide Kite;
    var c, f := Kite(n, nodes), Probe(n, 7);
    var targets := OriginTargets(c, n[0], f);
    assert targets == {n[1], n[2], n[3]};
    assert (set w | w in targets :: Packet(n[0], w, f)) == {Hopping(n, 0, 1, 7), Hopping(n, 0, 2, 7), Hopping(n, 0, 3, 7)};
  }

  lemma KiteLaunch(n: seq<PeerId>, nodes: set<PeerId>, id: MsgId) returns (v: View)
    requires KiteNodes(n, nodes)
    ensures Witness(Kite(n, nodes), Quiet(Kite(n, nodes)), n[0], id, Probe(n, 7), [], v)
    ensures Holds(v, Hopping(n, 0, 1, 7), multiset{Hopping(n, 0, 2, 7), Hopping(n, 0, 3, 7)}, {})
  {
    hide Apply, ViewOf, Kite, Quiet, Holds, Carried, Distinct, Copies;
    var c, f := Kite(n, nodes), Probe(n, 7);
    KiteStart(n, nodes);
    KiteQuiet(n, nodes, id);
    LaunchView(c, Quiet(c), n[0], id, f);
    LaunchTime(c, Quiet(c), n[0], id, f);
    v := Start(c, n[0], f);
  }

  lemma KiteQuiet(n: seq<PeerId>, nodes: set<PeerId>, id: MsgId)
    requires KiteNodes(n, nodes)
    ensures Unused(Quiet(Kite(n, nodes)), id) && Kite(n, nodes).nodes == nodes
    ensures Launched(Kite(n, nodes), Quiet(Kite(n, nodes)), n[0], id, Probe(n, 7)).node.Keys == nodes
  {
  }

  /** The first two sides of the triangle. */
  lemma KiteSides(n: seq<PeerId>, nodes: set<PeerId>, id: MsgId) returns (steps: seq<Step>, v: View)
    requires KiteNodes(n, nodes)
    ensures Witness(Kite(n, nodes), Quiet(Kite(n, nodes)), n[0], id, Probe(n, 7), steps, v)
    ensures Holds(v, Hopping(n, 2, 0, 5), multiset{Hopping(n, 0, 2, 7), Hopping(n, 0, 3, 7)}, {n[1], n[2]})
  {
    hide Next, Witness, Kite, Holds;
    var c, f := Kite(n, nodes), Probe(n, 7);
    var s, rest := Quiet(c), multiset{Hopping(n, 0, 2, 7), Hopping(n, 0, 3, 7)};
    KiteShape(n, nodes);
    v := KiteLaunch(n, nodes, id);
    assert RelayTargets(c, n[1], n[0]) == {n[2]};
    steps, v := Pass(c, s, n[0], id, f, [], v, Hopping(n, 0, 1, 7), rest, {}, n[2]);
    assert RelayTargets(c, n[2], n[1]) == {n[0]};
    assert {} + {n[1]} == {n[1]} && {n[1]} + {n[2]} == {n[1], n[2]};
    steps, v := Pass(c, s, n[0], id, f, steps, v, Hopping(n, 1, 2, 6), rest, {n[1]}, n[0]);
  }

  /** Round the triangle: n0 hears its own message from n2 and relays it with ttl 4. */
  lemma KiteTriangle(n: seq<PeerId>, nodes: set<PeerId>, id: MsgId) returns (steps: seq<Step>, v: View)
    requires KiteNodes(n, nodes)
    ensures Witness(Kite(n, nodes), Quiet(Kite(n, nodes)), n[0], id, Probe(n, 7), steps, v)
    ensures Holds(v, Hopping(n, 0, 3, 4), Leftover(n), {n[1], n[2], n[0]})
  {
    hide Next, Witness, Kite;
    var c, f := Kite(n, nodes), Probe(n, 7);
    KiteShape(n, nodes);
    assert RelayTargets(c, n[0], n[2]) == {n[1], n[3]};
    steps, v := KiteSides(n, nodes, id);
    RelayTwo(c, f.dest, v, Hopping(n, 2, 0, 5), n[1], n[3]);
    steps, v := Arrive(c, Quiet(c), n[0], id, f, steps, v, Hopping(n, 2, 0, 5));
    assert v.air == multiset{Hopping(n, 0, 3, 4)} + Leftover(n);
  }

  /** Copies that arrive too late. */
  function Leftover(n: seq<PeerId>): multiset<Packet>
    requires |n| == 9
  {
    multiset{Hopping(n, 0, 2, 7)} + multiset{Hopping(n, 0, 3, 7)} + multiset{Hopping(n, 0, 1, 4)}
  }

  /** Down the tail the ttl runs out at n7. */
  lemma KiteTail(n: seq<PeerId>, nodes: set<PeerId>, id: MsgId) returns (steps: seq<Step>, v: View)
    requires KiteNodes(n, nodes)
    ensures Witness(Kite(n, nodes), Quiet(Kite(n, nodes)), n[0], id, Probe(n, 7), steps, v)
    ensures v.air == Leftover(n) && v.seen == {n[1], n[2], n[0], n[3], n[4], n[5], n[6]}
  {
    hide Witness, Kite;
    var c, f := Kite(n, nodes), Probe(n, 7);
    var s, rest := Quiet(c), Leftover(n);
    KiteShape(n, nodes);
    steps, v := KiteTriangle(n, nodes, id);
    assert RelayTargets(c, n[3], n[0]) == {n[4]};
    steps, v := Pass(c, s, n[0], id, f, steps, v, Hopping(n, 0, 3, 4), rest, v.seen, n[4]);
    assert RelayTargets(c, n[4], n[3]) == {n[5]};
    steps, v := Pass(c, s, n[0], id, f, steps, v, Hopping(n, 3, 4, 3), rest, v.seen, n[5]);
    assert RelayTargets(c, n[5], n[4]) == {n[6]};
    steps, v := Pass(c, s, n[0], id, f, steps, v, Hopping(n, 4, 5, 2), rest, v.seen, n[6]);
    assert RelayTargets(c, n[6], n[5]) == {n[7]};
    steps, v := Pass(c, s, n[0], id, f, steps, v, Hopping(n, 5, 6, 1), rest, v.seen, n[7]);
    steps, v := Waste(c, s, n[0], id, f, steps, v, Hopping(n, 6, 7, 0), rest, v.seen);
  }

  /** With the late copies gone the mesh is quiet, and n8 has never heard of the message. */
  lemma KiteStarves(n: seq<PeerId>, nodes: set<PeerId>, id: MsgId) returns (steps: seq<Step>, v: View)
    requires KiteNodes(n, nodes)
    ensures Witness(Kite(n, nodes), Quiet(Kite(n, nodes)), n[0], id, Probe(n, 7), steps, v)
    ensures v.air == multiset{} && n[8] !in v.seen
  {
    hide Witness, Kite;
    var c, f := Kite(n, nodes), Probe(n, 7);
    var s := Quiet(c);
    KiteShape(n, nodes);
    steps, v := KiteTail(n, nodes, id);
    var p, q, r := Hopping(n, 0, 2, 7), Hopping(n, 0, 3, 7), Hopping(n, 0, 1, 4);
    assert Leftover(n) == multiset{p} + (multiset{q} + multiset{r});
    steps, v := Waste(c, s, n[0], id, f, steps, v, p, multiset{q} + multiset{r}, v.seen);
    steps, v := Waste(c, s, n[0], id, f, steps, v, q, multiset{r}, v.seen);
    assert multiset{r} == multiset{r} + multiset{};
    steps, v := Waste(c, s, n[0], id, f, steps, v, r, multiset{}, v.seen);
  }

  // ---- the threshold -----------------------------------------------------------

  /** A flood to another node that a path of at most MAX_TTL + 1 links leads to has lost nothing and gone quiet inside its window. */
  ghost predicate QuietFlood(c: Config, s: State, o: PeerId, id: MsgId, f: Frame, steps: seq<Step>, path: seq<PeerId>) {
    && FloodRun(c, s, o, id, f, steps) && NothingLost(steps, id)
    && f.dest != o && Connects(c, path, o, f.dest) && |path| - 1 <= MAX_TTL as int + 1
    && Air(Run(c, Launched(c, s, o, id, f), steps), id) == multiset{}
  }

  /** However these nodes are linked, every such flood is delivered. */
  ghost predicate AlwaysDelivers(nodes: set<PeerId>) {
    forall c: Config, s, o, id, f, steps, path ::
      c.nodes == nodes && QuietFlood(c, s, o, id, f, steps, path) ==>
        Delivered(c, Run(c, Launched(c, s, o, id, f), steps), id, f)
  }

  lemma {:induction false} Pick(nodes: set<PeerId>, k: nat) returns (n: seq<PeerId>)
    requires k <= |nodes|
    ensures |n| == k && Distinct(n) && forall i :: 0 <= i < k ==> n[i] in nodes
    decreases k
  {
    if k == 0 {
      n := [];
    } else {
      var u :| u in nodes;
      n := Pick(nodes - {u}, k - 1);
      n := n + [u];
    }
  }

  lemma KiteLinks(n: seq<PeerId>, nodes: set<PeerId>)
    requires KiteNodes(n, nodes)
    ensures n[3] in KitePeers(n, n[0]) && n[4] in KitePeers(n, n[3]) && n[5] in KitePeers(n, n[4])
    ensures n[6] in KitePeers(n, n[5]) && n[7] in KitePeers(n, n[6]) && n[8] in KitePeers(n, n[7])
  {
  }

  lemma KitePath(n: seq<PeerId>, nodes: set<PeerId>)
    requires KiteNodes(n, nodes)
    ensures Connects(Kite(n, nodes), [n[0], n[3], n[4], n[5], n[6], n[7], n[8]], n[0], n[8])
  {
    KiteLinks(n, nodes);
    KiteShape(n, nodes);
    hide Kite, KitePeers, Distinct;
  }

  lemma KiteUndelivered(n: seq<PeerId>, nodes: set<PeerId>, id: MsgId) returns (steps: seq<Step>, path: seq<PeerId>)
    requires KiteNodes(n, nodes)
    ensures var c, f := Kite(n, nodes), Probe(n, 7); var s := Quiet(c);
            QuietFlood(c, s, n[0], id, f, steps, path) && !Delivered(c, Run(c, Launched(c, s, n[0], id, f), steps), id, f)
    ensures |path| == 7
  {
    hide Kite, Quiet, Apply, RelaysIn, SendsIn, CallsIn, Connects, FloodRun;
    path := [n[0], n[3], n[4], n[5], n[6], n[7], n[8]];
    KitePath(n, nodes);
    var v;
    steps, v := KiteStarves(n, nodes, id);
    FromWitness(Kite(n, nodes), Quiet(Kite(n, nodes)), n[0], id, Probe(n, 7), steps, v);
  }

  lemma FromWitness(c: Config, s: State, o: PeerId, id: MsgId, f: Frame, steps: seq<Step>, v: View)
    requires Witness(c, s, o, id, f, steps, v)
    ensures FloodRun(c, s, o, id, f, steps) && NothingLost(steps, id)
    ensures var s' := Run(c, Launched(c, s, o, id, f), steps);
            Air(s', id) == v.air && (f.dest in s'.node && id in s'.node[f.dest].routed ==> f.dest in v.seen)
  {
    hide Apply, RelaysIn, SendsIn, CallsIn;
  }

  /** Flooding reaches every node it should, whatever the topology, exactly in meshes of at most MAX_TTL + 1 nodes. */
  lemma DeliveryThreshold(nodes: set<PeerId>)
    ensures AlwaysDelivers(nodes) <==> |nodes| <= MAX_TTL as int + 1
  {
    if |nodes| <= MAX_TTL as int + 1 {
      forall c: Config, s, o, id, f, steps, path | c.nodes == nodes && QuietFlood(c, s, o, id, f, steps, path)
        ensures Delivered(c, Run(c, Launched(c, s, o, id, f), steps), id, f)
      {
        SmallMeshDelivers(c, s, o, id, f, steps, path);
      }
    } else {
      var n := Pick(nodes, 9);
      var id := MsgId([0x80, 0, 0, 0, 0, 0, 0, 0]);
      var steps, path := KiteUndelivered(n, nodes, id);
      assert Kite(n, nodes).nodes == nodes;
    }
  }
}
