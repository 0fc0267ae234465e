/**
 The whole mesh as a transition system: nodes with their peer tables, copies of messages in
 the air, a clock, and a log of what nodes did. Steps interleave arbitrarily.
 */
module Mesh {
  import opened Types
  import opened Wire
  import opened Node
  import KeyRegistry

  /** What does not change during a run; `nbrs[u]` are the peers in `u`'s peer table. */
  datatype Config = Config(
    nodes: set<PeerId>,
    nbrs: map<PeerId, set<PeerId>>,
    handlers: set<PeerId>,
    crypto: Crypto)

  ghost predicate WellFormed(c: Config) {
    c.nbrs.Keys == c.nodes && forall u :: u in c.nodes ==> c.nbrs[u] <= c.nodes
  }

  /** One copy of a message on its way from `src` to `dst`. */
  datatype Packet = Packet(src: PeerId, dst: PeerId, frame: Frame)

  datatype Event =
    | Originated(at: PeerId, id: MsgId, fanout: nat)
    | Relayed(at: PeerId, id: MsgId, fanout: nat)
    | Called(at: PeerId, id: MsgId, call: Call)

  /** `air` groups the copies in flight by message id. */
  datatype State = State(
    node: map<PeerId, NodeState>,
    air: map<MsgId, multiset<Packet>>,
    now: Time,
    log: seq<Event>)

  function Air(s: State, id: MsgId): multiset<Packet> {
    if id in s.air then s.air[id] else multiset{}
  }

  function Copies(u: PeerId, targets: set<PeerId>, f: Frame): multiset<Packet> {
    multiset(set v | v in targets :: Packet(u, v, f))
  }

  /** Whom an origin sends to: all its peers; an announcement skips the peer it is about. */
  function OriginTargets(c: Config, o: PeerId, f: Frame): set<PeerId>
    requires o in c.nbrs
  {
    c.nbrs[o] - {o} - (if f.Announce? then {f.peer} else {})
  }

  function RelayTargets(c: Config, u: PeerId, sender: PeerId): set<PeerId>
    requires u in c.nbrs
  {
    c.nbrs[u] - {sender, u}
  }

  datatype Step =
    | Originate(o: PeerId, id: MsgId, frame: Frame)   // send_routed, send_routed_sealed, flood_key_announcement
    | Deliver(id: MsgId, p: Packet)                   // a copy arrives and is dispatched
    | Duplicate(id: MsgId, p: Packet)                 // a retry puts a second copy in flight
    | Lose(id: MsgId, p: Packet)                      // every try of this send failed
    | Post(id: MsgId, p: Packet)                      // a direct send, or a frame made up by anyone
    | Handshake(u: PeerId, key: Key)                  // a session ends its handshake with the owner of `key`
    | Forget(u: PeerId, peer: PeerId)                 // a failed XK handshake evicts the key
    | Tick(seconds: nat)

  predicate Enabled(c: Config, s: State, step: Step) {
    match step
    case Originate(o, id, f) => o in c.nbrs && !f.Direct? && f.ttl == MAX_TTL
    case Deliver(id, p) => p in Air(s, id) && p.dst in s.node && p.dst in c.nbrs
    case Duplicate(id, p) => p in Air(s, id)
    case Lose(id, p) => p in Air(s, id)
    case Post(id, p) => p.dst in c.nbrs
    case Handshake(u, key) => u in s.node
    case Forget(u, peer) => u in s.node
    case Tick(seconds) => true
  }

  function EffectOf(c: Config, s: State, id: MsgId, p: Packet): Effect
    requires p.dst in s.node
  {
    Dispatch(c.crypto, p.dst, p.dst in c.handlers, s.node[p.dst], p.src, Message(id, p.frame), s.now)
  }

  /** The copies a node puts in the air when it handles `p`. */
  function Relays(c: Config, s: State, id: MsgId, p: Packet): multiset<Packet>
    requires p.dst in s.node && p.dst in c.nbrs
  {
    match EffectOf(c, s, id, p).relay
    case None => multiset{}
    case Some(f) => Copies(p.dst, RelayTargets(c, p.dst, p.src), f)
  }

  function EventsOf(c: Config, s: State, id: MsgId, p: Packet): seq<Event>
    requires p.dst in s.node && p.dst in c.nbrs
  {
    var e := EffectOf(c, s, id, p);
    (if e.relay.Some? then [Relayed(p.dst, id, |RelayTargets(c, p.dst, p.src)|)] else [])
    + (if e.call.Some? then [Called(p.dst, id, e.call.value)] else [])
  }

  function WithRegistry(s: State, u: PeerId, op: KeyRegistry.Op): State
    requires u in s.node
  {
    s.(node := s.node[u := s.node[u].(registry := KeyRegistry.Apply(s.node[u].registry, op))])
  }

  function Apply(c: Config, s: State, step: Step): State
    requires Enabled(c, s, step)
  {
    match step
    case Originate(o, id, f) =>
      var targets := OriginTargets(c, o, f);
      s.(air := s.air[id := Air(s, id) + Copies(o, targets, f)], log := s.log + [Originated(o, id, |targets|)])
    case Deliver(id, p) =>
      s.(node := s.node[p.dst := EffectOf(c, s, id, p).node],
         air := s.air[id := Air(s, id) - multiset{p} + Relays(c, s, id, p)],
         log := s.log + EventsOf(c, s, id, p))
    case Duplicate(id, p) => s.(air := s.air[id := Air(s, id) + multiset{p}])
    case Lose(id, p) => s.(air := s.air[id := Air(s, id) - multiset{p}])
    case Post(id, p) => s.(air := s.air[id := Air(s, id) + multiset{p}])
    case Handshake(u, key) => WithRegistry(s, u, KeyRegistry.Handshake(c.crypto.hash(key), key))
    case Forget(u, peer) => WithRegistry(s, u, KeyRegistry.Forget(peer))
    case Tick(seconds) => s.(now := s.now + seconds)
  }

  /** `steps` can be taken one after the other from `s`. */
  predicate CanRun(c: Config, s: State, steps: seq<Step>)
    decreases steps
  {
    steps != [] ==> Enabled(c, s, steps[0]) && CanRun(c, Apply(c, s, steps[0]), steps[1..])
  }

  function Run(c: Config, s: State, steps: seq<Step>): State
    requires CanRun(c, s, steps)
    decreases steps
  {
    if steps == [] then s else Run(c, Apply(c, s, steps[0]), steps[1..])
  }

  /** The clock never runs backwards. */
  lemma {:induction false} ClockMonotone(c: Config, s: State, steps: seq<Step>)
    requires CanRun(c, s, steps)
    ensures s.now <= Run(c, s, steps).now
    decreases steps
  {
    if steps != [] { ClockMonotone(c, Apply(c, s, steps[0]), steps[1..]); }
  }

  // ---- what node objects send is what is in the air ----------------------------

  /** The copies in flight once `sends` are made by `u`: the bytes as their receivers parse them. */
  ghost function InFlight(u: PeerId, sends: seq<Outgoing>): multiset<Packet> {
    if sends == [] then multiset{}
    else
      var last := sends[|sends| - 1];
      InFlight(u, sends[..|sends| - 1]) +
        (match Parse(last.id.bytes + last.body)
         case None => multiset{}
         case Some(m) => multiset{Packet(u, last.to, m.frame)})
  }

  lemma CopiesAdd(u: PeerId, ts: set<PeerId>, p: PeerId, f: Frame)
    requires p !in ts
    ensures Copies(u, ts + {p}, f) == Copies(u, ts, f) + multiset{Packet(u, p, f)}
  {
  }

  lemma CopiesNone(u: PeerId, f: Frame)
    ensures Copies(u, {}, f) == multiset{}
  {
  }

  /** The peers a relay goes to, one table entry after the other. */
  function Targets(peers: seq<PeerId>, sender: PeerId, u: PeerId): set<PeerId> {
    if peers == [] then {}
    else
      var p := peers[|peers| - 1];
      Targets(peers[..|peers| - 1], sender, u) + (if p != sender && p != u then {p} else {})
  }

  lemma {:induction false} TargetsAre(peers: seq<PeerId>, sender: PeerId, u: PeerId, p: PeerId)
    ensures p in Targets(peers, sender, u) <==> p in peers && p != sender && p != u
  {
    if peers != [] {
      TargetsAre(peers[..|peers| - 1], sender, u, p);
      assert peers == peers[..|peers| - 1] + [peers[|peers| - 1]];
    }
  }

  lemma {:induction false} SendsAreCopies(u: PeerId, peers: seq<PeerId>, sender: PeerId, id: MsgId, f: Frame)
    requires Distinct(peers)
    ensures InFlight(u, RelaySends(peers, sender, u, id, Body(f))) == Copies(u, Targets(peers, sender, u), f)
  {
    hide Parse, Body, Copies;
    if peers == [] {
      CopiesNone(u, f);
    } else {
      var n := |peers| - 1;
      var before, p := peers[..n], peers[n];
      SendsAreCopies(u, before, sender, id, f);
      var sends := RelaySends(before, sender, u, id, Body(f));
      if p != sender && p != u {
        TargetsAre(before, sender, u, p);
        ParseEncode(Message(id, f));
        CopiesAdd(u, Targets(before, sender, u), p, f);
        assert (sends + [Outgoing(p, id, Body(f))])[..|sends|] == sends;
      } else {
        assert Targets(peers, sender, u) == Targets(before, sender, u);
      }
    }
  }

  /** A node object's relay is the mesh's relay, and its origin sends are the mesh's originations. */
  lemma RelayIsCopies(c: Config, u: PeerId, peers: seq<PeerId>, sender: PeerId, id: MsgId, f: Frame)
    requires u in c.nbrs && Distinct(peers) && forall p :: p in c.nbrs[u] <==> p in peers
    ensures var flight := InFlight(u, RelaySends(peers, sender, u, id, Body(f)));
            && flight == Copies(u, RelayTargets(c, u, sender), f)
            && (sender == (if f.Announce? then f.peer else u) ==> flight == Copies(u, OriginTargets(c, u, f), f))
  {
    SendsAreCopies(u, peers, sender, id, f);
    forall p ensures p in Targets(peers, sender, u) <==> p in RelayTargets(c, u, sender) {
      TargetsAre(peers, sender, u, p);
    }
    assert Targets(peers, sender, u) == RelayTargets(c, u, sender);
    if sender == if f.Announce? then f.peer else u {
      assert OriginTargets(c, u, f) == RelayTargets(c, u, sender);
    }
  }

  // ---- a neighbour path --------------------------------------------------------

  /** `path` leads from its first node to its last along neighbour links. */
  ghost predicate IsPath(c: Config, path: seq<PeerId>) {
    && path != []
    && (forall i :: 0 <= i < |path| ==> path[i] in c.nbrs)
    && forall i :: 0 <= i < |path| - 1 ==> path[i + 1] in c.nbrs[path[i]]
  }

  ghost predicate Connects(c: Config, path: seq<PeerId>, a: PeerId, b: PeerId) {
    IsPath(c, path) && path[0] == a && path[|path| - 1] == b
  }
}
