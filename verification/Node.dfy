/**
 How one node handles one received payload: direct delivery, relaying, gossip and sealed
 delivery, each behind the duplicate-suppression cache.
 */
module Node {
  import opened Types
  import opened Wire
  import AddrExchange
  import Dedup
  import KeyRegistry

  /** Symbolic cryptography: the identity hash, and opening a sealed message with own identity and sender key. */
  datatype Crypto = Crypto(hash: Key -> PeerId, unseal: (PeerId, Key, Bytes) -> Option<Bytes>)

  datatype NodeState = NodeState(
    direct: map<(PeerId, MsgId), Time>,
    routed: map<MsgId, Time>,
    registry: KeyRegistry.Registry)

  /** One call of the application's message handler. */
  datatype Call = Call(from: PeerId, data: Bytes)

  /** What handling a payload does: the new state, the frame to relay and the handler call, if any. */
  datatype Effect = Effect(node: NodeState, relay: Option<Frame>, call: Option<Call>)

  predicate SeenDirect(st: NodeState, sender: PeerId, id: MsgId, now: Time) {
    Dedup.IsDuplicate(st.direct, (sender, id), now, DEDUP_TTL)
  }

  predicate SeenRouted(st: NodeState, id: MsgId, now: Time) {
    Dedup.IsDuplicate(st.routed, id, now, DEDUP_TTL)
  }

  /** The state after the routed check of `id`. */
  function Recorded(st: NodeState, id: MsgId, now: Time): NodeState {
    st.(routed := Dedup.Checked(st.routed, id, now, DEDUP_TTL))
  }

  function Clamp(ttl: byte): byte {
    if ttl < MAX_TTL then ttl else MAX_TTL
  }

  /** Opening a sealed message needs the sender's key in the registry. */
  function Open(c: Crypto, self: PeerId, st: NodeState, sender: PeerId, message: Bytes): Option<Call> {
    if sender !in st.registry.entries then None
    else
      match c.unseal(self, st.registry.entries[sender], message)
      case None => None
      case Some(plain) => Some(Call(sender, plain))
  }

  function Dispatch(c: Crypto, self: PeerId, handler: bool, st: NodeState, sender: PeerId, m: Message, now: Time): Effect
  {
    match m.frame
    case Direct(data) =>
      Effect(st.(direct := Dedup.Checked(st.direct, (sender, m.id), now, DEDUP_TTL)), None,
             if !SeenDirect(st, sender, m.id, now) && handler then Some(Call(sender, data)) else None)
    case Routed(dest, ttl, payload) =>
      var fresh' := !SeenRouted(st, m.id, now);
      if dest == self then
        Effect(Recorded(st, m.id, now), None, if fresh' && handler then Some(Call(sender, payload)) else None)
      else if Clamp(ttl) == 0 then Effect(st, None, None)
      else
        Effect(Recorded(st, m.id, now), if fresh' then Some(Routed(dest, Clamp(ttl) - 1, payload)) else None, None)
    case Announce(peer, key, ttl) =>
      if c.hash(key) != peer then Effect(st, None, None)
      else if SeenRouted(st, m.id, now) then Effect(Recorded(st, m.id, now), None, None)
      else
        Effect(Recorded(st, m.id, now).(registry := KeyRegistry.InsertGossip(st.registry, peer, key)),
               if Clamp(ttl) > 0 then Some(Announce(peer, key, Clamp(ttl) - 1)) else None, None)
    case Sealed(dest, ttl, origin, message) =>
      var fresh' := !SeenRouted(st, m.id, now);
      if dest == self then
        Effect(Recorded(st, m.id, now), None,
               if fresh' && handler then Open(c, self, st, origin, message) else None)
      else if Clamp(ttl) == 0 then Effect(st, None, None)
      else
        Effect(Recorded(st, m.id, now), if fresh' then Some(Sealed(dest, Clamp(ttl) - 1, origin, message)) else None, None)
  }

  /** One send handed to the router: the next hop, the message id and the framed body. */
  datatype Outgoing = Outgoing(to: PeerId, id: MsgId, body: Bytes)

  /** The sends a relay makes: every known peer but the one it came from and the node itself. */
  function RelaySends(peers: seq<PeerId>, sender: PeerId, self: PeerId, id: MsgId, body: Bytes): seq<Outgoing> {
    if peers == [] then []
    else
      var before := RelaySends(peers[..|peers| - 1], sender, self, id, body);
      var p := peers[|peers| - 1];
      if p != sender && p != self then before + [Outgoing(p, id, body)] else before
  }

  function Others(peers: seq<PeerId>, self: PeerId): (r: seq<PeerId>)
    ensures forall p :: p in r <==> p in peers && p != self
  {
    if peers == [] then []
    else
      var n := |peers| - 1;
      assert peers == peers[..n] + [peers[n]];
      Others(peers[..n], self) + (if peers[n] != self then [peers[n]] else [])
  }

  function SendsTo(ns: seq<PeerId>, id: MsgId, body: Bytes): seq<Outgoing> {
    if ns == [] then [] else SendsTo(ns[..|ns| - 1], id, body) + [Outgoing(ns[|ns| - 1], id, body)]
  }

  lemma {:induction false} SendsToOthers(peers: seq<PeerId>, self: PeerId, id: MsgId, body: Bytes)
    ensures SendsTo(Others(peers, self), id, body) == RelaySends(peers, self, self, id, body)
  {
    if peers != [] {
      var n := |peers| - 1;
      SendsToOthers(peers[..n], self, id, body);
      var ns := Others(peers[..n], self);
      assert (ns + [peers[n]])[..|ns|] == ns && ns + [] == ns;
    }
  }

  datatype SendResult = Accepted | KeyUnknown | SealFailed | NoTransportAvailable | DeliveryFailed

  function ToSeq<T>(o: Option<T>): seq<T> {
    match o case None => [] case Some(x) => [x]
  }

  /** A control frame opens a session; application frames start with an id whose high bit is set. */
  predicate IsControl(m: Bytes) {
    |m| >= 8 && m[0] == 0
  }

  /** The addresses known of a peer after it told `more`: those known, then the new ones, none twice. */
  function Merged(known: seq<AddrExchange.PeerAddress>, more: seq<AddrExchange.PeerAddress>): (r: seq<AddrExchange.PeerAddress>)
    ensures known <= r && (Distinct(known) ==> Distinct(r))
    ensures forall a :: a in r <==> a in known || a in more
  {
    if more == [] then known
    else
      var before, a := Merged(known, more[..|more| - 1]), more[|more| - 1];
      assert more == more[..|more| - 1] + [a];
      if a in before then before else before + [a]
  }

  lemma MergedNext(known: seq<AddrExchange.PeerAddress>, more: seq<AddrExchange.PeerAddress>, i: nat)
    requires i < |more|
    ensures var before := Merged(known, more[..i]);
            Merged(known, more[..i + 1]) == if more[i] in before then before else before + [more[i]]
  {
    assert more[..i + 1][..i] == more[..i];
  }

  /** Where `a` is first told. */
  function FirstTold(more: seq<AddrExchange.PeerAddress>, a: AddrExchange.PeerAddress): (i: nat)
    requires a in more
    ensures i < |more| && more[i] == a && a !in more[..i]
  {
    if more[0] == a then 0
    else
      assert more == [more[0]] + more[1..];
      var i := FirstTold(more[1..], a) + 1;
      assert more[..i] == [more[0]] + more[1..][..i - 1];
      i
  }

  lemma FirstToldIs(more: seq<AddrExchange.PeerAddress>, a: AddrExchange.PeerAddress, i: nat)
    requires i < |more| && more[i] == a && a !in more[..i]
    ensures FirstTold(more, a) == i
  {
    var k := FirstTold(more, a);
    assert forall l :: 0 <= l < i ==> more[..i][l] == more[l];
    assert forall l :: 0 <= l < k ==> more[..k][l] == more[l];
  }

  lemma {:induction false} NewIsTold(known: seq<AddrExchange.PeerAddress>, more: seq<AddrExchange.PeerAddress>, i: nat)
    requires |known| <= i < |Merged(known, more)|
    ensures Merged(known, more)[i] in more
  {
    var n := |more| - 1;
    assert more == more[..n] + [more[n]];
    if i < |Merged(known, more[..n])| { NewIsTold(known, more[..n], i); }
  }

  /** The new addresses come in the order in which they were first told. */
  lemma {:induction false} MergedInOrder(known: seq<AddrExchange.PeerAddress>, more: seq<AddrExchange.PeerAddress>, i: nat, j: nat)
    requires |known| <= i < j < |Merged(known, more)|
    ensures var r := Merged(known, more);
            r[i] in more && r[j] in more && FirstTold(more, r[i]) < FirstTold(more, r[j])
  {
    var n, r := |more| - 1, Merged(known, more);
    var before := Merged(known, more[..n]);
    assert more == more[..n] + [more[n]];
    NewIsTold(known, more, i);
    NewIsTold(known, more, j);
    NewIsTold(known, more[..n], i);
    var k := FirstTold(more[..n], r[i]);
    assert more[..k] == more[..n][..k];
    FirstToldIs(more, r[i], k);
    if j < |before| {
      MergedInOrder(known, more[..n], i, j);
      var l := FirstTold(more[..n], r[j]);
      assert more[..l] == more[..n][..l];
      FirstToldIs(more, r[j], l);
    } else {
      FirstToldIs(more, r[j], n);
    }
  }

  function AddrsOf(addrs: map<PeerId, seq<AddrExchange.PeerAddress>>, p: PeerId): seq<AddrExchange.PeerAddress> {
    if p in addrs then addrs[p] else []
  }

  /** What a node has done so far. */
  datatype Work = Work(node: NodeState, calls: seq<Call>, outbox: seq<Outgoing>)

  /** One payload more, dispatched at its time of arrival. */
  function Absorb(c: Crypto, self: PeerId, handler: bool, peers: seq<PeerId>, w: Work, sender: PeerId,
                  arrival: (Bytes, Time)): Work
  {
    match Parse(arrival.0)
    case None => w
    case Some(m) =>
      var e := Dispatch(c, self, handler, w.node, sender, m, arrival.1);
      Work(e.node, w.calls + ToSeq(e.call),
           w.outbox + (if e.relay.Some? then RelaySends(peers, sender, self, m.id, Body(e.relay.value)) else []))
  }

  function AbsorbAll(c: Crypto, self: PeerId, handler: bool, peers: seq<PeerId>, w: Work, sender: PeerId,
                     arrivals: seq<(Bytes, Time)>): Work
  {
    if arrivals == [] then w
    else
      var n := |arrivals| - 1;
      Absorb(c, self, handler, peers, AbsorbAll(c, self, handler, peers, w, sender, arrivals[..n]), sender, arrivals[n])
  }

  /** Arrivals that carry direct messages, each an id and its data. */
  ghost predicate AreDirect(arrivals: seq<(Bytes, Time)>, ms: seq<(MsgId, Bytes)>) {
    && |arrivals| == |ms|
    && (forall i :: 0 <= i < |ms| ==> arrivals[i].0 == Encode(Message(ms[i].0, Direct(ms[i].1))))
    && forall i, j :: 0 <= i < j < |ms| ==> ms[i].0 != ms[j].0
  }

  /** One call for each message, in order. */
  function CallsFor(sender: PeerId, ms: seq<(MsgId, Bytes)>): seq<Call> {
    seq(|ms|, i requires 0 <= i < |ms| => Call(sender, ms[i].1))
  }

  /** Direct messages leave other ids alone. */
  lemma {:induction false} DirectLeaves(c: Crypto, self: PeerId, peers: seq<PeerId>, w: Work, sender: PeerId,
                                        arrivals: seq<(Bytes, Time)>, ms: seq<(MsgId, Bytes)>, id: MsgId)
    requires AreDirect(arrivals, ms) && (sender, id) !in w.node.direct && forall i :: 0 <= i < |ms| ==> ms[i].0 != id
    ensures (sender, id) !in AbsorbAll(c, self, true, peers, w, sender, arrivals).node.direct
  {
    if arrivals != [] {
      var n := |arrivals| - 1;
      DirectLeaves(c, self, peers, w, sender, arrivals[..n], ms[..n], id);
      ParseEncode(Message(ms[n].0, Direct(ms[n].1)));
      hide Parse, Encode;
    }
  }

  /** Direct messages whose ids are new each reach the handler once, in the order they arrive; nothing is relayed. */
  lemma {:induction false} DirectInOrder(c: Crypto, self: PeerId, peers: seq<PeerId>, w: Work, sender: PeerId,
                                         arrivals: seq<(Bytes, Time)>, ms: seq<(MsgId, Bytes)>)
    requires AreDirect(arrivals, ms) && forall i :: 0 <= i < |ms| ==> (sender, ms[i].0) !in w.node.direct
    ensures var w' := AbsorbAll(c, self, true, peers, w, sender, arrivals);
            && w'.calls == w.calls + CallsFor(sender, ms) && w'.outbox == w.outbox
            && w'.node.routed == w.node.routed && w'.node.registry == w.node.registry
  {
    if arrivals == [] {
      assert CallsFor(sender, ms) == [] && w.calls + [] == w.calls;
    } else {
      var n := |arrivals| - 1;
      assert AreDirect(arrivals[..n], ms[..n]);
      DirectInOrder(c, self, peers, w, sender, arrivals[..n], ms[..n]);
      DirectLeaves(c, self, peers, w, sender, arrivals[..n], ms[..n], ms[n].0);
      hide Absorb, AreDirect, CallsFor;
      var before := AbsorbAll(c, self, true, peers, w, sender, arrivals[..n]);
      DirectAbsorbed(c, self, peers, before, sender, ms[n].0, ms[n].1, arrivals[n].1);
      CallsForLast(sender, ms);
      assert w.calls + CallsFor(sender, ms[..n]) + [Call(sender, ms[n].1)] == w.calls + (CallsFor(sender, ms[..n]) + [Call(sender, ms[n].1)]);
    }
  }

  lemma CallsForLast(sender: PeerId, ms: seq<(MsgId, Bytes)>)
    requires ms != []
    ensures var n := |ms| - 1; CallsFor(sender, ms) == CallsFor(sender, ms[..n]) + [Call(sender, ms[n].1)]
  {
  }

  /** Without a handler nothing is called. */
  lemma NoHandlerNoCall(c: Crypto, self: PeerId, st: NodeState, sender: PeerId, m: Message, now: Time)
    ensures Dispatch(c, self, false, st, sender, m, now).call.None?
  {
  }

  lemma DirectAbsorbed(c: Crypto, self: PeerId, peers: seq<PeerId>, w: Work, sender: PeerId, id: MsgId, data: Bytes, now: Time)
    requires (sender, id) !in w.node.direct
    ensures var w' := Absorb(c, self, true, peers, w, sender, (Encode(Message(id, Direct(data))), now));
            && w'.calls == w.calls + [Call(sender, data)] && w'.outbox == w.outbox
            && w'.node.routed == w.node.routed && w'.node.registry == w.node.registry
  {
    ParseEncode(Message(id, Direct(data)));
    hide Parse, Encode;
    assert w.outbox + [] == w.outbox;
  }

  /**
   Whatever a session brought before, a routed message for somebody else whose id is new goes on at once
   to all peers but its sender and the node, with one hop less of at most seven, and no handler is called.
   */
  lemma RoutedGoesOn(c: Crypto, self: PeerId, handler: bool, peers: seq<PeerId>, w: Work, sender: PeerId,
                     arrivals: seq<(Bytes, Time)>, m: Message)
    requires arrivals != [] && arrivals[|arrivals| - 1].0 == Encode(m)
    requires m.frame.Routed? && m.frame.dest != self && m.frame.ttl > 0
    requires m.id !in AbsorbAll(c, self, handler, peers, w, sender, arrivals[..|arrivals| - 1]).node.routed
    ensures var before := AbsorbAll(c, self, handler, peers, w, sender, arrivals[..|arrivals| - 1]);
            var after, f := AbsorbAll(c, self, handler, peers, w, sender, arrivals), m.frame;
            && after.calls == before.calls
            && after.outbox == before.outbox
                 + RelaySends(peers, sender, self, m.id, Body(Routed(f.dest, (if f.ttl < 7 then f.ttl else 7) - 1, f.payload)))
  {
    ParseEncode(m);
    hide Parse, Encode, RelaySends, Body;
    var before := AbsorbAll(c, self, handler, peers, w, sender, arrivals[..|arrivals| - 1]);
    assert before.calls + [] == before.calls;
  }

  /** The first arrival first. */
  lemma {:induction false} AbsorbFirst(c: Crypto, self: PeerId, handler: bool, peers: seq<PeerId>, w: Work, sender: PeerId,
                                       arrivals: seq<(Bytes, Time)>)
    requires arrivals != []
    ensures AbsorbAll(c, self, handler, peers, w, sender, arrivals)
         == AbsorbAll(c, self, handler, peers, Absorb(c, self, handler, peers, w, sender, arrivals[0]), sender, arrivals[1..])
    decreases |arrivals|
  {
    var n := |arrivals| - 1;
    if n > 0 {
      hide Absorb;
      AbsorbFirst(c, self, handler, peers, w, sender, arrivals[..n]);
      assert arrivals[..n][1..] == arrivals[1..][..n - 1];
    }
  }

  class PathweaveNode {
    const self: PeerId
    const crypto: Crypto
    const dedup: Dedup.DeduplicationCache
    const keyRegistry: KeyRegistry.KeyRegistryState
    var handler: bool          // whether a message handler is registered
    var peers: seq<PeerId>     // the peer table's keys, in iteration order
    var addrs: map<PeerId, seq<AddrExchange.PeerAddress>>   // the peer table's addresses
    var calls: seq<Call>       // handler calls made so far
    var outbox: seq<Outgoing>  // sends handed to the router so far
    var acks: nat              // acknowledgements written to sessions so far

    constructor (self: PeerId, crypto: Crypto, maxKeys: Option<nat>)
      ensures this.self == self && this.crypto == crypto && fresh(dedup) && fresh(keyRegistry)
      ensures State() == NodeState(map[], map[], KeyRegistry.Empty(maxKeys))
      ensures !handler && peers == [] && addrs == map[] && calls == [] && outbox == [] && acks == 0
      ensures dedup.ttl == DEDUP_TTL
    {
      this.self, this.crypto := self, crypto;
      dedup := new Dedup.DeduplicationCache();
      keyRegistry := new KeyRegistry.KeyRegistryState(maxKeys);
      handler, peers, addrs, calls, outbox, acks := false, [], map[], [], [], 0;
    }

    function State(): NodeState
      reads this, dedup, keyRegistry
    {
      NodeState(dedup.seen, dedup.seenRouted, keyRegistry.Value())
    }

    method SpawnRelayToNeighbors(body: Bytes, id: MsgId, sender: PeerId)
      modifies this`outbox
      ensures outbox == old(outbox) + RelaySends(peers, sender, self, id, body)
    {
      var i := 0;
      while i < |peers|
        invariant 0 <= i <= |peers|
        invariant outbox == old(outbox) + RelaySends(peers[..i], sender, self, id, body)
      {
        assert peers[..i + 1][..i] == peers[..i];
        if peers[i] != sender && peers[i] != self {
          outbox := outbox + [Outgoing(peers[i], id, body)];
        }
        i := i + 1;
      }
      assert peers[..i] == peers;
    }

    /** The known peers but for the node itself. */
    method Neighbors() returns (ns: seq<PeerId>)
      ensures ns == Others(peers, self)
    {
      ns := [];
      var i := 0;
      while i < |peers|
        invariant 0 <= i <= |peers| && ns == Others(peers[..i], self)
      {
        assert peers[..i + 1][..i] == peers[..i];
        if peers[i] != self {
          ns := ns + [peers[i]];
        }
        i := i + 1;
      }
      assert peers[..i] == peers;
    }

    /** Hands the body to each of `ns`; says whether any of the sends was accepted. */
    method SendEach(ns: seq<PeerId>, body: Bytes, id: MsgId, accepts: PeerId -> bool) returns (anyOk: bool)
      modifies this`outbox
      ensures outbox == old(outbox) + SendsTo(ns, id, body)
      ensures anyOk <==> exists p :: p in ns && accepts(p)
    {
      anyOk := false;
      var i := 0;
      while i < |ns|
        invariant 0 <= i <= |ns| && outbox == old(outbox) + SendsTo(ns[..i], id, body)
        invariant anyOk <==> exists k :: 0 <= k < i && accepts(ns[k])
      {
        assert ns[..i + 1][..i] == ns[..i];
        outbox := outbox + [Outgoing(ns[i], id, body)];
        if accepts(ns[i]) {
          anyOk := true;
        }
        i := i + 1;
      }
      assert ns[..i] == ns;
    }

    /**
     Hands the body to every peer but the node itself; `accepts` says which of those sends succeed. It is
     accepted when some send is, and there is no transport when there is nobody to send to.
     */
    method FloodNeighbors(body: Bytes, id: MsgId, accepts: PeerId -> bool) returns (r: SendResult)
      modifies this`outbox
      ensures outbox == old(outbox) + RelaySends(peers, self, self, id, body)
      ensures r == Accepted <==> exists p :: p in peers && p != self && accepts(p)
      ensures r == NoTransportAvailable <==> forall p :: p in peers ==> p == self
      ensures r == Accepted || r == NoTransportAvailable || r == DeliveryFailed
    {
      hide RelaySends, SendsTo, Others;
      var ns := Neighbors();
      SendsToOthers(peers, self, id, body);
      var anyOk := SendEach(ns, body, id, accepts);
      assert ns != [] ==> ns[0] in ns;
      r := if ns == [] then NoTransportAvailable else if anyOk then Accepted else DeliveryFailed;
    }

    /** Announces a key learned by handshake to every peer but the one it belongs to. */
    method FloodKeyAnnouncement(learned: PeerId, key: Key, id: MsgId)
      modifies this`outbox
      ensures outbox == old(outbox) + RelaySends(peers, learned, self, id, Body(Announce(learned, key, MAX_TTL)))
    {
      SpawnRelayToNeighbors(EncodeKeyAnnouncement(learned, key, MAX_TTL), id, learned);
    }

    /** Floods a routed frame with a full hop budget. */
    method SendRouted(dest: PeerId, payload: Bytes, id: MsgId, accepts: PeerId -> bool) returns (r: SendResult)
      modifies this`outbox
      ensures outbox == old(outbox) + RelaySends(peers, self, self, id, Body(Routed(dest, MAX_TTL, payload)))
      ensures r == Accepted <==> exists p :: p in peers && p != self && accepts(p)
      ensures r == NoTransportAvailable <==> forall p :: p in peers ==> p == self
      ensures r == Accepted || r == NoTransportAvailable || r == DeliveryFailed
    {
      var body := [1] + dest.bytes + [MAX_TTL] + payload;
      r := FloodNeighbors(body, id, accepts);
    }

    /** Seals for the destination's registered key and floods; never falls back to an unsealed send. */
    method SendRoutedSealed(dest: PeerId, payload: Bytes, id: MsgId,
                            seal: (Key, Bytes) -> Option<Bytes>, accepts: PeerId -> bool) returns (r: SendResult)
      modifies this`outbox
      ensures r == KeyUnknown <==> dest !in keyRegistry.entries
      ensures r == SealFailed <==> dest in keyRegistry.entries && seal(keyRegistry.entries[dest], payload).None?
      ensures if dest in keyRegistry.entries && seal(keyRegistry.entries[dest], payload).Some? then
                var sealed := seal(keyRegistry.entries[dest], payload).value;
                && outbox == old(outbox) + RelaySends(peers, self, self, id, Body(Sealed(dest, MAX_TTL, self, sealed)))
                && (r == Accepted <==> exists p :: p in peers && p != self && accepts(p))
                && (r == NoTransportAvailable <==> forall p :: p in peers ==> p == self)
                && (r == Accepted || r == NoTransportAvailable || r == DeliveryFailed)
              else outbox == old(outbox)
    {
      var key := keyRegistry.Get(dest);
      if key.None? {
        return KeyUnknown;
      }
      var sealed := seal(key.value, payload);
      if sealed.None? {
        return SealFailed;
      }
      var envelope := self.bytes + sealed.value;
      r := FloodNeighbors([3] + dest.bytes + [MAX_TTL] + envelope, id, accepts);
    }

    method OnMessage(from: PeerId, data: Bytes)
      modifies this`calls
      ensures calls == old(calls) + if handler then [Call(from, data)] else []
    {
      if handler {
        calls := calls + [Call(from, data)];
      }
    }

    /** The part of the effect that shows on the node object. */
    twostate predicate Performed(e: Effect, sender: PeerId, id: MsgId)
      reads this, dedup, keyRegistry
    {
      && State() == e.node
      && calls == old(calls) + ToSeq(e.call)
      && outbox == old(outbox) + (if e.relay.Some? then RelaySends(peers, sender, self, id, Body(e.relay.value)) else [])
      && handler == old(handler) && peers == old(peers) && addrs == old(addrs)
    }

    /** Handles one received payload; every payload, even a malformed one, is acknowledged once. */
    method DispatchPayload(sender: PeerId, payload: Bytes, now: Time)
      requires dedup.ttl == DEDUP_TTL
      modifies this, dedup, keyRegistry
      ensures acks == old(acks) + 1
      ensures Parse(payload).None? ==> Performed(Effect(old(State()), None, None), sender, MsgId([0, 0, 0, 0, 0, 0, 0, 0]))
      ensures Parse(payload).Some? ==>
                var m := Parse(payload).value;
                Performed(Dispatch(crypto, self, old(handler), old(State()), sender, m, now), sender, m.id)
    {
      if |payload| < 9 {
        acks := acks + 1;
        return;
      }
      var id := MsgId(payload[0..8]);
      var flag := payload[8];
      if flag == 0 {
        HandleDirect(sender, id, payload[9..], now);
      } else if flag == 1 {
        if |payload| < 42 {
          acks := acks + 1;
          return;
        }
        HandleRouted(sender, id, PeerId(payload[9..41]), payload[41], payload[42..], now);
      } else if flag == 2 {
        HandleAnnouncement(sender, id, payload[9..], now);
      } else if flag == 3 {
        if |payload| < 74 {
          acks := acks + 1;
          return;
        }
        var envelope := payload[42..];
        assert envelope[..32] == payload[42..74] && envelope[32..] == payload[74..];
        HandleSealed(sender, id, PeerId(payload[9..41]), payload[41], envelope, now);
      }
      acks := acks + 1;
    }

    /** Appends the addresses not yet known. */
    static method MergeInto(known: seq<AddrExchange.PeerAddress>, more: seq<AddrExchange.PeerAddress>)
      returns (entry: seq<AddrExchange.PeerAddress>)
      ensures entry == Merged(known, more)
    {
      entry := known;
      var i := 0;
      while i < |more|
        invariant 0 <= i <= |more| && entry == Merged(known, more[..i])
      {
        MergedNext(known, more, i);
        if more[i] !in entry {
          entry := entry + [more[i]];
        }
        i := i + 1;
      }
      assert more[..i] == more;
    }

    /** Adds the addresses a peer told to its entry in the peer table. */
    method UpsertPeerAddresses(peer: PeerId, more: seq<AddrExchange.PeerAddress>)
      modifies this`peers, this`addrs
      ensures addrs == old(addrs)[peer := Merged(AddrsOf(old(addrs), peer), more)]
      ensures peers == old(peers) + if peer in old(peers) then [] else [peer]
    {
      if peer !in peers {
        peers := peers + [peer];
      }
      var entry := MergeInto(if peer in addrs then addrs[peer] else [], more);
      addrs := addrs[peer := entry];
    }

    /** Dispatches and acknowledges the payloads of a session, in order. */
    method DispatchAll(sender: PeerId, arrivals: seq<(Bytes, Time)>)
      requires dedup.ttl == DEDUP_TTL
      modifies this, dedup, keyRegistry
      ensures acks == old(acks) + |arrivals| && handler == old(handler) && peers == old(peers) && addrs == old(addrs)
      ensures Work(State(), calls, outbox)
           == AbsorbAll(crypto, self, old(handler), old(peers), old(Work(State(), calls, outbox)), sender, arrivals)
    {
      var i := 0;
      while i < |arrivals|
        invariant 0 <= i <= |arrivals|
        invariant acks == old(acks) + i && handler == old(handler) && peers == old(peers) && addrs == old(addrs)
        invariant Work(State(), calls, outbox)
               == AbsorbAll(crypto, self, handler, peers, old(Work(State(), calls, outbox)), sender, arrivals[..i])
      {
        hide Dispatch, Parse, RelaySends;
        assert arrivals[..i + 1][..i] == arrivals[..i];
        DispatchPayload(sender, arrivals[i].0, arrivals[i].1);
        i := i + 1;
      }
      assert arrivals[..i] == arrivals;
    }

    /**
     Serves one session until it closes: takes in the addresses of a leading control frame and answers
     with `reply`, even if it does not decode; dispatches and acknowledges everything else. `arrivals`
     are the payloads read, with their times.
     */
    method HandleIncoming(sender: PeerId, arrivals: seq<(Bytes, Time)>, reply: Bytes) returns (replies: seq<Bytes>)
      requires dedup.ttl == DEDUP_TTL
      modifies this, dedup, keyRegistry
      ensures var control := arrivals != [] && |arrivals[0].0| >= 8 && arrivals[0].0[0] == 0;
              var told := if control then AddrExchange.Decode(arrivals[0].0) else None;
              var rest := if control then arrivals[1..] else arrivals;
              && replies == (if control then [reply] else [])
              && acks == old(acks) + |rest|
              && addrs == (if told.Some? then old(addrs)[sender := Merged(AddrsOf(old(addrs), sender), told.value)] else old(addrs))
              && peers == old(peers) + (if told.Some? && sender !in old(peers) then [sender] else [])
              && Work(State(), calls, outbox)
                 == AbsorbAll(crypto, self, old(handler), peers, old(Work(State(), calls, outbox)), sender, rest)
    {
      replies := [];
      var rest := arrivals;
      assert peers + [] == peers;
      if arrivals != [] && |arrivals[0].0| >= 8 && arrivals[0].0[0] == 0 {
        var told := AddrExchange.DecodeAddrExchange(arrivals[0].0);
        if told.Some? {
          UpsertPeerAddresses(sender, told.value);
        }
        replies, rest := [reply], arrivals[1..];
      }
      hide AbsorbAll, Merged;
      DispatchAll(sender, rest);
    }

    method HandleDirect(sender: PeerId, id: MsgId, data: Bytes, now: Time)
      requires dedup.ttl == DEDUP_TTL
      modifies this, dedup
      ensures acks == old(acks)
      ensures Performed(Dispatch(crypto, self, old(handler), old(State()), sender, Message(id, Direct(data)), now), sender, id)
    {
      var dup := dedup.CheckAndInsert(sender, id, now);
      if !dup {
        OnMessage(sender, data);
      }
    }

    method HandleRouted(sender: PeerId, id: MsgId, dest: PeerId, wireTtl: byte, app: Bytes, now: Time)
      requires dedup.ttl == DEDUP_TTL
      modifies this, dedup
      ensures acks == old(acks)
      ensures var m := Message(id, Routed(dest, wireTtl, app));
              Performed(Dispatch(crypto, self, old(handler), old(State()), sender, m, now), sender, id)
    {
      hide RelaySends, Dedup.IsDuplicate, Dedup.Checked;
      var ttl := if wireTtl < MAX_TTL then wireTtl else MAX_TTL;
      if dest == self {
        var dup := dedup.CheckAndInsertRouted(id, now);
        if !dup {
          OnMessage(sender, app);
        }
      } else if ttl == 0 {
        // dropped before the cache sees it
      } else {
        var dup := dedup.CheckAndInsertRouted(id, now);
        if !dup {
          var newTtl := ttl - 1;
          SpawnRelayToNeighbors([1] + dest.bytes + [newTtl] + app, id, sender);
        }
      }
    }

    method HandleAnnouncement(sender: PeerId, id: MsgId, body: Bytes, now: Time)
      requires dedup.ttl == DEDUP_TTL
      modifies this, dedup, keyRegistry
      ensures acks == old(acks)
      ensures DecodeKeyAnnouncement(body).None? ==> Performed(Effect(old(State()), None, None), sender, id)
      ensures DecodeKeyAnnouncement(body).Some? ==>
                var (peer, key, ttl) := DecodeKeyAnnouncement(body).value;
                Performed(Dispatch(crypto, self, old(handler), old(State()), sender, Message(id, Announce(peer, key, ttl)), now), sender, id)
    {
      hide RelaySends, Dedup.IsDuplicate, Dedup.Checked;
      match DecodeKeyAnnouncement(body)
      case None =>
      case Some((peer, key, wireTtl)) =>
        if crypto.hash(key) == peer {
          var dup := dedup.CheckAndInsertRouted(id, now);
          if !dup {
            keyRegistry.InsertGossipKey(peer, key);
            var ttl := if wireTtl < MAX_TTL then wireTtl else MAX_TTL;
            if ttl > 0 {
              var newTtl := ttl - 1;
              SpawnRelayToNeighbors(EncodeKeyAnnouncement(peer, key, newTtl), id, sender);
            }
          }
        }
    }

    method HandleSealed(sender: PeerId, id: MsgId, dest: PeerId, wireTtl: byte, envelope: Bytes, now: Time)
      requires dedup.ttl == DEDUP_TTL && |envelope| >= 32
      modifies this, dedup
      ensures acks == old(acks)
      ensures var m := Message(id, Sealed(dest, wireTtl, PeerId(envelope[..32]), envelope[32..]));
              Performed(Dispatch(crypto, self, old(handler), old(State()), sender, m, now), sender, id)
    {
      hide RelaySends, Dedup.IsDuplicate, Dedup.Checked;
      var ttl := if wireTtl < MAX_TTL then wireTtl else MAX_TTL;
      var origin := PeerId(envelope[..32]);
      if dest == self {
        var dup := dedup.CheckAndInsertRouted(id, now);
        if !dup {
          var key := keyRegistry.Get(origin);
          if key.Some? {
            var plain := crypto.unseal(self, key.value, envelope[32..]);
            if plain.Some? {
              OnMessage(origin, plain.value);
            }
          }
        }
      } else if ttl == 0 {
        // dropped before the cache sees it
      } else {
        var dup := dedup.CheckAndInsertRouted(id, now);
        if !dup {
          var newTtl := ttl - 1;
          assert envelope == envelope[..32] + envelope[32..];
          SpawnRelayToNeighbors([3] + dest.bytes + [newTtl] + envelope, id, sender);
        }
      }
    }
  }
}
