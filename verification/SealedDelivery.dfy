/**
 Sealed messages end to end. The id is recorded before the sender's key is looked up, so it is the
 first copy to arrive that decides: the handler runs exactly when the destination then holds a key
 that opens the message, and what it gets is what was sealed.
 */
module SealedDelivery {
  import opened Types
  import opened Wire
  import opened Node
  import opened Mesh
  import opened Flood
  import opened FloodDelivery
  import opened MeshTheorems
  import opened KeyAgreement
  import KeyRegistry

  /** The step hands node `d` its first copy under `id`. */
  predicate TakesFirst(s: State, step: Step, id: MsgId, d: PeerId) {
    step.Deliver? && step.id == id && step.p.dst == d && d in s.node && id !in s.node[d].routed
  }

  /** The state of node `d` when it took its first copy under `id`. */
  ghost function FirstTaken(c: Config, s: State, steps: seq<Step>, id: MsgId, d: PeerId): Option<NodeState>
    requires CanRun(c, s, steps)
    decreases steps
  {
    if steps == [] then None
    else if TakesFirst(s, steps[0], id, d) then Some(s.node[d])
    else FirstTaken(c, Apply(c, s, steps[0]), steps[1..], id, d)
  }

  /** The handler calls that a destination in state `st` makes of its first copy of `f`. */
  function OpenedBy(c: Config, f: Frame, st: Option<NodeState>): seq<(PeerId, Call)>
    requires f.Sealed?
  {
    if st.None? || f.dest !in c.handlers then []
    else
      match Open(c.crypto, f.dest, st.value, f.sender, f.message)
      case None => []
      case Some(call) => [(f.dest, call)]
  }

  // ---- the first copy decides --------------------------------------------------

  /** What a step adds to the calls under `id`: nothing, unless it hands the destination its first copy. */
  ghost predicate Decides(c: Config, s: State, step: Step, s': State, id: MsgId, f: Frame)
    requires f.Sealed?
  {
    && CallsIn(s'.log, id) == CallsIn(s.log, id) +
         (if TakesFirst(s, step, id, f.dest) then OpenedBy(c, f, Some(s.node[f.dest])) else [])
    && (f.dest in SeenBy(s'.node, id) <==> f.dest in SeenBy(s.node, id) || TakesFirst(s, step, id, f.dest))
  }

  lemma SealedCall(c: Config, s: State, p: Packet, id: MsgId, f: Frame, start: Time)
    requires p.dst in s.node && Window(s.node, id, start) && start <= s.now < start + DEDUP_TTL
    requires f.Sealed? && p.frame.Sealed? && p.frame == At(f, p.frame.ttl)
    ensures var e := EffectOf(c, s, id, p);
            (if e.call.Some? then [(p.dst, e.call.value)] else [])
            == if p.dst == f.dest && id !in s.node[p.dst].routed then OpenedBy(c, f, Some(s.node[f.dest])) else []
  {
    CheckKeeps(s.node[p.dst].routed, id, id, s.now, start);
  }

  lemma CopyDecides(c: Config, s: State, p: Packet, id: MsgId, f: Frame, start: Time)
    requires Enabled(c, s, Deliver(id, p)) && Window(s.node, id, start) && start <= s.now < start + DEDUP_TTL
    requires f.Sealed? && Carried(ViewOf(s, id), f)
    ensures Decides(c, s, Deliver(id, p), Apply(c, s, Deliver(id, p)), id, f)
  {
    hide Dispatch, EffectOf, Apply, RelaysIn, SendsIn, CallsIn, SeenBy, RelayTargets, Relays, OpenedBy, Window;
    assert p in ViewOf(s, id).air;
    TakeView(c, s, p, id);
    EffectInWindow(c, s, p, id, f, start);
    SealedCall(c, s, p, id, f, start);
    SeenIff(s.node, p.dst, id);
  }

  /** Only taking a copy shows in the calls and in who has recorded the id. */
  lemma NoTakeKeeps(c: Config, d: PeerId, v: View, m: Move)
    requires !m.Take?
    ensures Next(c, d, v, m).calls == v.calls && Next(c, d, v, m).seen == v.seen
  {
  }

  lemma StepDecides(c: Config, s: State, step: Step, id: MsgId, f: Frame, start: Time)
    requires Enabled(c, s, step) && Unforged(step, id) && Window(s.node, id, start)
    requires start <= s.now < start + DEDUP_TTL
    requires f.Sealed? && Carried(ViewOf(s, id), f)
    ensures Decides(c, s, step, Apply(c, s, step), id, f)
  {
    hide Apply, EffectOf, Possible, Next, RelaysIn, SendsIn, CallsIn, SeenBy, Window, OpenedBy, Carried;
    if step.Deliver? && step.id == id {
      CopyDecides(c, s, step.p, id, f, start);
    } else {
      StepProjects(c, s, step, id, f, start);
      NoTakeKeeps(c, f.dest, ViewOf(s, id), MoveOf(c, s, step, id));
      assert CallsIn(s.log, id) + [] == CallsIn(s.log, id);
    }
  }

  lemma {:induction false} FirstCopyDecides(c: Config, s: State, steps: seq<Step>, id: MsgId, f: Frame, start: Time)
    requires CanRun(c, s, steps) && Window(s.node, id, start) && start <= s.now
    requires forall st :: st in steps ==> Unforged(st, id)
    requires f.Sealed? && Carried(ViewOf(s, id), f)
    requires Run(c, s, steps).now < start + DEDUP_TTL
    ensures var s' := Run(c, s, steps);
            if f.dest in SeenBy(s.node, id) then
              CallsIn(s'.log, id) == CallsIn(s.log, id) && f.dest in SeenBy(s'.node, id)
            else
              && CallsIn(s'.log, id) == CallsIn(s.log, id) + OpenedBy(c, f, FirstTaken(c, s, steps, id, f.dest))
              && (f.dest in SeenBy(s'.node, id) <==> FirstTaken(c, s, steps, id, f.dest).Some?)
    decreases steps
  {
    if steps == [] {
      assert CallsIn(s.log, id) + [] == CallsIn(s.log, id);
    } else {
      hide Apply, ViewOf, Window, Possible, Next, MoveOf, CallsIn, Open;
      var s' := Apply(c, s, steps[0]);
      ClockMonotone(c, s, [steps[0]]);
      ClockMonotone(c, s', steps[1..]);
      assert steps[0] in steps;
      StepDecides(c, s, steps[0], id, f, start);
      StepProjects(c, s, steps[0], id, f, start);
      FirstCopyDecides(c, s', steps[1..], id, f, start);
      assert CallsIn(s.log, id) + [] == CallsIn(s.log, id);
    }
  }

  /**
   Exactly when a sealed flood reaches the handler: the destination took a copy, has a handler, and
   held a key of the sender that opens the message when it took the first one. Then it ran once, with
   what that key yields; and the id is recorded whether it ran or not.
   */
  lemma SealedCallsExactly(c: Config, s: State, o: PeerId, id: MsgId, f: Frame, steps: seq<Step>)
    requires FloodRun(c, s, o, id, f, steps) && f.Sealed?
    ensures var s1 := Launched(c, s, o, id, f); var s' := Run(c, s1, steps);
            var first := FirstTaken(c, s1, steps, id, f.dest);
            && CallsIn(s'.log, id) == OpenedBy(c, f, first)
            && (f.dest in s'.node && id in s'.node[f.dest].routed <==> first.Some?)
  {
    hide Apply, CallsIn, RelaysIn, SendsIn, Open, OpenedBy;
    LaunchView(c, s, o, id, f);
    LaunchTime(c, s, o, id, f);
    var s1 := Launched(c, s, o, id, f);
    assert ViewOf(s1, id).seen == {} && ViewOf(s1, id).calls == [];
    FirstCopyDecides(c, s1, steps, id, f, s.now);
    assert [] + OpenedBy(c, f, FirstTaken(c, s1, steps, id, f.dest)) == OpenedBy(c, f, FirstTaken(c, s1, steps, id, f.dest));
  }

  // ---- what the handler gets ---------------------------------------------------

  lemma {:induction false} FirstTakenBound(c: Config, s: State, steps: seq<Step>, id: MsgId, d: PeerId)
    requires CanRun(c, s, steps) && Bound(c, s.node)
    ensures var first := FirstTaken(c, s, steps, id, d);
            first.Some? ==> RegistryBound(c.crypto.hash, first.value.registry)
    decreases steps
  {
    if steps != [] {
      hide Apply, RegistryBound;
      StepBound(c, s, steps[0]);
      FirstTakenBound(c, Apply(c, s, steps[0]), steps[1..], id, d);
    }
  }

  lemma LaunchBound(c: Config, s: State, o: PeerId, id: MsgId, f: Frame)
    requires o in c.nbrs && Routable(f) && f.ttl == MAX_TTL
    ensures Launched(c, s, o, id, f).node == s.node
  {
  }

  /** The sender's key opens the message at its destination, and yields `plain`. */
  predicate Opens(c: Config, f: Frame, key: Key, plain: Bytes)
    requires f.Sealed?
  {
    c.crypto.hash(key) == f.sender && c.crypto.unseal(f.dest, key, f.message) == Some(plain)
  }

  /** With a collision-free hash a bound registry that knows the sender opens the message to `plain`. */
  lemma OnlyPlain(c: Config, f: Frame, st: NodeState, key: Key, plain: Bytes)
    requires f.Sealed? && Injective(c.crypto.hash) && RegistryBound(c.crypto.hash, st.registry) && Opens(c, f, key, plain)
    ensures OpenedBy(c, f, Some(st))
         == if f.dest in c.handlers && f.sender in st.registry.entries then [(f.dest, Call(f.sender, plain))] else []
  {
  }

  /**
   In every run with a collision-free hash, forged announcements included, the handler is only ever
   called at the destination, as from the true sender, and with what the sender sealed; and it is
   called exactly when the destination knew the sender's key as it took its first copy.
   */
  lemma SealedPayload(c: Config, s: State, o: PeerId, id: MsgId, f: Frame, steps: seq<Step>, key: Key, plain: Bytes)
    requires FloodRun(c, s, o, id, f, steps) && f.Sealed?
    requires Bound(c, s.node) && Injective(c.crypto.hash) && Opens(c, f, key, plain)
    ensures var s1 := Launched(c, s, o, id, f);
            var first := FirstTaken(c, s1, steps, id, f.dest);
            CallsIn(Run(c, s1, steps).log, id) ==
              if first.Some? && f.dest in c.handlers && f.sender in first.value.registry.entries
              then [(f.dest, Call(f.sender, plain))] else []
  {
    hide Apply, CallsIn, RegistryBound, Injective, Opens, Open, FirstTaken, Run, Unused;
    SealedCallsExactly(c, s, o, id, f, steps);
    LaunchBound(c, s, o, id, f);
    var first := FirstTaken(c, Launched(c, s, o, id, f), steps, id, f.dest);
    FirstTakenBound(c, Launched(c, s, o, id, f), steps, id, f.dest);
    if first.Some? { OnlyPlain(c, f, first.value, key, plain); }
  }

  /** What sealing by the owner of `key` for the owner of `k` guarantees: `k`'s owner opens it with `key`. */
  ghost predicate SealsFor(crypto: Crypto, key: Key, seal: (Key, Bytes) -> Option<Bytes>) {
    forall k, plain :: seal(k, plain).Some? ==> crypto.unseal(crypto.hash(k), key, seal(k, plain).value) == Some(plain)
  }

  /** The frame a node with static key `key` floods when it sends `plain` sealed to `dest`. */
  predicate SealedSend(c: Config, s: State, o: PeerId, dest: PeerId, plain: Bytes, key: Key,
                       seal: (Key, Bytes) -> Option<Bytes>, f: Frame)
  {
    && c.crypto.hash(key) == o && o in s.node && dest in s.node[o].registry.entries
    && var sealed := seal(s.node[o].registry.entries[dest], plain);
       sealed.Some? && f == Sealed(dest, MAX_TTL, o, sealed.value)
  }

  lemma SealedSendOpens(c: Config, s: State, o: PeerId, dest: PeerId, plain: Bytes, key: Key,
                        seal: (Key, Bytes) -> Option<Bytes>, f: Frame)
    requires SealedSend(c, s, o, dest, plain, key, seal, f) && SealsFor(c.crypto, key, seal) && Bound(c, s.node)
    ensures f.Sealed? && Opens(c, f, key, plain)
  {
    assert RegistryBound(c.crypto.hash, s.node[o].registry);
  }

  /** End to end: what a sealed send hands over at the destination is exactly what was given to it. */
  lemma SealedEndToEnd(c: Config, s: State, o: PeerId, id: MsgId, f: Frame, steps: seq<Step>,
                       dest: PeerId, plain: Bytes, key: Key, seal: (Key, Bytes) -> Option<Bytes>)
    requires SealedSend(c, s, o, dest, plain, key, seal, f) && SealsFor(c.crypto, key, seal)
    requires FloodRun(c, s, o, id, f, steps) && Bound(c, s.node) && Injective(c.crypto.hash)
    ensures var s1 := Launched(c, s, o, id, f);
            var first := FirstTaken(c, s1, steps, id, dest);
            CallsIn(Run(c, s1, steps).log, id) ==
              if first.Some? && dest in c.handlers && o in first.value.registry.entries then [(dest, Call(o, plain))] else []
  {
    SealedSendOpens(c, s, o, dest, plain, key, seal, f);
    SealedPayload(c, s, o, id, f, steps, key, plain);
  }

  // ---- when the key is there ---------------------------------------------------

  /** The destination keeps a key that a handshake confirmed. */
  lemma StepProtects(c: Config, s: State, step: Step, d: PeerId, p: PeerId)
    requires Enabled(c, s, step) && step != Forget(d, p)
    requires d in s.node && KeyRegistry.Protected(s.node[d].registry, p)
    ensures d in Apply(c, s, step).node && KeyRegistry.Protected(Apply(c, s, step).node[d].registry, p)
  {
    hide KeyRegistry.Apply, Dispatch;
    match step
    case Deliver(id, q) => if q.dst == d { DispatchProtects(c, s, id, q, p); }
    case Handshake(u, key) => if u == d { KeyRegistry.ApplyProtects(s.node[u].registry, KeyRegistry.Handshake(c.crypto.hash(key), key), p); }
    case Forget(u, peer) => if u == d { KeyRegistry.ApplyProtects(s.node[u].registry, KeyRegistry.Forget(peer), p); }
    case _ =>
  }

  lemma DispatchProtects(c: Config, s: State, id: MsgId, q: Packet, p: PeerId)
    requires q.dst in s.node && KeyRegistry.Protected(s.node[q.dst].registry, p)
    ensures KeyRegistry.Protected(EffectOf(c, s, id, q).node.registry, p)
  {
    if q.frame.Announce? { KeyRegistry.ApplyProtects(s.node[q.dst].registry, KeyRegistry.Gossip(q.frame.peer, q.frame.key), p); }
  }

  lemma {:induction false} FirstTakenProtected(c: Config, s: State, steps: seq<Step>, id: MsgId, d: PeerId, p: PeerId)
    requires CanRun(c, s, steps) && Forget(d, p) !in steps
    requires d in s.node && KeyRegistry.Protected(s.node[d].registry, p)
    ensures var first := FirstTaken(c, s, steps, id, d); first.Some? ==> p in first.value.registry.entries
    decreases steps
  {
    if steps != [] {
      hide Apply;
      assert steps[0] in steps;
      StepProtects(c, s, steps[0], d, p);
      FirstTakenProtected(c, Apply(c, s, steps[0]), steps[1..], id, d, p);
    }
  }

  /** The destination, if it has a handler, has confirmed the sender's key by handshake and does not forget it. */
  ghost predicate KeyKept(c: Config, s: State, f: Frame, steps: seq<Step>)
    requires f.Sealed?
  {
    && f.dest in c.handlers && f.dest in s.node && KeyRegistry.Protected(s.node[f.dest].registry, f.sender)
    && Forget(f.dest, f.sender) !in steps
  }

  /** With the key kept, a sealed message that is recorded at its destination has reached the handler. */
  lemma RecordedMeansOpened(c: Config, s: State, o: PeerId, id: MsgId, f: Frame, steps: seq<Step>, key: Key, plain: Bytes)
    requires FloodRun(c, s, o, id, f, steps) && f.Sealed? && KeyKept(c, s, f, steps)
    requires Bound(c, s.node) && Injective(c.crypto.hash) && Opens(c, f, key, plain)
    requires Delivered(c, Run(c, Launched(c, s, o, id, f), steps), id, f)
    ensures CallsIn(Run(c, Launched(c, s, o, id, f), steps).log, id) == [(f.dest, Call(f.sender, plain))]
  {
    hide CallsIn, Bound, Injective, Opens;
    SealedCallsExactly(c, s, o, id, f, steps);
    SealedPayload(c, s, o, id, f, steps, key, plain);
    LaunchBound(c, s, o, id, f);
    FirstTakenProtected(c, Launched(c, s, o, id, f), steps, id, f.dest, f.sender);
  }

  /** Small meshes deliver sealed messages to the handler too, once, and as they were before sealing. */
  lemma SealedSmallMeshDelivers(c: Config, s: State, o: PeerId, id: MsgId, f: Frame, steps: seq<Step>, path: seq<PeerId>,
                                key: Key, plain: Bytes)
    requires FloodRun(c, s, o, id, f, steps) && NothingLost(steps, id) && |c.nodes| <= MAX_TTL as int + 1
    requires f.dest != o && Connects(c, path, o, f.dest)
    requires Air(Run(c, Launched(c, s, o, id, f), steps), id) == multiset{}
    requires f.Sealed? && KeyKept(c, s, f, steps) && Bound(c, s.node) && Injective(c.crypto.hash) && Opens(c, f, key, plain)
    ensures CallsIn(Run(c, Launched(c, s, o, id, f), steps).log, id) == [(f.dest, Call(f.sender, plain))]
  {
    hide FloodRun, Delivered, CallsIn, KeyKept, Bound, Injective, Opens, Connects;
    SmallMeshDelivers(c, s, o, id, f, steps, path);
    RecordedMeansOpened(c, s, o, id, f, steps, key, plain);
  }

  /** And so does hop order in meshes of any size. */
  lemma SealedHopOrderDelivers(c: Config, s: State, o: PeerId, id: MsgId, f: Frame, steps: seq<Step>, path: seq<PeerId>,
                               key: Key, plain: Bytes)
    requires FloodRun(c, s, o, id, f, steps) && NothingLost(steps, id)
    requires InHopOrder(c, Launched(c, s, o, id, f), steps, id)
    requires f.dest != o && Connects(c, path, o, f.dest) && |path| - 1 <= MAX_TTL as int + 1
    requires Air(Run(c, Launched(c, s, o, id, f), steps), id) == multiset{}
    requires f.Sealed? && KeyKept(c, s, f, steps) && Bound(c, s.node) && Injective(c.crypto.hash) && Opens(c, f, key, plain)
    ensures CallsIn(Run(c, Launched(c, s, o, id, f), steps).log, id) == [(f.dest, Call(f.sender, plain))]
  {
    hide FloodRun, Delivered, CallsIn, KeyKept, Bound, Injective, Opens, Connects, InHopOrder;
    HopOrderDelivers(c, s, o, id, f, steps, path);
    RecordedMeansOpened(c, s, o, id, f, steps, key, plain);
  }

  // ---- a message lost for want of a key ----------------------------------------

  /** Two neighbours, the second with a handler, neither knowing any key. */
  function Pair(o: PeerId, d: PeerId, crypto: Crypto): Config {
    Config({o, d}, map[o := {d}, d := {o}], {d}, crypto)
  }

  const KEYLESS := NodeState(map[], map[], KeyRegistry.Empty(None))

  function Strangers(o: PeerId, d: PeerId): State {
    State(map[o := KEYLESS, d := KEYLESS], map[], 0, [])
  }

  /** The only copy arrives; then comes the handshake that brings the key. */
  function KeyTooLate(o: PeerId, d: PeerId, id: MsgId, f: Frame, key: Key): seq<Step> {
    [Deliver(id, Packet(o, d, f)), Handshake(d, key)]
  }

  ghost predicate ForPair(o: PeerId, d: PeerId, f: Frame) {
    o != d && f.Sealed? && f.dest == d && f.ttl == MAX_TTL && f.sender == o
  }

  lemma PairLaunch(o: PeerId, d: PeerId, crypto: Crypto, id: MsgId, f: Frame)
    requires ForPair(o, d, f)
    ensures Launched(Pair(o, d, crypto), Strangers(o, d), o, id, f)
         == State(Strangers(o, d).node, map[id := multiset{Packet(o, d, f)}], 0, [Originated(o, id, 1)])
  {
    var c := Pair(o, d, crypto);
    assert OriginTargets(c, o, f) == {d};
    assert (set v | v in {d} :: Packet(o, v, f)) == {Packet(o, d, f)};
    assert multiset{} + Copies(o, {d}, f) == multiset{Packet(o, d, f)};
    assert |{d}| == 1;
    assert [] + [Originated(o, id, 1)] == [Originated(o, id, 1)];
  }

  /** Without the sender's key the destination records the id, and that is all. */
  lemma PairDeliver(o: PeerId, d: PeerId, crypto: Crypto, id: MsgId, f: Frame, log: seq<Event>)
    requires ForPair(o, d, f)
    ensures var c, s := Pair(o, d, crypto), State(Strangers(o, d).node, map[id := multiset{Packet(o, d, f)}], 0, log);
            && Enabled(c, s, Deliver(id, Packet(o, d, f)))
            && Apply(c, s, Deliver(id, Packet(o, d, f)))
               == State(Strangers(o, d).node[d := KEYLESS.(routed := map[id := 0])], map[id := multiset{}], 0, log)
  {
    var c, p := Pair(o, d, crypto), Packet(o, d, f);
    var s := State(Strangers(o, d).node, map[id := multiset{p}], 0, log);
    assert EffectOf(c, s, id, p) == Effect(KEYLESS.(routed := map[id := 0]), None, None);
    assert multiset{p} - multiset{p} + multiset{} == multiset{};
    assert log + [] + [] == log;
  }

  lemma TwoSteps(c: Config, s: State, a: Step, b: Step, id: MsgId, d: PeerId)
    requires Enabled(c, s, a) && Enabled(c, Apply(c, s, a), b) && TakesFirst(s, a, id, d)
    ensures CanRun(c, s, [a, b]) && Run(c, s, [a, b]) == Apply(c, Apply(c, s, a), b)
    ensures FirstTaken(c, s, [a, b], id, d) == Some(s.node[d])
  {
    hide Apply, Enabled;
    assert [a, b][1..] == [b] && [b][1..] == [];
    var m := Apply(c, s, a);
    assert CanRun(c, Apply(c, m, b), []) && CanRun(c, m, [b]);
    assert Run(c, m, [b]) == Run(c, Apply(c, m, b), []) == Apply(c, m, b);
  }

  lemma KeyTooLateRuns(o: PeerId, d: PeerId, crypto: Crypto, id: MsgId, f: Frame, key: Key)
    requires ForPair(o, d, f) && crypto.hash(key) == o
    ensures var c, s, steps := Pair(o, d, crypto), Strangers(o, d), KeyTooLate(o, d, id, f, key);
            var s0 := Launched(c, s, o, id, f);
            && CanRun(c, s0, steps) && FirstTaken(c, s0, steps, id, d) == Some(KEYLESS)
            && var s' := Run(c, s0, steps);
               && s'.now == 0 && Air(s', id) == multiset{} && d in s'.node && id in s'.node[d].routed
               && s'.node[d].registry.entries == map[o := key]
  {
    hide EffectOf, Relays, EventsOf, OriginTargets, Copies, Launched, Run, CanRun, FirstTaken;
    PairLaunch(o, d, crypto, id, f);
    PairDeliver(o, d, crypto, id, f, [Originated(o, id, 1)]);
    var c, s0 := Pair(o, d, crypto), Launched(Pair(o, d, crypto), Strangers(o, d), o, id, f);
    TwoSteps(c, s0, Deliver(id, Packet(o, d, f)), Handshake(d, key), id, d);
  }

  /**
   Nothing is lost on the way, the destination records the message and learns the key that opens it;
   still the handler does not run, since the first copy came before the key, and no later copy will
   be looked at.
   */
  lemma KeyTooLateLoses(o: PeerId, d: PeerId, crypto: Crypto, id: MsgId, f: Frame, key: Key, plain: Bytes)
    requires ForPair(o, d, f) && Opens(Pair(o, d, crypto), f, key, plain)
    ensures var c, s, steps := Pair(o, d, crypto), Strangers(o, d), KeyTooLate(o, d, id, f, key);
            && FloodRun(c, s, o, id, f, steps) && NothingLost(steps, id)
            && var s' := Run(c, Launched(c, s, o, id, f), steps);
               && Air(s', id) == multiset{} && Delivered(c, s', id, f) && CallsIn(s'.log, id) == []
               && s'.node[d].registry.entries == map[o := key]
  {
    hide Run, CanRun, Apply, FirstTaken;
    KeyTooLateRuns(o, d, crypto, id, f, key);
    SealedCallsExactly(Pair(o, d, crypto), Strangers(o, d), o, id, f, KeyTooLate(o, d, id, f, key));
  }
}
