/**
 How a key announcement spreads. Every node that hears it for the first time stores the key and, while
 the hop budget lasts, passes it on once; so a lossless announcement that has gone quiet has taught
 the key to every node it should, in small meshes and in hop order.
 */
module AnnounceDelivery {
  import opened Types
  import opened Wire
  import opened Node
  import opened Mesh
  import opened Flood
  import opened FloodDelivery
  import opened MeshTheorems
  import opened KeyAgreement
  import KeyRegistry

  // ---- one arrival -------------------------------------------------------------

  /**
   The step law. A valid announcement that was not accepted within the window is stored, unless the
   registry is full of keys that handshakes confirmed; it is recorded, and relayed while its budget lasts.
   */
  lemma AnnouncementLearned(c: Config, s: State, id: MsgId, p: Packet)
    requires p.dst in s.node && p.frame.Announce? && c.crypto.hash(p.frame.key) == p.frame.peer
    requires !SeenRouted(s.node[p.dst], id, s.now)
    ensures var e, r := EffectOf(c, s, id, p), s.node[p.dst].registry;
            && (r.maxSize.None? || |r.entries| < r.maxSize.value || p.frame.peer in r.entries || r.order != [] ==>
                  p.frame.peer in e.node.registry.entries && e.node.registry.entries[p.frame.peer] == p.frame.key)
            && id in e.node.routed
            && e.relay == (if p.frame.ttl == 0 then None
                           else Some(Announce(p.frame.peer, p.frame.key, (if p.frame.ttl < MAX_TTL then p.frame.ttl else MAX_TTL) - 1)))
            && e.call.None?
  {
  }

  /** A forged announcement changes nothing; a repeated one teaches nothing and goes no further. */
  lemma AnnouncementIgnored(c: Config, s: State, id: MsgId, p: Packet)
    requires p.dst in s.node && p.frame.Announce?
    requires c.crypto.hash(p.frame.key) != p.frame.peer || SeenRouted(s.node[p.dst], id, s.now)
    ensures var e, st := EffectOf(c, s, id, p), s.node[p.dst];
            && e.relay.None? && e.call.None? && e.node.registry == st.registry && e.node.direct == st.direct
            && (c.crypto.hash(p.frame.key) != p.frame.peer ==> e.node == st)
  {
  }

  /** The announcement with another hop budget. */
  function Aged(f: Frame, ttl: byte): Frame
    requires f.Announce?
  {
    Announce(f.peer, f.key, ttl)
  }

  /** Every copy in flight is the announcement up to its ttl. */
  ghost predicate Heralds(v: View, f: Frame) {
    f.Announce? && forall p :: p in v.air ==> p.frame.Announce? && p.frame == Aged(f, p.frame.ttl) && p.frame.ttl <= MAX_TTL
  }

  /** `p.dst` takes `p`: the first time it records the id and, with budget left, passes the announcement on. */
  ghost predicate Hears(c: Config, v: View, v': View, p: Packet) {
    && p in v.air && p.dst in c.nbrs && p.frame.Announce?
    && if p.dst in v.seen then v'.air == v.air - multiset{p} && v'.seen == v.seen && v'.relays == v.relays
       else if p.frame.ttl == 0 then
         v'.air == v.air - multiset{p} && v'.seen == v.seen + {p.dst} && v'.relays == v.relays
       else
         && v'.air == v.air - multiset{p} + Copies(p.dst, RelayTargets(c, p.dst, p.src), Aged(p.frame, p.frame.ttl - 1))
         && v'.seen == v.seen + {p.dst} && v'.relays == v.relays + [p.dst]
  }

  lemma HeraldEffect(c: Config, s: State, p: Packet, id: MsgId, start: Time)
    requires p.dst in s.node && Window(s.node, id, start) && start <= s.now < start + DEDUP_TTL
    requires p.frame.Announce? && c.crypto.hash(p.frame.key) == p.frame.peer && p.frame.ttl <= MAX_TTL
    ensures var e, st := EffectOf(c, s, id, p), s.node[p.dst];
            && id in e.node.routed && start <= e.node.routed[id] && e.call.None?
            && e.relay == (if id in st.routed || p.frame.ttl == 0 then None else Some(Aged(p.frame, p.frame.ttl - 1)))
  {
    CheckKeeps(s.node[p.dst].routed, id, id, s.now, start);
  }

  lemma ArrivalHeard(c: Config, s: State, p: Packet, id: MsgId, f: Frame, start: Time)
    requires Enabled(c, s, Deliver(id, p)) && Window(s.node, id, start) && start <= s.now < start + DEDUP_TTL
    requires Heralds(ViewOf(s, id), f) && c.crypto.hash(f.key) == f.peer
    ensures var s' := Apply(c, s, Deliver(id, p));
            Hears(c, ViewOf(s, id), ViewOf(s', id), p) && Window(s'.node, id, start)
  {
    hide Dispatch, EffectOf, Apply, RelaysIn, SendsIn, CallsIn, SeenBy, Window, RelayTargets, Copies;
    var v := ViewOf(s, id);
    assert p in v.air;
    TakeView(c, s, p, id);
    HeraldEffect(c, s, p, id, start);
    WindowKept(c, s, p, id, start);
    SeenIff(s.node, p.dst, id);
    assert v.air - multiset{p} + multiset{} == v.air - multiset{p} && v.relays + [] == v.relays;
  }

  /** Any step, seen through the announcement's id. */
  ghost predicate Spreads(c: Config, s: State, step: Step, s': State, id: MsgId) {
    var v, v' := ViewOf(s, id), ViewOf(s', id);
    if step.Deliver? && step.id == id then Hears(c, v, v', step.p)
    else
      && v'.seen == v.seen && v'.relays == v.relays
      && v'.air == (if step.Duplicate? && step.id == id then v.air + multiset{step.p}
                    else if step.Lose? && step.id == id then v.air - multiset{step.p}
                    else v.air)
      && ((step.Duplicate? || step.Lose?) && step.id == id ==> step.p in v.air)
  }

  lemma OtherSpreads(c: Config, s: State, step: Step, id: MsgId, start: Time)
    requires Enabled(c, s, step) && Unforged(step, id) && Window(s.node, id, start)
    requires start <= s.now < start + DEDUP_TTL && !(step.Deliver? && step.id == id)
    ensures Spreads(c, s, step, Apply(c, s, step), id) && Window(Apply(c, s, step).node, id, start)
  {
    hide Apply, ViewOf, Window, EffectOf;
    var d := PeerId(seq(32, _ => 0));
    match step
    case Deliver(other, p) => ForeignCopy(c, d, s, other, p, id, start);
    case Handshake(_, _) => RegistryStep(c, d, s, step, id, start);
    case Forget(_, _) => RegistryStep(c, d, s, step, id, start);
    case Originate(_, _, _) => OriginStep(c, d, s, step, id, start);
    case _ => AirStep(c, d, s, step, id, start);
  }

  lemma StepSpreads(c: Config, s: State, step: Step, id: MsgId, f: Frame, start: Time)
    requires Enabled(c, s, step) && Unforged(step, id) && Window(s.node, id, start)
    requires start <= s.now < start + DEDUP_TTL
    requires Heralds(ViewOf(s, id), f) && c.crypto.hash(f.key) == f.peer
    ensures var s' := Apply(c, s, step);
            Spreads(c, s, step, s', id) && Window(s'.node, id, start) && Heralds(ViewOf(s', id), f)
  {
    hide Apply, ViewOf, Window;
    if step.Deliver? && step.id == id { ArrivalHeard(c, s, step.p, id, f, start); } else { OtherSpreads(c, s, step, id, start); }
    HeraldsKept(c, s, step, Apply(c, s, step), id, f);
  }

  lemma HeraldsKept(c: Config, s: State, step: Step, s': State, id: MsgId, f: Frame)
    requires Heralds(ViewOf(s, id), f) && Spreads(c, s, step, s', id)
    ensures Heralds(ViewOf(s', id), f)
  {
    hide ViewOf, Copies, RelayTargets;
    if step.Deliver? && step.id == id && step.p.frame.ttl > 0 {
      var p := step.p;
      CopiesAre(p.dst, RelayTargets(c, p.dst, p.src), Aged(p.frame, p.frame.ttl - 1));
    }
  }

  // ---- whole announcements -----------------------------------------------------

  function Announced(c: Config, s: State, o: PeerId, id: MsgId, f: Frame): State
    requires o in c.nbrs && f.Announce? && f.ttl == MAX_TTL
  {
    Apply(c, s, Originate(o, id, f))
  }

  /** A valid announcement under a fresh id, and steps that follow it inside its window. */
  ghost predicate AnnounceRun(c: Config, s: State, o: PeerId, id: MsgId, f: Frame, steps: seq<Step>) {
    && WellFormed(c) && o in c.nodes && f.Announce? && f.ttl == MAX_TTL && c.crypto.hash(f.key) == f.peer && Unused(s, id)
    && CanRun(c, Announced(c, s, o, id, f), steps)
    && (forall st :: st in steps ==> Unforged(st, id))
    && Run(c, Announced(c, s, o, id, f), steps).now < s.now + DEDUP_TTL
  }

  lemma AnnounceView(c: Config, s: State, o: PeerId, id: MsgId, f: Frame)
    requires WellFormed(c) && o in c.nodes && f.Announce? && f.ttl == MAX_TTL && Unused(s, id)
    ensures var s1 := Announced(c, s, o, id, f); var v := ViewOf(s1, id);
            && v.air == Copies(o, OriginTargets(c, o, f), f) && v.seen == {} && v.relays == []
            && Window(s1.node, id, s.now) && Heralds(v, f) && s1.now == s.now && s1.node == s.node
  {
    hide RelaysIn, SendsIn, CallsIn, Copies;
    var targets := OriginTargets(c, o, f);
    LogEvent(s.log, Originated(o, id, |targets|), id);
    assert multiset{} + Copies(o, targets, f) == Copies(o, targets, f);
    CopiesAre(o, targets, f);
    forall u | u in s.node ensures id !in s.node[u].routed {
      assert id in s.node[u].routed ==> u in SeenBy(s.node, id);
    }
  }

  // ---- safety ------------------------------------------------------------------

  /** Relays are distinct nodes, all of which have recorded the id. */
  ghost predicate RelayOnce(v: View) {
    Distinct(v.relays) && forall u :: u in v.relays ==> u in v.seen
  }

  lemma RelayOnceKept(c: Config, s: State, step: Step, s': State, id: MsgId)
    requires RelayOnce(ViewOf(s, id)) && Spreads(c, s, step, s', id)
    ensures RelayOnce(ViewOf(s', id))
  {
    hide ViewOf, Copies, RelayTargets;
  }

  lemma {:induction false} AnnouncementFlow(c: Config, s: State, steps: seq<Step>, id: MsgId, f: Frame, start: Time)
    requires CanRun(c, s, steps) && Window(s.node, id, start) && start <= s.now
    requires forall st :: st in steps ==> Unforged(st, id)
    requires Run(c, s, steps).now < start + DEDUP_TTL
    requires Heralds(ViewOf(s, id), f) && c.crypto.hash(f.key) == f.peer && RelayOnce(ViewOf(s, id))
    ensures Heralds(ViewOf(Run(c, s, steps), id), f) && RelayOnce(ViewOf(Run(c, s, steps), id))
    decreases steps
  {
    if steps != [] {
      hide Apply, ViewOf, Window, Heralds, RelayOnce, Spreads;
      var s' := Apply(c, s, steps[0]);
      ClockMonotone(c, s, [steps[0]]);
      ClockMonotone(c, s', steps[1..]);
      assert steps[0] in steps;
      StepSpreads(c, s, steps[0], id, f, start);
      RelayOnceKept(c, s, steps[0], s', id);
      AnnouncementFlow(c, s', steps[1..], id, f, start);
    }
  }

  /** In every run the copies in flight carry the announced peer and key, and each node relays them at most once. */
  lemma AnnouncementIsSafe(c: Config, s: State, o: PeerId, id: MsgId, f: Frame, steps: seq<Step>)
    requires AnnounceRun(c, s, o, id, f, steps)
    ensures var s' := Run(c, Announced(c, s, o, id, f), steps);
            && (forall p :: p in Air(s', id) ==> p.frame.Announce? && p.frame == Aged(f, p.frame.ttl) && p.frame.ttl <= MAX_TTL)
            && Distinct(RelaysIn(s'.log, id))
  {
    hide Apply, RelaysIn, SendsIn, CallsIn, SeenBy;
    AnnounceView(c, s, o, id, f);
    AnnouncementFlow(c, Announced(c, s, o, id, f), steps, id, f, s.now);
  }

  // ---- what a node that heard it knows -----------------------------------------

  /** Node `w` keeps all keys it learns, and has learned `peer`'s if it has recorded the announcement. */
  ghost predicate Learned(node: map<PeerId, NodeState>, id: MsgId, w: PeerId, peer: PeerId) {
    && w in node && node[w].registry.maxSize.None?
    && (id in node[w].routed ==> peer in node[w].registry.entries)
  }

  lemma RegistryGrows(r: KeyRegistry.Registry, op: KeyRegistry.Op, peer: PeerId)
    requires r.maxSize.None? && op != KeyRegistry.Forget(peer)
    ensures var r' := KeyRegistry.Apply(r, op);
            r'.maxSize.None? && (peer in r.entries ==> peer in r'.entries) && (op.Gossip? ==> op.peer in r'.entries)
  {
  }

  /** Handling a copy, of this message or another. */
  lemma DispatchLearns(c: Config, s: State, other: MsgId, p: Packet, id: MsgId, f: Frame, start: Time)
    requires p.dst in s.node && Window(s.node, id, start) && start <= s.now < start + DEDUP_TTL
    requires f.Announce? && c.crypto.hash(f.key) == f.peer && Learned(s.node, id, p.dst, f.peer)
    requires other == id ==> p.frame.Announce? && p.frame == Aged(f, p.frame.ttl)
    ensures Learned(s.node[p.dst := EffectOf(c, s, other, p).node], id, p.dst, f.peer)
  {
    var st := s.node[p.dst];
    CheckKeeps(st.routed, id, other, s.now, start);
    if p.frame.Announce? { RegistryGrows(st.registry, KeyRegistry.Gossip(p.frame.peer, p.frame.key), f.peer); }
  }

  lemma StepLearns(c: Config, s: State, step: Step, id: MsgId, f: Frame, start: Time, w: PeerId)
    requires Enabled(c, s, step) && Window(s.node, id, start) && start <= s.now < start + DEDUP_TTL
    requires Heralds(ViewOf(s, id), f) && c.crypto.hash(f.key) == f.peer
    requires Learned(s.node, id, w, f.peer) && step != Forget(w, f.peer)
    ensures Learned(Apply(c, s, step).node, id, w, f.peer)
  {
    hide KeyRegistry.Apply, Dispatch, EffectOf, Relays, EventsOf;
    match step
    case Deliver(other, p) => if p.dst == w { DispatchLearns(c, s, other, p, id, f, start); }
    case Handshake(u, key) => if u == w { RegistryGrows(s.node[u].registry, KeyRegistry.Handshake(c.crypto.hash(key), key), f.peer); }
    case Forget(u, peer) => if u == w { RegistryGrows(s.node[u].registry, KeyRegistry.Forget(peer), f.peer); }
    case _ =>
  }

  lemma {:induction false} RunLearns(c: Config, s: State, steps: seq<Step>, id: MsgId, f: Frame, start: Time, w: PeerId)
    requires CanRun(c, s, steps) && Window(s.node, id, start) && start <= s.now
    requires forall st :: st in steps ==> Unforged(st, id)
    requires Run(c, s, steps).now < start + DEDUP_TTL
    requires Heralds(ViewOf(s, id), f) && c.crypto.hash(f.key) == f.peer
    requires Learned(s.node, id, w, f.peer) && Forget(w, f.peer) !in steps
    ensures Learned(Run(c, s, steps).node, id, w, f.peer)
    decreases steps
  {
    if steps != [] {
      hide Apply, ViewOf, Window, Heralds, Learned, Spreads;
      var s' := Apply(c, s, steps[0]);
      ClockMonotone(c, s, [steps[0]]);
      ClockMonotone(c, s', steps[1..]);
      assert steps[0] in steps;
      StepSpreads(c, s, steps[0], id, f, start);
      StepLearns(c, s, steps[0], id, f, start, w);
      RunLearns(c, s', steps[1..], id, f, start, w);
    }
  }

  /** Node `w` never drops keys: its registry is unbounded and it does not forget this peer. */
  ghost predicate KeepsKeys(s: State, steps: seq<Step>, w: PeerId, peer: PeerId) {
    w in s.node && s.node[w].registry.maxSize.None? && Forget(w, peer) !in steps
  }

  /** A node that has recorded the announcement holds the announced key. */
  lemma RecordedMeansLearned(c: Config, s: State, o: PeerId, id: MsgId, f: Frame, steps: seq<Step>, w: PeerId)
    requires AnnounceRun(c, s, o, id, f, steps) && KeepsKeys(s, steps, w, f.peer)
    requires Bound(c, s.node) && Injective(c.crypto.hash)
    requires w in ViewOf(Run(c, Announced(c, s, o, id, f), steps), id).seen
    ensures var s' := Run(c, Announced(c, s, o, id, f), steps);
            w in s'.node && f.peer in s'.node[w].registry.entries && s'.node[w].registry.entries[f.peer] == f.key
  {
    hide Apply, RelaysIn, SendsIn, CallsIn;
    var s1 := Announced(c, s, o, id, f);
    AnnounceView(c, s, o, id, f);
    assert id in s.node[w].routed ==> w in SeenBy(s1.node, id);
    RunLearns(c, s1, steps, id, f, s.now, w);
    RunBound(c, s1, steps);
    assert RegistryBound(c.crypto.hash, Run(c, s1, steps).node[w].registry);
  }

  // ---- small meshes ------------------------------------------------------------

  /** The link over which the origin does not send: to the owner of the key. */
  predicate Withheld(o: PeerId, f: Frame, u: PeerId, w: PeerId)
    requires f.Announce?
  {
    u == o && w == f.peer
  }

  ghost predicate Teller(o: PeerId, v: View, u: PeerId) {
    u == o || u in v.seen
  }

  /** Copies come from tellers, and a copy with little ttl left has many behind it. */
  ghost predicate FewCopies(c: Config, o: PeerId, v: View) {
    forall p :: p in v.air ==>
      p.frame.Announce? && p.dst in c.nodes && Teller(o, v, p.src) && MAX_TTL as int - p.frame.ttl as int <= |v.seen|
  }

  ghost predicate AllTold(c: Config, o: PeerId, f: Frame, v: View)
    requires f.Announce?
  {
    forall u, w :: Teller(o, v, u) && Link(c, u, w) && !Withheld(o, f, u, w) ==> Reached(o, v, w)
  }

  ghost predicate FewInv(c: Config, o: PeerId, f: Frame, v: View) {
    f.Announce? && v.seen <= c.nodes && FewCopies(c, o, v) && AllTold(c, o, f, v)
  }

  lemma FewStart(c: Config, o: PeerId, f: Frame, v: View)
    requires WellFormed(c) && o in c.nodes && f.Announce? && f.ttl == MAX_TTL
    requires v.air == Copies(o, OriginTargets(c, o, f), f) && v.seen == {}
    ensures FewInv(c, o, f, v)
  {
    hide Copies;
    CopiesAre(o, OriginTargets(c, o, f), f);
    forall u, w | Teller(o, v, u) && Link(c, u, w) && !Withheld(o, f, u, w) ensures Reached(o, v, w) {
      assert Packet(o, w, f) in v.air;
    }
  }

  /** A node that already has it, or a retry: nobody is told less. */
  lemma FewSame(c: Config, o: PeerId, f: Frame, v: View, v': View, taken: Option<Packet>)
    requires FewInv(c, o, f, v) && v'.seen == v.seen
    requires forall q :: q in v.air && Some(q) != taken ==> q in v'.air
    requires forall q :: q in v'.air ==> q in v.air
    requires taken.Some? ==> taken.value.dst in v.seen
    ensures FewInv(c, o, f, v')
  {
    hide Reached, Link;
    StillReached(o, v, v', taken);
  }

  /** Out of budget: by then everybody has it. */
  lemma FewLast(c: Config, o: PeerId, f: Frame, v: View, v': View, p: Packet)
    requires WellFormed(c) && FewInv(c, o, f, v) && |c.nodes| <= MAX_TTL as int + 1 && Hears(c, v, v', p)
    requires p.dst !in v.seen && p.frame.ttl == 0
    ensures FewInv(c, o, f, v')
  {
    SubsetSize(c.nodes - v'.seen, c.nodes);
    assert c.nodes == v'.seen + (c.nodes - v'.seen);
    assert |v'.seen| == |v.seen| + 1;
    assert forall w :: w in c.nodes ==> w in v'.seen;
  }

  lemma FewRelayCopies(c: Config, o: PeerId, f: Frame, v: View, v': View, p: Packet)
    requires WellFormed(c) && FewInv(c, o, f, v) && Hears(c, v, v', p) && p.dst !in v.seen && p.frame.ttl > 0
    ensures FewCopies(c, o, v') && v'.seen <= c.nodes
  {
    hide Copies;
    CopiesAre(p.dst, RelayTargets(c, p.dst, p.src), Aged(p.frame, p.frame.ttl - 1));
    assert |v'.seen| == |v.seen| + 1;
  }

  lemma FewRelay(c: Config, o: PeerId, f: Frame, v: View, v': View, p: Packet)
    requires WellFormed(c) && FewInv(c, o, f, v) && Hears(c, v, v', p) && p.dst !in v.seen && p.frame.ttl > 0
    ensures FewInv(c, o, f, v')
  {
    FewRelayCopies(c, o, f, v, v', p);
    hide Copies, Reached;
    var g := Aged(p.frame, p.frame.ttl - 1);
    StillReached(o, v, v', Some(p));
    forall u, w | Teller(o, v', u) && Link(c, u, w) && !Withheld(o, f, u, w) ensures Reached(o, v', w) {
      if u == p.dst && u !in v.seen { RelayReaches(c, o, v', p, w, g); }
    }
  }

  lemma FewStep(c: Config, o: PeerId, f: Frame, s: State, step: Step, s': State, id: MsgId)
    requires WellFormed(c) && |c.nodes| <= MAX_TTL as int + 1 && Spreads(c, s, step, s', id)
    requires FewInv(c, o, f, ViewOf(s, id)) && !(step.Lose? && step.id == id)
    ensures FewInv(c, o, f, ViewOf(s', id))
  {
    var v, v' := ViewOf(s, id), ViewOf(s', id);
    if step.Deliver? && step.id == id {
      hide FewInv, ViewOf, Copies;
      if step.p.dst in v.seen { FewSame(c, o, f, v, v', Some(step.p)); }
      else if step.p.frame.ttl == 0 { FewLast(c, o, f, v, v', step.p); }
      else { FewRelay(c, o, f, v, v', step.p); }
    } else {
      hide FewInv, ViewOf;
      FewSame(c, o, f, v, v', None);
    }
  }

  lemma {:induction false} FewFlow(c: Config, s: State, steps: seq<Step>, o: PeerId, id: MsgId, f: Frame, start: Time)
    requires CanRun(c, s, steps) && Window(s.node, id, start) && start <= s.now
    requires forall st :: st in steps ==> Unforged(st, id)
    requires NothingLost(steps, id) && Run(c, s, steps).now < start + DEDUP_TTL
    requires Heralds(ViewOf(s, id), f) && c.crypto.hash(f.key) == f.peer
    requires WellFormed(c) && |c.nodes| <= MAX_TTL as int + 1 && FewInv(c, o, f, ViewOf(s, id))
    ensures FewInv(c, o, f, ViewOf(Run(c, s, steps), id))
    decreases steps
  {
    if steps != [] {
      hide Apply, ViewOf, Window, Heralds, FewInv, Spreads;
      var s' := Apply(c, s, steps[0]);
      ClockMonotone(c, s, [steps[0]]);
      ClockMonotone(c, s', steps[1..]);
      assert steps[0] in steps;
      StepSpreads(c, s, steps[0], id, f, start);
      FewStep(c, o, f, s, steps[0], s', id);
      FewFlow(c, s', steps[1..], o, id, f, start);
    }
  }

  /** The path never uses the link over which the origin does not send. */
  ghost predicate Avoids(o: PeerId, f: Frame, path: seq<PeerId>)
    requires f.Announce?
  {
    forall i :: 0 <= i < |path| - 1 ==> !Withheld(o, f, path[i], path[i + 1])
  }

  lemma {:induction false} QuietMeansTold(c: Config, o: PeerId, f: Frame, v: View, path: seq<PeerId>, i: nat)
    requires FewInv(c, o, f, v) && v.air == multiset{}
    requires IsPath(c, path) && path[0] == o && Avoids(o, f, path) && i < |path|
    ensures path[i] == o || path[i] in v.seen
  {
    if i > 0 {
      QuietMeansTold(c, o, f, v, path, i - 1);
      assert path[i - 1 + 1] in c.nbrs[path[i - 1]] && !Withheld(o, f, path[i - 1], path[i - 1 + 1]);
      assert path[i] != path[i - 1] ==> Link(c, path[i - 1], path[i]);
    }
  }

  /**
   In a mesh of at most MAX_TTL + 1 nodes, whatever the topology, the order of arrivals and the retries:
   an announcement that loses nothing and has gone quiet inside its window has taught the key to every
   other node that the peer tables lead to, not counting the origin's own link to the key's owner.
   */
  lemma SmallMeshLearns(c: Config, s: State, o: PeerId, id: MsgId, f: Frame, steps: seq<Step>, path: seq<PeerId>, w: PeerId)
    requires AnnounceRun(c, s, o, id, f, steps) && NothingLost(steps, id) && |c.nodes| <= MAX_TTL as int + 1
    requires w != o && Connects(c, path, o, w) && Avoids(o, f, path)
    requires Air(Run(c, Announced(c, s, o, id, f), steps), id) == multiset{}
    requires KeepsKeys(s, steps, w, f.peer) && Bound(c, s.node) && Injective(c.crypto.hash)
    ensures var s' := Run(c, Announced(c, s, o, id, f), steps);
            w in s'.node && f.peer in s'.node[w].registry.entries && s'.node[w].registry.entries[f.peer] == f.key
  {
    hide Apply, RelaysIn, SendsIn, CallsIn, SeenBy, Copies, FewInv, Bound, Injective, KeepsKeys;
    var s1 := Announced(c, s, o, id, f);
    AnnounceView(c, s, o, id, f);
    FewStart(c, o, f, ViewOf(s1, id));
    FewFlow(c, s1, steps, o, id, f, s.now);
    QuietMeansTold(c, o, f, ViewOf(Run(c, s1, steps), id), path, |path| - 1);
    RecordedMeansLearned(c, s, o, id, f, steps, w);
  }

  // ---- hop order ---------------------------------------------------------------

  /** Links a copy has crossed once it arrives. */
  function Links(p: Packet): int
    requires p.frame.Announce?
  {
    MAX_TTL as int + 1 - p.frame.ttl as int
  }

  /** `w` got the announcement by hop `k`, or a copy is under way that will have crossed at most `k` links. */
  ghost predicate Due(v: View, h: map<PeerId, int>, w: PeerId, k: int) {
    (w in h && h[w] <= k) || exists p :: p in v.air && p.dst == w && p.frame.Announce? && Links(p) <= k
  }

  /** `h` gives the hop at which each node got the announcement; copies in flight are no fewer hops old. */
  ghost predicate OrderedCopies(c: Config, v: View, h: map<PeerId, int>) {
    forall p :: p in v.air ==>
      p.frame.Announce? && p.src in h && p.dst in c.nodes && forall u :: u in h ==> h[u] <= Links(p)
  }

  ghost predicate OrderedTold(c: Config, o: PeerId, f: Frame, v: View, h: map<PeerId, int>)
    requires f.Announce?
  {
    forall u, w :: u in h && Link(c, u, w) && !Withheld(o, f, u, w) && h[u] <= MAX_TTL as int ==> Due(v, h, w, h[u] + 1)
  }

  ghost predicate OrderedInv(c: Config, o: PeerId, f: Frame, v: View, h: map<PeerId, int>) {
    && f.Announce? && h.Keys == v.seen + {o} && h[o] == 0
    && OrderedCopies(c, v, h) && OrderedTold(c, o, f, v, h)
  }

  lemma OrderedStart(c: Config, o: PeerId, f: Frame, v: View)
    requires WellFormed(c) && o in c.nodes && f.Announce? && f.ttl == MAX_TTL
    requires v.air == Copies(o, OriginTargets(c, o, f), f) && v.seen == {}
    ensures OrderedInv(c, o, f, v, map[o := 0])
  {
    hide Copies;
    CopiesAre(o, OriginTargets(c, o, f), f);
    var h: map<PeerId, int> := map[o := 0];
    forall u, w | u in h && Link(c, u, w) && !Withheld(o, f, u, w) ensures Due(v, h, w, 1) {
      assert Packet(o, w, f) in v.air;
    }
  }

  /** Whoever is due stays due when a copy is taken by a node that then has it, no later than the copy says. */
  lemma StillDue(v: View, v': View, h: map<PeerId, int>, h': map<PeerId, int>, taken: Option<Packet>, w: PeerId, k: int)
    requires Due(v, h, w, k)
    requires forall q :: q in v.air && Some(q) != taken ==> q in v'.air
    requires forall u :: u in h ==> u in h' && h'[u] == h[u]
    requires taken.Some? && taken.value.frame.Announce? ==> taken.value.dst in h' && h'[taken.value.dst] <= Links(taken.value)
    ensures Due(v', h', w, k)
  {
  }

  lemma OrderedSame(c: Config, o: PeerId, f: Frame, v: View, v': View, h: map<PeerId, int>, h': map<PeerId, int>, taken: Option<Packet>)
    requires OrderedInv(c, o, f, v, h) && h'.Keys == v'.seen + {o}
    requires forall q :: q in v.air && Some(q) != taken ==> q in v'.air
    requires forall q :: q in v'.air ==> q in v.air
    requires forall u :: u in h ==> u in h' && h'[u] == h[u]
    requires forall u :: u in h' && u !in h ==> h'[u] > MAX_TTL as int
    requires taken.Some? ==> taken.value in v.air && taken.value.dst in h' && h'[taken.value.dst] <= Links(taken.value)
    requires forall q, u :: q in v'.air && u in h' ==> h'[u] <= Links(q)
    ensures OrderedInv(c, o, f, v', h')
  {
    hide Due, Link;
    forall u, w | u in h' && Link(c, u, w) && !Withheld(o, f, u, w) && h'[u] <= MAX_TTL as int ensures Due(v', h', w, h'[u] + 1) {
      StillDue(v, v', h, h', taken, w, h[u] + 1);
    }
  }

  /** The copy taken has crossed no more links than any other in flight. */
  ghost predicate FirstInLine(v: View, p: Packet) {
    p.frame.Announce? ==> forall q :: q in v.air && q.frame.Announce? ==> Links(p) <= Links(q)
  }

  /** The hops after `p.dst` takes `p`. */
  function HopsAfter(h: map<PeerId, int>, p: Packet): map<PeerId, int>
    requires p.frame.Announce?
  {
    if p.dst in h then h else h[p.dst := Links(p)]
  }

  lemma OrderedRelayCopies(c: Config, o: PeerId, f: Frame, v: View, v': View, h: map<PeerId, int>, p: Packet)
    requires WellFormed(c) && OrderedInv(c, o, f, v, h) && Hears(c, v, v', p) && FirstInLine(v, p)
    requires p.dst !in v.seen && p.frame.ttl > 0
    ensures OrderedCopies(c, v', HopsAfter(h, p)) && HopsAfter(h, p).Keys == v'.seen + {o}
    ensures Copies(p.dst, RelayTargets(c, p.dst, p.src), Aged(p.frame, p.frame.ttl - 1)) <= v'.air
  {
    hide Copies, OrderedTold;
    CopiesAre(p.dst, RelayTargets(c, p.dst, p.src), Aged(p.frame, p.frame.ttl - 1));
  }

  /** The relay's peers are due one hop later; the one it heard from has it already. */
  lemma RelayDue(c: Config, v': View, h': map<PeerId, int>, p: Packet, w: PeerId)
    requires p.frame.Announce? && p.frame.ttl > 0 && Link(c, p.dst, w) && p.src in h' && h'[p.src] <= Links(p)
    requires Copies(p.dst, RelayTargets(c, p.dst, p.src), Aged(p.frame, p.frame.ttl - 1)) <= v'.air
    ensures Due(v', h', w, Links(p) + 1)
  {
    var g := Aged(p.frame, p.frame.ttl - 1);
    CopiesAre(p.dst, RelayTargets(c, p.dst, p.src), g);
    if w != p.src { assert Packet(p.dst, w, g) in v'.air; }
  }

  lemma RelayKeepsDue(c: Config, o: PeerId, f: Frame, v: View, v': View, h: map<PeerId, int>, p: Packet, u: PeerId, w: PeerId)
    requires OrderedInv(c, o, f, v, h) && Hears(c, v, v', p) && p.dst !in v.seen && p.frame.ttl > 0
    requires Copies(p.dst, RelayTargets(c, p.dst, p.src), Aged(p.frame, p.frame.ttl - 1)) <= v'.air
    requires var h' := HopsAfter(h, p); u in h' && Link(c, u, w) && !Withheld(o, f, u, w) && h'[u] <= MAX_TTL as int
    ensures var h' := HopsAfter(h, p); Due(v', h', w, h'[u] + 1)
  {
    hide Due, Copies, RelayTargets;
    var h' := HopsAfter(h, p);
    if u in h { StillDue(v, v', h, h', Some(p), w, h[u] + 1); } else { RelayDue(c, v', h', p, w); }
  }

  lemma OrderedRelay(c: Config, o: PeerId, f: Frame, v: View, v': View, h: map<PeerId, int>, p: Packet)
    requires WellFormed(c) && OrderedInv(c, o, f, v, h) && Hears(c, v, v', p) && FirstInLine(v, p)
    requires p.dst !in v.seen && p.frame.ttl > 0
    ensures OrderedInv(c, o, f, v', HopsAfter(h, p))
  {
    OrderedRelayCopies(c, o, f, v, v', h, p);
    hide Due, Link, Copies, FirstInLine, RelayTargets, OrderedCopies, Hears;
    var h' := HopsAfter(h, p);
    forall u, w | u in h' && Link(c, u, w) && !Withheld(o, f, u, w) && h'[u] <= MAX_TTL as int ensures Due(v', h', w, h'[u] + 1) {
      RelayKeepsDue(c, o, f, v, v', h, p, u, w);
    }
  }

  lemma OrderedStep(c: Config, o: PeerId, f: Frame, s: State, step: Step, s': State, id: MsgId, h: map<PeerId, int>)
    returns (h': map<PeerId, int>)
    requires WellFormed(c) && Spreads(c, s, step, s', id) && OrderedInv(c, o, f, ViewOf(s, id), h)
    requires Heralds(ViewOf(s, id), f) && !(step.Lose? && step.id == id)
    requires step.Deliver? && step.id == id ==> FirstInLine(ViewOf(s, id), step.p)
    ensures OrderedInv(c, o, f, ViewOf(s', id), h')
  {
    hide ViewOf, Copies, OrderedTold;
    var v, v' := ViewOf(s, id), ViewOf(s', id);
    if step.Deliver? && step.id == id {
      h' := HopsAfter(h, step.p);
      if step.p.dst !in v.seen && step.p.frame.ttl > 0 { OrderedRelay(c, o, f, v, v', h, step.p); }
      else { OrderedSame(c, o, f, v, v', h, h', Some(step.p)); }
    } else {
      h' := h;
      OrderedSame(c, o, f, v, v', h, h', None);
    }
  }

  /** Copies under `id` are handled least-travelled first. */
  ghost predicate LeastTravelledFirst(c: Config, s: State, steps: seq<Step>, id: MsgId)
    requires CanRun(c, s, steps)
    decreases steps
  {
    steps != [] ==>
      && (steps[0].Deliver? && steps[0].id == id ==> FirstInLine(ViewOf(s, id), steps[0].p))
      && LeastTravelledFirst(c, Apply(c, s, steps[0]), steps[1..], id)
  }

  lemma {:induction false} OrderedFlow(c: Config, s: State, steps: seq<Step>, o: PeerId, id: MsgId, f: Frame, start: Time,
                                       h: map<PeerId, int>) returns (h': map<PeerId, int>)
    requires CanRun(c, s, steps) && Window(s.node, id, start) && start <= s.now
    requires forall st :: st in steps ==> Unforged(st, id)
    requires NothingLost(steps, id) && LeastTravelledFirst(c, s, steps, id) && Run(c, s, steps).now < start + DEDUP_TTL
    requires Heralds(ViewOf(s, id), f) && c.crypto.hash(f.key) == f.peer
    requires WellFormed(c) && OrderedInv(c, o, f, ViewOf(s, id), h)
    ensures OrderedInv(c, o, f, ViewOf(Run(c, s, steps), id), h')
    decreases steps
  {
    h' := h;
    if steps != [] {
      hide Apply, ViewOf, Window, Heralds, OrderedInv, Spreads, FirstInLine;
      var s' := Apply(c, s, steps[0]);
      ClockMonotone(c, s, [steps[0]]);
      ClockMonotone(c, s', steps[1..]);
      assert steps[0] in steps;
      StepSpreads(c, s, steps[0], id, f, start);
      h' := OrderedStep(c, o, f, s, steps[0], s', id, h);
      h' := OrderedFlow(c, s', steps[1..], o, id, f, start, h');
    }
  }

  lemma {:induction false} QuietMeansDue(c: Config, o: PeerId, f: Frame, v: View, h: map<PeerId, int>, path: seq<PeerId>, i: nat)
    requires OrderedInv(c, o, f, v, h) && v.air == multiset{}
    requires IsPath(c, path) && path[0] == o && Avoids(o, f, path) && i < |path| && |path| - 1 <= MAX_TTL as int + 1
    ensures path[i] in h && h[path[i]] <= i
  {
    if i > 0 {
      QuietMeansDue(c, o, f, v, h, path, i - 1);
      assert path[i - 1 + 1] in c.nbrs[path[i - 1]] && !Withheld(o, f, path[i - 1], path[i - 1 + 1]);
      if path[i] != path[i - 1] {
        assert Link(c, path[i - 1], path[i]);
        assert Due(v, h, path[i], h[path[i - 1]] + 1);
      }
    }
  }

  /**
   In a mesh of any size, an announcement that loses nothing, is handled in hop order and has gone quiet
   inside its window has taught the key to every other node within MAX_TTL + 1 links, not counting the
   origin's own link to the key's owner.
   */
  lemma HopOrderLearns(c: Config, s: State, o: PeerId, id: MsgId, f: Frame, steps: seq<Step>, path: seq<PeerId>, w: PeerId)
    requires AnnounceRun(c, s, o, id, f, steps) && NothingLost(steps, id)
    requires LeastTravelledFirst(c, Announced(c, s, o, id, f), steps, id)
    requires w != o && Connects(c, path, o, w) && Avoids(o, f, path) && |path| - 1 <= MAX_TTL as int + 1
    requires Air(Run(c, Announced(c, s, o, id, f), steps), id) == multiset{}
    requires KeepsKeys(s, steps, w, f.peer) && Bound(c, s.node) && Injective(c.crypto.hash)
    ensures var s' := Run(c, Announced(c, s, o, id, f), steps);
            w in s'.node && f.peer in s'.node[w].registry.entries && s'.node[w].registry.entries[f.peer] == f.key
  {
    hide Apply, RelaysIn, SendsIn, CallsIn, SeenBy, Copies, OrderedCopies, OrderedTold, Bound, Injective, KeepsKeys;
    var s1 := Announced(c, s, o, id, f);
    AnnounceView(c, s, o, id, f);
    OrderedStart(c, o, f, ViewOf(s1, id));
    var h := OrderedFlow(c, s1, steps, o, id, f, s.now, map[o := 0]);
    QuietMeansDue(c, o, f, ViewOf(Run(c, s1, steps), id), h, path, |path| - 1);
    RecordedMeansLearned(c, s, o, id, f, steps, w);
  }
}
