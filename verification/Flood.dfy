/**
 One routed message seen on its own. Inside one deduplication window the mesh, whatever else
 it is doing, moves this view of itself by a handful of moves; the mesh is proved to project
 onto them.
 */
module Flood {
  import opened Types
  import opened Wire
  import opened Node
  import opened Mesh
  import Dedup
  import KeyRegistry

  /** The copies in flight, who has recorded the id, who relayed it in what order, sends made, handler calls made. */
  datatype View = View(
    air: multiset<Packet>,
    seen: set<PeerId>,
    relays: seq<PeerId>,
    sends: nat,
    calls: seq<(PeerId, Call)>)

  datatype Move =
    | Idle
    | Copy(p: Packet)
    | Drop(p: Packet)
    | Take(p: Packet, call: Option<Call>)

  /** Frames addressed to one destination. */
  predicate Routable(f: Frame) {
    f.Routed? || f.Sealed?
  }

  function At(f: Frame, ttl: byte): Frame
    requires Routable(f)
  {
    f.(ttl := ttl)
  }

  /** The handler call that arrival of `p` may make at the destination. */
  ghost predicate CallFits(c: Config, p: Packet, call: Option<Call>) {
    && (p.frame.Routed? ==> call == Some(Call(p.src, p.frame.payload)))
    && (p.frame.Sealed? && call.Some? ==>
          call.value.from == p.frame.sender
          && exists key :: c.crypto.unseal(p.dst, key, p.frame.message) == Some(call.value.data))
  }

  ghost predicate Possible(c: Config, d: PeerId, v: View, m: Move) {
    match m
    case Idle => true
    case Copy(p) => p in v.air
    case Drop(p) => p in v.air
    case Take(p, call) =>
      && p in v.air && p.dst in c.nbrs
      && if p.dst == d && d !in v.seen && d in c.handlers then CallFits(c, p, call) else call.None?
  }

  function Next(c: Config, d: PeerId, v: View, m: Move): View
    requires m.Take? ==> m.p.dst in c.nbrs && Routable(m.p.frame)
  {
    match m
    case Idle => v
    case Copy(p) => v.(air := v.air + multiset{p})
    case Drop(p) => v.(air := v.air - multiset{p})
    case Take(p, call) =>
      var rest := v.(air := v.air - multiset{p});
      if p.dst == d then
        rest.(seen := v.seen + {d}, calls := v.calls + (if call.Some? then [(d, call.value)] else []))
      else if p.frame.ttl == 0 || p.dst in v.seen then rest
      else
        var targets := RelayTargets(c, p.dst, p.src);
        View(rest.air + Copies(p.dst, targets, At(p.frame, Clamp(p.frame.ttl) - 1)),
             v.seen + {p.dst}, v.relays + [p.dst], v.sends + |targets|, v.calls)
  }

  // ---- projecting a mesh state -------------------------------------------------

  function RelaysIn(log: seq<Event>, id: MsgId): seq<PeerId> {
    if log == [] then []
    else
      var e := log[|log| - 1];
      RelaysIn(log[..|log| - 1], id) + (if e.Relayed? && e.id == id then [e.at] else [])
  }

  function SendsIn(log: seq<Event>, id: MsgId): nat {
    if log == [] then 0
    else
      var e := log[|log| - 1];
      SendsIn(log[..|log| - 1], id) + (if !e.Called? && e.id == id then e.fanout else 0)
  }

  function CallsIn(log: seq<Event>, id: MsgId): seq<(PeerId, Call)> {
    if log == [] then []
    else
      var e := log[|log| - 1];
      CallsIn(log[..|log| - 1], id) + (if e.Called? && e.id == id then [(e.at, e.call)] else [])
  }

  function SeenBy(node: map<PeerId, NodeState>, id: MsgId): set<PeerId> {
    set u | u in node && id in node[u].routed
  }

  function ViewOf(s: State, id: MsgId): View {
    View(Air(s, id), SeenBy(s.node, id), RelaysIn(s.log, id), SendsIn(s.log, id), CallsIn(s.log, id))
  }

  /** The id was first sent at `start`; whoever recorded it did so since. */
  ghost predicate Window(node: map<PeerId, NodeState>, id: MsgId, start: Time) {
    forall u :: u in node && id in node[u].routed ==> start <= node[u].routed[id]
  }

  /** Every copy in flight is the original frame up to its ttl, which never exceeds the maximum. */
  ghost predicate Carried(v: View, f: Frame) {
    Routable(f) && forall p :: p in v.air ==> Routable(p.frame) && p.frame == At(f, p.frame.ttl) && p.frame.ttl <= MAX_TTL
  }

  ghost function MoveOf(c: Config, s: State, step: Step, id: MsgId): Move
    requires Enabled(c, s, step)
  {
    match step
    case Deliver(id', p) => if id' == id then Take(p, EffectOf(c, s, id, p).call) else Idle
    case Duplicate(id', p) => if id' == id then Copy(p) else Idle
    case Lose(id', p) => if id' == id then Drop(p) else Idle
    case _ => Idle
  }

  /** Nobody else puts frames under this id in the air: ids are fresh. */
  predicate Unforged(step: Step, id: MsgId) {
    !((step.Originate? || step.Post?) && step.id == id)
  }

  /** What one event adds to the projected log. */
  lemma LogEvent(log: seq<Event>, e: Event, id: MsgId)
    ensures RelaysIn(log + [e], id) == RelaysIn(log, id) + (if e.Relayed? && e.id == id then [e.at] else [])
    ensures SendsIn(log + [e], id) == SendsIn(log, id) + (if !e.Called? && e.id == id then e.fanout else 0)
    ensures CallsIn(log + [e], id) == CallsIn(log, id) + (if e.Called? && e.id == id then [(e.at, e.call)] else [])
  {
  }

  /** The cache check of any id keeps every entry that is still inside its window. */
  lemma CheckKeeps(m: map<MsgId, Time>, id: MsgId, other: MsgId, now: Time, start: Time)
    requires now < start + DEDUP_TTL && (id in m ==> start <= m[id])
    ensures var m' := Dedup.Checked(m, other, now, DEDUP_TTL);
            (id in m' <==> id in m || id == other)
            && (id in m ==> m'[id] == m[id])
            && (id in m' && id !in m ==> m'[id] == now)
            && (Dedup.IsDuplicate(m, id, now, DEDUP_TTL) <==> id in m)
  {
  }

  /** Who has recorded `id` after node `u` moved to state `st`. */
  lemma SeenAfter(node: map<PeerId, NodeState>, u: PeerId, st: NodeState, id: MsgId)
    requires u in node
    ensures SeenBy(node[u := st], id)
         == if id in st.routed then SeenBy(node, id) + {u} else SeenBy(node, id) - {u}
  {
  }

  lemma SeenIff(node: map<PeerId, NodeState>, u: PeerId, id: MsgId)
    requires u in node
    ensures u in SeenBy(node, id) <==> id in node[u].routed
    ensures if u in SeenBy(node, id) then SeenBy(node, id) + {u} == SeenBy(node, id) else SeenBy(node, id) - {u} == SeenBy(node, id)
  {
  }

  /** What handling a copy appends to the log, per id. */
  lemma DeliverLog(c: Config, s: State, id: MsgId, p: Packet, watched: MsgId)
    requires Enabled(c, s, Deliver(id, p))
    ensures var e := EffectOf(c, s, id, p); var log := Apply(c, s, Deliver(id, p)).log;
            && RelaysIn(log, watched) == RelaysIn(s.log, watched) + (if e.relay.Some? && id == watched then [p.dst] else [])
            && SendsIn(log, watched) == SendsIn(s.log, watched) + (if e.relay.Some? && id == watched then |RelayTargets(c, p.dst, p.src)| else 0)
            && CallsIn(log, watched) == CallsIn(s.log, watched) + (if e.call.Some? && id == watched then [(p.dst, e.call.value)] else [])
  {
    hide Dispatch, RelaysIn, SendsIn, CallsIn;
    var e := EffectOf(c, s, id, p);
    var log := s.log;
    if e.relay.Some? {
      LogEvent(log, Relayed(p.dst, id, |RelayTargets(c, p.dst, p.src)|), watched);
      log := log + [Relayed(p.dst, id, |RelayTargets(c, p.dst, p.src)|)];
    }
    if e.call.Some? {
      LogEvent(log, Called(p.dst, id, e.call.value), watched);
      log := log + [Called(p.dst, id, e.call.value)];
    }
    assert log == s.log + EventsOf(c, s, id, p);
  }

  /** Handling any frame changes a node's routed entries by at most one check. */
  lemma DispatchRouted(c: Config, s: State, id: MsgId, p: Packet)
    requires p.dst in s.node
    ensures var m, m' := s.node[p.dst].routed, EffectOf(c, s, id, p).node.routed;
            m' == m || m' == Dedup.Checked(m, id, s.now, DEDUP_TTL)
  {
  }

  /** `m` is how the view of `id` moves when the mesh goes from `s` to `s'`, still inside the window. */
  ghost predicate Moves(c: Config, d: PeerId, s: State, m: Move, s': State, id: MsgId, start: Time) {
    && Possible(c, d, ViewOf(s, id), m)
    && (m.Take? ==> Routable(m.p.frame))
    && ViewOf(s', id) == Next(c, d, ViewOf(s, id), m)
    && Window(s'.node, id, start)
  }

  /** Registry changes do not show in the view. */
  lemma RegistryStep(c: Config, d: PeerId, s: State, step: Step, id: MsgId, start: Time)
    requires Enabled(c, s, step) && (step.Handshake? || step.Forget?) && Window(s.node, id, start)
    ensures Moves(c, d, s, Idle, Apply(c, s, step), id, start)
  {
    hide KeyRegistry.Apply, RelaysIn, SendsIn, CallsIn, SeenBy, CallFits, EffectOf, Relays, EventsOf;
    SeenIff(s.node, step.u, id);
    SeenAfter(s.node, step.u, Apply(c, s, step).node[step.u], id);
  }

  /** A retry, a loss or a posted frame changes only the copies in flight under its own id. */
  lemma AirChanged(c: Config, s: State, step: Step, id: MsgId)
    requires Enabled(c, s, step) && (step.Duplicate? || step.Lose? || step.Post?)
    ensures var s', p := Apply(c, s, step), multiset{step.p};
            && s'.node == s.node && s'.log == s.log
            && Air(s', id) == if step.id != id then Air(s, id) else if step.Lose? then Air(s, id) - p else Air(s, id) + p
  {
  }

  lemma IdleMoves(c: Config, d: PeerId, s: State, s': State, id: MsgId, start: Time)
    requires ViewOf(s', id) == ViewOf(s, id) && Window(s'.node, id, start)
    ensures Moves(c, d, s, Idle, s', id, start)
  {
  }

  /** Nor do ticks; a retry or a loss of a copy is a move of its own. */
  lemma AirStep(c: Config, d: PeerId, s: State, step: Step, id: MsgId, start: Time)
    requires Enabled(c, s, step) && Unforged(step, id) && Window(s.node, id, start)
    requires step.Duplicate? || step.Lose? || step.Post? || step.Tick?
    ensures Moves(c, d, s, MoveOf(c, s, step, id), Apply(c, s, step), id, start)
  {
    hide Apply, RelaysIn, SendsIn, CallsIn, SeenBy, Window, CallFits, EffectOf;
    if step.Tick? {
      hide Moves;
      TickKeeps(c, s, step.seconds);
      IdleMoves(c, d, s, Apply(c, s, step), id, start);
    } else {
      AirChanged(c, s, step, id);
      if step.id != id {
        hide Moves;
        IdleMoves(c, d, s, Apply(c, s, step), id, start);
      }
    }
  }

  lemma TickKeeps(c: Config, s: State, seconds: nat)
    ensures var s' := Apply(c, s, Tick(seconds)); s'.node == s.node && s'.air == s.air && s'.log == s.log
  {
  }

  /** Nor do other messages' origins. */
  lemma OriginStep(c: Config, d: PeerId, s: State, step: Step, id: MsgId, start: Time)
    requires Enabled(c, s, step) && Unforged(step, id) && Window(s.node, id, start)
    requires step.Originate?
    ensures Moves(c, d, s, MoveOf(c, s, step, id), Apply(c, s, step), id, start)
  {
    hide RelaysIn, SendsIn, CallsIn, SeenBy, Window, CallFits, EffectOf, Relays, EventsOf, Copies;
    LogEvent(s.log, Originated(step.o, step.id, |OriginTargets(c, step.o, step.frame)|), id);
    assert RelaysIn(s.log, id) + [] == RelaysIn(s.log, id);
    assert CallsIn(s.log, id) + [] == CallsIn(s.log, id);
  }

  /** Handling a copy of some other message leaves the view of `id` alone. */
  lemma ForeignCopy(c: Config, d: PeerId, s: State, other: MsgId, p: Packet, id: MsgId, start: Time)
    requires Enabled(c, s, Deliver(other, p)) && other != id && Window(s.node, id, start)
    requires start <= s.now < start + DEDUP_TTL
    ensures Moves(c, d, s, Idle, Apply(c, s, Deliver(other, p)), id, start)
  {
    hide Dispatch, RelaysIn, SendsIn, CallsIn, SeenBy, Relays, CallFits;
    assert RelaysIn(s.log, id) + [] == RelaysIn(s.log, id);
    assert CallsIn(s.log, id) + [] == CallsIn(s.log, id);
    SeenIff(s.node, p.dst, id);
    DeliverLog(c, s, other, p, id);
    DispatchRouted(c, s, other, p);
    CheckKeeps(s.node[p.dst].routed, id, other, s.now, start);
    SeenAfter(s.node, p.dst, EffectOf(c, s, other, p).node, id);
  }

  /** What the receiver does with a copy under `id`, inside the window. */
  lemma EffectInWindow(c: Config, s: State, p: Packet, id: MsgId, f: Frame, start: Time)
    requires p.dst in s.node && Window(s.node, id, start)
    requires start <= s.now < start + DEDUP_TTL
    requires Routable(f) && Routable(p.frame) && p.frame == At(f, p.frame.ttl)
    ensures var e, st := EffectOf(c, s, id, p), s.node[p.dst];
            && (id in e.node.routed ==> start <= e.node.routed[id])
            && (p.dst == f.dest || p.frame.ttl > 0 ==> id in e.node.routed)
            && (p.dst != f.dest && p.frame.ttl == 0 ==> e == Effect(st, None, None))
            && (p.dst == f.dest || id in st.routed ==> e.relay.None?)
            && (p.dst != f.dest && p.frame.ttl > 0 && id !in st.routed ==> e.relay == Some(At(p.frame, Clamp(p.frame.ttl) - 1)))
            && if p.dst == f.dest && id !in st.routed && p.dst in c.handlers then CallFits(c, p, e.call) else e.call.None?
  {
  }

  /** The view after handling a copy under `id`, in terms of the receiver's effect. */
  lemma TakeView(c: Config, s: State, p: Packet, id: MsgId)
    requires Enabled(c, s, Deliver(id, p))
    ensures var e, v := EffectOf(c, s, id, p), ViewOf(s, id);
            ViewOf(Apply(c, s, Deliver(id, p)), id) == View(
              v.air - multiset{p} + Relays(c, s, id, p),
              if id in e.node.routed then v.seen + {p.dst} else v.seen - {p.dst},
              v.relays + (if e.relay.Some? then [p.dst] else []),
              v.sends + (if e.relay.Some? then |RelayTargets(c, p.dst, p.src)| else 0),
              v.calls + (if e.call.Some? then [(p.dst, e.call.value)] else []))
  {
    hide Dispatch, RelaysIn, SendsIn, CallsIn, SeenBy, Relays, RelayTargets;
    DeliverLog(c, s, id, p, id);
    SeenAfter(s.node, p.dst, EffectOf(c, s, id, p).node, id);
  }

  lemma WindowKept(c: Config, s: State, p: Packet, id: MsgId, start: Time)
    requires Enabled(c, s, Deliver(id, p)) && Window(s.node, id, start)
    requires id in EffectOf(c, s, id, p).node.routed ==> start <= EffectOf(c, s, id, p).node.routed[id]
    ensures Window(Apply(c, s, Deliver(id, p)).node, id, start)
  {
  }

  /** Handling a copy under `id` is the move that takes it. */
  lemma TakeProjects(c: Config, s: State, p: Packet, id: MsgId, f: Frame, start: Time)
    requires Enabled(c, s, Deliver(id, p)) && Window(s.node, id, start)
    requires start <= s.now < start + DEDUP_TTL
    requires Carried(ViewOf(s, id), f)
    ensures Moves(c, f.dest, s, MoveOf(c, s, Deliver(id, p), id), Apply(c, s, Deliver(id, p)), id, start)
  {
    hide Dispatch, EffectOf, Apply, SeenBy, RelaysIn, SendsIn, CallsIn, Window, CallFits, RelayTargets, Copies, Next;
    var v, m, e := ViewOf(s, id), MoveOf(c, s, Deliver(id, p), id), EffectOf(c, s, id, p);
    assert p in v.air;
    TakeView(c, s, p, id);
    EffectInWindow(c, s, p, id, f, start);
    WindowKept(c, s, p, id, start);
    SeenIff(s.node, p.dst, id);
    NextTake(c, f.dest, v, p, e.call);
    assert v.air - multiset{p} + multiset{} == v.air - multiset{p};
    assert v.relays + [] == v.relays && v.calls + [] == v.calls;
  }

  /** The three ways of taking a copy. */
  lemma NextTake(c: Config, d: PeerId, v: View, p: Packet, call: Option<Call>)
    requires p.dst in c.nbrs && Routable(p.frame)
    ensures var rest, targets := v.air - multiset{p}, RelayTargets(c, p.dst, p.src);
            var v' := Next(c, d, v, Take(p, call));
            if p.dst == d then
              v' == View(rest, v.seen + {p.dst}, v.relays, v.sends, v.calls + (if call.Some? then [(p.dst, call.value)] else []))
            else if p.frame.ttl == 0 || p.dst in v.seen then
              v' == View(rest, v.seen, v.relays, v.sends, v.calls)
            else
              v' == View(rest + Copies(p.dst, targets, At(p.frame, Clamp(p.frame.ttl) - 1)),
                         v.seen + {p.dst}, v.relays + [p.dst], v.sends + |targets|, v.calls)
  {
  }

  /** Every step of the mesh is a move of the view, or leaves it alone. */
  lemma StepProjects(c: Config, s: State, step: Step, id: MsgId, f: Frame, start: Time)
    requires Enabled(c, s, step) && Unforged(step, id) && Window(s.node, id, start)
    requires start <= s.now < start + DEDUP_TTL
    requires Carried(ViewOf(s, id), f)
    ensures Moves(c, f.dest, s, MoveOf(c, s, step, id), Apply(c, s, step), id, start)
    ensures Carried(ViewOf(Apply(c, s, step), id), f)
  {
    hide Apply, ViewOf, Window, Possible, EffectOf, Next;
    match step {
      case Deliver(id', p) =>
        if id' == id { TakeProjects(c, s, p, id, f, start); }
        else { ForeignCopy(c, f.dest, s, id', p, id, start); }
      case Handshake(_, _) => RegistryStep(c, f.dest, s, step, id, start);
      case Forget(_, _) => RegistryStep(c, f.dest, s, step, id, start);
      case Originate(_, _, _) => OriginStep(c, f.dest, s, step, id, start);
      case _ => AirStep(c, f.dest, s, step, id, start);
    }
    CarriedNext(c, ViewOf(s, id), f, MoveOf(c, s, step, id));
  }

  // ---- runs --------------------------------------------------------------------

  ghost predicate CanFlow(c: Config, d: PeerId, v: View, ms: seq<Move>)
    decreases ms
  {
    ms != [] ==>
      && Possible(c, d, v, ms[0])
      && (ms[0].Take? ==> Routable(ms[0].p.frame))
      && CanFlow(c, d, Next(c, d, v, ms[0]), ms[1..])
  }

  function Flow(c: Config, d: PeerId, v: View, ms: seq<Move>): View
    requires CanFlow(c, d, v, ms)
    decreases ms
  {
    if ms == [] then v else Flow(c, d, Next(c, d, v, ms[0]), ms[1..])
  }

  /** The view right after the origin has sent the frame to all its peers. */
  function Start(c: Config, o: PeerId, f: Frame): View
    requires o in c.nbrs
  {
    var targets := OriginTargets(c, o, f);
    View(Copies(o, targets, f), {}, [], |targets|, [])
  }

  lemma CarriedNext(c: Config, v: View, f: Frame, m: Move)
    requires Carried(v, f) && Possible(c, f.dest, v, m)
    ensures Carried(Next(c, f.dest, v, m), f)
  {
  }

  ghost function MovesOf(c: Config, s: State, steps: seq<Step>, id: MsgId): seq<Move>
    requires CanRun(c, s, steps)
    decreases steps
  {
    if steps == [] then []
    else [MoveOf(c, s, steps[0], id)] + MovesOf(c, Apply(c, s, steps[0]), steps[1..], id)
  }

  /**
   The projection. A run of the whole mesh that stays inside the window of `id`, seen through
   `id` alone, is a run of moves.
   */
  lemma {:induction false} RunProjects(c: Config, s: State, steps: seq<Step>, id: MsgId, f: Frame, start: Time)
    requires CanRun(c, s, steps) && Window(s.node, id, start) && start <= s.now
    requires forall st :: st in steps ==> Unforged(st, id)
    requires Carried(ViewOf(s, id), f)
    requires Run(c, s, steps).now < start + DEDUP_TTL
    ensures var ms := MovesOf(c, s, steps, id);
            CanFlow(c, f.dest, ViewOf(s, id), ms)
            && ViewOf(Run(c, s, steps), id) == Flow(c, f.dest, ViewOf(s, id), ms)
    decreases steps
  {
    if steps != [] {
      hide Apply, ViewOf, Window, Possible, Next, MoveOf;
      var s' := Apply(c, s, steps[0]);
      ClockMonotone(c, s, [steps[0]]);
      ClockMonotone(c, s', steps[1..]);
      assert steps[0] in steps;
      StepProjects(c, s, steps[0], id, f, start);
      RunProjects(c, s', steps[1..], id, f, start);
      var ms := MovesOf(c, s, steps, id);
      assert ms[1..] == MovesOf(c, s', steps[1..], id);
    }
  }
}
