/**
 The flood theorems, stated of runs of the whole mesh: other messages, handshakes, retries
 and the passing of time interleave freely with the flood under study.
 */
module MeshTheorems {
  import opened Types
  import opened Wire
  import opened Node
  import opened Mesh
  import opened Flood
  import opened FloodDelivery
  import opened FloodSafety

  /** Nobody has ever used this id. */
  ghost predicate Unused(s: State, id: MsgId) {
    ViewOf(s, id) == View(multiset{}, {}, [], 0, [])
  }

  /** The mesh right after `o` sent `f` to all its peers under `id`. */
  function Launched(c: Config, s: State, o: PeerId, id: MsgId, f: Frame): State
    requires o in c.nbrs && Routable(f) && f.ttl == MAX_TTL
  {
    Apply(c, s, Originate(o, id, f))
  }

  /** `steps` follow the launch, put nothing else under `id` in the air, and end inside its window. */
  ghost predicate FloodRun(c: Config, s: State, o: PeerId, id: MsgId, f: Frame, steps: seq<Step>) {
    && WellFormed(c) && o in c.nodes && Routable(f) && f.ttl == MAX_TTL && Unused(s, id)
    && CanRun(c, Launched(c, s, o, id, f), steps)
    && (forall st :: st in steps ==> Unforged(st, id))
    && Run(c, Launched(c, s, o, id, f), steps).now < s.now + DEDUP_TTL
  }

  lemma LaunchView(c: Config, s: State, o: PeerId, id: MsgId, f: Frame)
    requires WellFormed(c) && o in c.nodes && Routable(f) && f.ttl == MAX_TTL && Unused(s, id)
    ensures ViewOf(Launched(c, s, o, id, f), id) == Start(c, o, f)
    ensures Window(Launched(c, s, o, id, f).node, id, s.now)
    ensures Carried(Start(c, o, f), f)
  {
    hide RelaysIn, SendsIn, CallsIn, Copies;
    var s' := Launched(c, s, o, id, f);
    var targets := OriginTargets(c, o, f);
    LogEvent(s.log, Originated(o, id, |targets|), id);
    assert multiset{} + Copies(o, targets, f) == Copies(o, targets, f);
    CopiesAre(o, targets, f);
    forall u | u in s'.node ensures id !in s'.node[u].routed {
      assert id in s.node[u].routed ==> u in SeenBy(s.node, id);
    }
  }

  /** A flood in the mesh, seen through its id, is a run of moves from the start view. */
  lemma FloodProjects(c: Config, s: State, o: PeerId, id: MsgId, f: Frame, steps: seq<Step>) returns (ms: seq<Move>)
    requires FloodRun(c, s, o, id, f, steps)
    ensures ms == MovesOf(c, Launched(c, s, o, id, f), steps, id)
    ensures CanFlow(c, f.dest, Start(c, o, f), ms)
    ensures ViewOf(Run(c, Launched(c, s, o, id, f), steps), id) == Flow(c, f.dest, Start(c, o, f), ms)
  {
    hide Apply, ViewOf, Possible, Next;
    LaunchView(c, s, o, id, f);
    ms := MovesOf(c, Launched(c, s, o, id, f), steps, id);
    LaunchTime(c, s, o, id, f);
    RunProjects(c, Launched(c, s, o, id, f), steps, id, f, s.now);
  }

  lemma LaunchTime(c: Config, s: State, o: PeerId, id: MsgId, f: Frame)
    requires o in c.nbrs && Routable(f) && f.ttl == MAX_TTL
    ensures Launched(c, s, o, id, f).now == s.now
  {
  }

  // ---- safety ------------------------------------------------------------------

  /**
   In every run: each copy in flight carries the original destination and payload, on a walk
   of neighbour links whose length and the copy's ttl add up to MAX_TTL + 1; the handler ran
   at most once in the whole network, only at the destination and with the payload sent; each
   node relayed at most once; and sends are bounded by the origin's degree and all degrees.
   */
  lemma FloodIsSafe(c: Config, s: State, o: PeerId, id: MsgId, f: Frame, steps: seq<Step>)
    requires FloodRun(c, s, o, id, f, steps)
    ensures var s' := Run(c, Launched(c, s, o, id, f), steps);
            && (forall p :: p in Air(s', id) ==> Routable(p.frame) && p.frame == At(f, p.frame.ttl) && OnWalk(c, o, p))
            && |CallsIn(s'.log, id)| <= 1
            && (forall at, call :: (at, call) in CallsIn(s'.log, id) ==> GenuineCall(c, o, f, at, call))
            && (forall i, j :: 0 <= i < j < |RelaysIn(s'.log, id)| ==> RelaysIn(s'.log, id)[i] != RelaysIn(s'.log, id)[j])
            && SendsIn(s'.log, id) <= |c.nbrs[o]| + DegreeSum(c, c.nodes)
  {
    hide Apply, Next, Possible, RelaysIn, SendsIn, CallsIn, OnWalk, GenuineCall;
    var ms := FloodProjects(c, s, o, id, f, steps);
    var v := Flow(c, f.dest, Start(c, o, f), ms);
    assert v == ViewOf(Run(c, Launched(c, s, o, id, f), steps), id);
    SafeStart(c, o, f);
    SafeFlow(c, o, f, Start(c, o, f), ms);
    DegreesBounded(c, v.relays, c.nodes);
  }

  // ---- delivery ----------------------------------------------------------------

  ghost predicate NothingLost(steps: seq<Step>, id: MsgId) {
    forall st :: st in steps ==> !(st.Lose? && st.id == id)
  }

  /** The destination has recorded the id; for an unsealed frame its handler, if any, has run with the payload. */
  ghost predicate Delivered(c: Config, s: State, id: MsgId, f: Frame)
    requires Routable(f)
  {
    && f.dest in s.node && id in s.node[f.dest].routed
    && (f.Routed? && f.dest in c.handlers ==> exists from :: (f.dest, Call(from, f.payload)) in CallsIn(s.log, id))
  }

  lemma {:induction false} NoDrops(c: Config, s: State, steps: seq<Step>, id: MsgId)
    requires CanRun(c, s, steps) && NothingLost(steps, id)
    ensures Lossless(MovesOf(c, s, steps, id))
    decreases steps
  {
    if steps != [] {
      hide Apply;
      assert steps[0] in steps;
      NoDrops(c, Apply(c, s, steps[0]), steps[1..], id);
    }
  }

  lemma ReachedMeansDelivered(c: Config, s: State, o: PeerId, id: MsgId, f: Frame, steps: seq<Step>, ms: seq<Move>)
    requires FloodRun(c, s, o, id, f, steps)
    requires CanFlow(c, f.dest, Start(c, o, f), ms)
    requires ViewOf(Run(c, Launched(c, s, o, id, f), steps), id) == Flow(c, f.dest, Start(c, o, f), ms)
    requires f.dest in Flow(c, f.dest, Start(c, o, f), ms).seen
    ensures Delivered(c, Run(c, Launched(c, s, o, id, f), steps), id, f)
  {
    hide Apply, Next, Possible, RelaysIn, SendsIn, CallsIn;
    var s' := Run(c, Launched(c, s, o, id, f), steps);
    SafeStart(c, o, f);
    SafeFlow(c, o, f, Start(c, o, f), ms);
    if f.Routed? && f.dest in c.handlers {
      var (at, call) := CallsIn(s'.log, id)[0];
      var path :| Genuine(c, o, f, at, call, path);
      assert (f.dest, Call(path[|path| - 2], f.payload)) in CallsIn(s'.log, id);
    }
  }

  /**
   In a mesh of at most MAX_TTL + 1 nodes, whatever the topology, the order of arrivals and
   the retries: a flood that loses nothing and has gone quiet inside its window has been
   delivered to any other node the peer tables lead to.
   */
  lemma SmallMeshDelivers(c: Config, s: State, o: PeerId, id: MsgId, f: Frame, steps: seq<Step>, path: seq<PeerId>)
    requires FloodRun(c, s, o, id, f, steps) && NothingLost(steps, id)
    requires |c.nodes| <= MAX_TTL as int + 1
    requires f.dest != o && Connects(c, path, o, f.dest)
    requires Air(Run(c, Launched(c, s, o, id, f), steps), id) == multiset{}
    ensures Delivered(c, Run(c, Launched(c, s, o, id, f), steps), id, f)
  {
    hide Apply, Next, Possible, RelaysIn, SendsIn, CallsIn;
    var ms := FloodProjects(c, s, o, id, f, steps);
    NoDrops(c, Launched(c, s, o, id, f), steps, id);
    SmallMeshReaches(c, o, f, ms, path);
    ReachedMeansDelivered(c, s, o, id, f, steps, ms);
  }

  /** Copies under `id` are handled least-travelled first. */
  ghost predicate InHopOrder(c: Config, s: State, steps: seq<Step>, id: MsgId)
    requires CanRun(c, s, steps)
    decreases steps
  {
    steps != [] ==>
      && (steps[0].Deliver? && steps[0].id == id && Routable(steps[0].p.frame) ==>
            forall q :: q in Air(s, id) && Routable(q.frame) ==> q.frame.ttl <= steps[0].p.frame.ttl)
      && InHopOrder(c, Apply(c, s, steps[0]), steps[1..], id)
  }

  lemma {:induction false} HopOrderProjects(c: Config, s: State, steps: seq<Step>, id: MsgId, f: Frame, start: Time)
    requires CanRun(c, s, steps) && Window(s.node, id, start) && start <= s.now
    requires forall st :: st in steps ==> Unforged(st, id)
    requires Carried(ViewOf(s, id), f)
    requires Run(c, s, steps).now < start + DEDUP_TTL
    requires InHopOrder(c, s, steps, id)
    requires CanFlow(c, f.dest, ViewOf(s, id), MovesOf(c, s, steps, id))
    ensures HopOrdered(c, f.dest, ViewOf(s, id), MovesOf(c, s, steps, id))
    decreases steps
  {
    if steps != [] {
      hide Apply, RelaysIn, SendsIn, CallsIn, SeenBy, Window, Next, Possible, EffectOf;
      var s' := Apply(c, s, steps[0]);
      ClockMonotone(c, s, [steps[0]]);
      ClockMonotone(c, s', steps[1..]);
      assert steps[0] in steps;
      StepProjects(c, s, steps[0], id, f, start);
      var ms := MovesOf(c, s, steps, id);
      assert ms[1..] == MovesOf(c, s', steps[1..], id);
      HopOrderProjects(c, s', steps[1..], id, f, start);
    }
  }

  /**
   In a mesh of any size, a flood that loses nothing, handles copies in hop order and has gone
   quiet inside its window has been delivered to every other node within MAX_TTL + 1 links.
   */
  lemma HopOrderDelivers(c: Config, s: State, o: PeerId, id: MsgId, f: Frame, steps: seq<Step>, path: seq<PeerId>)
    requires FloodRun(c, s, o, id, f, steps) && NothingLost(steps, id)
    requires InHopOrder(c, Launched(c, s, o, id, f), steps, id)
    requires f.dest != o && Connects(c, path, o, f.dest) && |path| - 1 <= MAX_TTL as int + 1
    requires Air(Run(c, Launched(c, s, o, id, f), steps), id) == multiset{}
    ensures Delivered(c, Run(c, Launched(c, s, o, id, f), steps), id, f)
  {
    hide Apply, Next, Possible, RelaysIn, SendsIn, CallsIn;
    var s1 := Launched(c, s, o, id, f);
    var ms := FloodProjects(c, s, o, id, f, steps);
    NoDrops(c, s1, steps, id);
    LaunchView(c, s, o, id, f);
    LaunchTime(c, s, o, id, f);
    HopOrderProjects(c, s1, steps, id, f, s.now);
    HopOrderReaches(c, o, f, ms, path);
    ReachedMeansDelivered(c, s, o, id, f, steps, ms);
  }
}
