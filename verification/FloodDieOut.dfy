/**
 Floods die out. Whatever the deduplication caches hold or have forgotten, each copy handled
 lowers a measure of the copies in flight: every relay makes at most D copies, each with one
 ttl less. Routed, sealed and key-announcement frames alike.
 */
module FloodDieOut {
  import opened Types
  import opened Wire
  import opened Node
  import opened Mesh
  import opened FloodDelivery

  function Pow(b: nat, e: nat): nat {
    if e == 0 then 1 else b * Pow(b, e - 1)
  }

  lemma {:induction false} PowPositive(b: nat, e: nat)
    requires b >= 1
    ensures Pow(b, e) >= 1
  {
    if e > 0 {
      PowPositive(b, e - 1);
      ProductAtLeastOne(b, Pow(b, e - 1));
    }
  }

  lemma ProductAtLeastOne(a: nat, b: nat)
    requires a >= 1 && b >= 1
    ensures a * b >= 1
  {
  }

  lemma {:induction false} PowMonotone(b: nat, d: nat, e: nat)
    requires b >= 1 && d <= e
    ensures Pow(b, d) <= Pow(b, e)
  {
    if d < e {
      PowMonotone(b, d, e - 1);
      PowPositive(b, e - 1);
      assert b * Pow(b, e - 1) >= 1 * Pow(b, e - 1);
    }
  }

  /** Relays still ahead of a copy, counting its own arrival. */
  function Height(f: Frame): nat {
    if f.Direct? then 0 else Clamp(f.ttl) as nat + 1
  }

  /** A copy counts for everything it may still cause when each relay makes at most `degree` copies. */
  function Weight(degree: nat, p: Packet): nat {
    Pow(degree + 1, Height(p.frame))
  }

  ghost function Measure(degree: nat, air: multiset<Packet>): nat
    decreases |air|
  {
    if air == multiset{} then 0
    else
      var p :| p in air;
      Weight(degree, p) + Measure(degree, air - multiset{p})
  }

  lemma {:induction false} MeasureWithout(degree: nat, air: multiset<Packet>, p: Packet)
    requires p in air
    ensures Measure(degree, air) == Weight(degree, p) + Measure(degree, air - multiset{p})
    decreases |air|
  {
    var q :| q in air && Measure(degree, air) == Weight(degree, q) + Measure(degree, air - multiset{q});
    if q != p {
      MeasureWithout(degree, air - multiset{q}, p);
      MeasureWithout(degree, air - multiset{p}, q);
      assert air - multiset{q} - multiset{p} == air - multiset{p} - multiset{q};
    }
  }

  lemma MeasureWith(degree: nat, air: multiset<Packet>, p: Packet)
    ensures Measure(degree, air + multiset{p}) == Measure(degree, air) + Weight(degree, p)
  {
    MeasureWithout(degree, air + multiset{p}, p);
    assert air + multiset{p} - multiset{p} == air;
  }

  lemma {:induction false} MeasureSum(degree: nat, a: multiset<Packet>, b: multiset<Packet>)
    ensures Measure(degree, a + b) == Measure(degree, a) + Measure(degree, b)
    decreases |b|
  {
    if b == multiset{} {
      assert a + b == a;
    } else {
      var p :| p in b;
      MeasureSum(degree, a, b - multiset{p});
      MeasureWithout(degree, b, p);
      MeasureWith(degree, a + (b - multiset{p}), p);
      assert a + (b - multiset{p}) + multiset{p} == a + b;
    }
  }

  /** Copies of one frame to distinct targets all weigh the same. */
  lemma {:induction false} MeasureCopies(degree: nat, u: PeerId, targets: set<PeerId>, f: Frame)
    ensures Measure(degree, Copies(u, targets, f)) == |targets| * Pow(degree + 1, Height(f))
    decreases |targets|
  {
    if targets != {} {
      var v :| v in targets;
      var p := Packet(u, v, f);
      MeasureCopies(degree, u, targets - {v}, f);
      assert Copies(u, targets, f) == Copies(u, targets - {v}, f) + multiset{p};
      MeasureWith(degree, Copies(u, targets - {v}, f), p);
      assert (|targets| - 1) * Pow(degree + 1, Height(f)) + Pow(degree + 1, Height(f)) == |targets| * Pow(degree + 1, Height(f));
    }
  }

  ghost predicate DegreeAtMost(c: Config, degree: nat) {
    forall u :: u in c.nbrs ==> |c.nbrs[u]| <= degree
  }

  /** A relayed frame stands one lower than the frame it was relayed from. */
  lemma RelayLower(c: Config, s: State, id: MsgId, p: Packet)
    requires p.dst in s.node
    ensures EffectOf(c, s, id, p).relay.Some? ==> Height(EffectOf(c, s, id, p).relay.value) < Height(p.frame)
  {
  }

  /** The copies one relay makes weigh less than the copy that caused them. */
  lemma RelaysLighter(c: Config, s: State, id: MsgId, p: Packet, degree: nat)
    requires p.dst in s.node && p.dst in c.nbrs && DegreeAtMost(c, degree)
    ensures Measure(degree, Relays(c, s, id, p)) + 1 <= Weight(degree, p)
  {
    hide Dispatch;
    PowPositive(degree + 1, Height(p.frame));
    match EffectOf(c, s, id, p).relay
    case None =>
    case Some(f) =>
      RelayLower(c, s, id, p);
      var targets := RelayTargets(c, p.dst, p.src);
      SubsetSize(targets, c.nbrs[p.dst]);
      MeasureCopies(degree, p.dst, targets, f);
      Fanout(|targets|, degree, Height(f), Height(p.frame));
  }

  lemma Fanout(n: nat, degree: nat, low: nat, high: nat)
    requires n <= degree && low < high
    ensures n * Pow(degree + 1, low) + 1 <= Pow(degree + 1, high)
  {
    var w := Pow(degree + 1, low);
    PowPositive(degree + 1, low);
    PowMonotone(degree + 1, low + 1, high);
    assert n * w <= degree * w;
    assert (degree + 1) * w == degree * w + w;
  }

  // ---- whole runs --------------------------------------------------------------

  /** The most a step can add under `id`: a retry or a posted frame one full-height copy, an origin one per peer. */
  function Allowance(degree: nat, step: Step, id: MsgId): nat {
    var full := Pow(degree + 1, MAX_TTL as nat + 1);
    if step.Originate? && step.id == id then degree * full
    else if (step.Duplicate? || step.Post?) && step.id == id then full
    else 0
  }

  function Allowances(degree: nat, steps: seq<Step>, id: MsgId): nat {
    if steps == [] then 0 else Allowance(degree, steps[0], id) + Allowances(degree, steps[1..], id)
  }

  /** 1 when the step handles or loses a copy under `id`. */
  function Consumes(step: Step, id: MsgId): nat {
    if (step.Deliver? || step.Lose?) && step.id == id then 1 else 0
  }

  function Consumed(steps: seq<Step>, id: MsgId): nat {
    if steps == [] then 0 else Consumes(steps[0], id) + Consumed(steps[1..], id)
  }

  lemma StepBounded(c: Config, s: State, step: Step, id: MsgId, degree: nat)
    requires Enabled(c, s, step) && DegreeAtMost(c, degree)
    ensures Measure(degree, Air(Apply(c, s, step), id)) + Consumes(step, id)
         <= Measure(degree, Air(s, id)) + Allowance(degree, step, id)
  {
    hide Apply, Measure, Weight, Relays, OriginTargets, Copies, DegreeAtMost;
    var air := Air(s, id);
    StepAir(c, s, step, id);
    match step
    case Originate(o, id', f) => if id' == id { OriginBounded(c, o, f, air, degree); }
    case Deliver(id', p) =>
      if id' == id {
        MeasureWithout(degree, air, p);
        MeasureSum(degree, air - multiset{p}, Relays(c, s, id, p));
        RelaysLighter(c, s, id, p, degree);
      }
    case Duplicate(id', p) => if id' == id { AddBounded(degree, air, p); }
    case Post(id', p) => if id' == id { AddBounded(degree, air, p); }
    case Lose(id', p) =>
      if id' == id {
        MeasureWithout(degree, air, p);
        WeightPositive(degree, p);
      }
    case _ =>
  }

  /** How a step changes the copies in flight under `id`. */
  lemma StepAir(c: Config, s: State, step: Step, id: MsgId)
    requires Enabled(c, s, step)
    ensures var air, air' := Air(s, id), Air(Apply(c, s, step), id);
            match step
            case Originate(o, id', f) => air' == if id' == id then air + Copies(o, OriginTargets(c, o, f), f) else air
            case Deliver(id', p) => air' == if id' == id then air - multiset{p} + Relays(c, s, id, p) else air
            case Duplicate(id', p) => air' == if id' == id then air + multiset{p} else air
            case Post(id', p) => air' == if id' == id then air + multiset{p} else air
            case Lose(id', p) => air' == if id' == id then air - multiset{p} else air
            case _ => air' == air
  {
    hide Dispatch, Copies, Relays, EventsOf, OriginTargets;
  }

  lemma WeightPositive(degree: nat, p: Packet)
    ensures Weight(degree, p) >= 1
  {
    PowPositive(degree + 1, Height(p.frame));
  }

  lemma OriginBounded(c: Config, o: PeerId, f: Frame, air: multiset<Packet>, degree: nat)
    requires o in c.nbrs && DegreeAtMost(c, degree) && !f.Direct? && f.ttl == MAX_TTL
    ensures Measure(degree, air + Copies(o, OriginTargets(c, o, f), f))
         <= Measure(degree, air) + degree * Pow(degree + 1, MAX_TTL as nat + 1)
  {
    hide Measure, Copies, Pow;
    var targets := OriginTargets(c, o, f);
    MeasureSum(degree, air, Copies(o, targets, f));
    MeasureCopies(degree, o, targets, f);
    SubsetSize(targets, c.nbrs[o]);
    ScaleMonotone(|targets|, degree, Pow(degree + 1, Height(f)));
  }

  lemma ScaleMonotone(a: nat, b: nat, w: nat)
    requires a <= b
    ensures a * w <= b * w
  {
  }

  lemma AddBounded(degree: nat, air: multiset<Packet>, p: Packet)
    ensures Measure(degree, air + multiset{p}) <= Measure(degree, air) + Pow(degree + 1, MAX_TTL as nat + 1)
  {
    MeasureWith(degree, air, p);
    PowMonotone(degree + 1, Height(p.frame), MAX_TTL as nat + 1);
  }

  /**
   Every flood dies out. In any run the copies handled or lost under an id, plus the measure
   of those still in flight, never exceed the measure at the start plus what origins, retries
   and posted frames put in. Time may pass between any two steps, so cache entries may expire
   whenever they like.
   */
  lemma {:induction false} FloodsDieOut(c: Config, s: State, steps: seq<Step>, id: MsgId, degree: nat)
    requires CanRun(c, s, steps) && DegreeAtMost(c, degree)
    ensures Consumed(steps, id) + Measure(degree, Air(Run(c, s, steps), id))
         <= Measure(degree, Air(s, id)) + Allowances(degree, steps, id)
    decreases steps
  {
    if steps != [] {
      hide Apply, Measure, Allowance;
      StepBounded(c, s, steps[0], id, degree);
      FloodsDieOut(c, Apply(c, s, steps[0]), steps[1..], id, degree);
    }
  }
}
