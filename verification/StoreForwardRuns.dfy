/**
 Particular runs of the store-and-forward model: a drain nothing interrupts agrees with the queue
 object's own drain; overlapping drains can reorder a queue; and pushes during drains can take a
 queue past any bound.
 */
module StoreForwardRuns {
  import opened Types
  import opened StoreForward
  import opened StoreForwardOrder

  // ---- runs of a single lane ---------------------------------------------------

  predicate LaneCanRun(c: Config, l: Lane, now: Time, steps: seq<LaneStep>)
    decreases steps
  {
    steps != [] ==> LaneEnabled(l, steps[0]) && LaneCanRun(c, LaneApply(c, l, now, steps[0]), now, steps[1..])
  }

  function LaneRun(c: Config, l: Lane, now: Time, steps: seq<LaneStep>): Lane
    requires LaneCanRun(c, l, now, steps)
    decreases steps
  {
    if steps == [] then l else LaneRun(c, LaneApply(c, l, now, steps[0]), now, steps[1..])
  }

  predicate LaneSerial(c: Config, l: Lane, now: Time, steps: seq<LaneStep>)
    requires LaneCanRun(c, l, now, steps)
    decreases steps
  {
    steps != [] ==>
      (steps[0].Take? ==> l.drains == []) && LaneSerial(c, LaneApply(c, l, now, steps[0]), now, steps[1..])
  }

  /** `steps` lead from `l` to `l'`, with drains one at a time if `serial`. */
  ghost predicate Leads(c: Config, l: Lane, now: Time, steps: seq<LaneStep>, l': Lane, serial: bool) {
    LaneCanRun(c, l, now, steps) && LaneRun(c, l, now, steps) == l' && (serial ==> LaneSerial(c, l, now, steps))
  }

  lemma OneStep(c: Config, l: Lane, now: Time, step: LaneStep, serial: bool)
    requires LaneEnabled(l, step) && (serial && step.Take? ==> l.drains == [])
    ensures Leads(c, l, now, [step], LaneApply(c, l, now, step), serial)
  {
  }

  lemma {:induction false} Chain(c: Config, l: Lane, now: Time, a: seq<LaneStep>, m: Lane, b: seq<LaneStep>, n: Lane, serial: bool)
    requires Leads(c, l, now, a, m, serial) && Leads(c, m, now, b, n, serial)
    ensures Leads(c, l, now, a + b, n, serial)
    decreases a
  {
    hide LaneApply, LaneEnabled;
    if a == [] {
      assert a + b == b;
    } else {
      Chain(c, LaneApply(c, l, now, a[0]), now, a[1..], m, b, n, serial);
      assert (a + b)[1..] == a[1..] + b;
    }
  }

  function AtAll(slot: Slot, steps: seq<LaneStep>): seq<Step> {
    seq(|steps|, i requires 0 <= i < |steps| => At(slot, steps[i]))
  }

  /** A lane's run is a run of the whole store. */
  lemma {:induction false} Lift(c: Config, s: State, slot: Slot, steps: seq<LaneStep>, l': Lane, serial: bool)
    requires Leads(c, LaneOf(s, slot), s.now, steps, l', serial)
    ensures var all := AtAll(slot, steps);
            CanRun(c, s, all) && LaneOf(Run(c, s, all), slot) == l' && (serial ==> Serial(c, s, all, slot))
    decreases steps
  {
    hide LaneApply, LaneEnabled;
    if steps != [] {
      var s' := Apply(c, s, At(slot, steps[0]));
      Lift(c, s', slot, steps[1..], l', serial);
      assert AtAll(slot, steps)[1..] == AtAll(slot, steps[1..]);
    }
  }

  // ---- a drain from beginning to end -------------------------------------------

  /** What a drain keeps, in its order of work. */
  function Kept(c: Config, q: seq<Queued>, started: Time, ok: Entry -> bool): seq<Queued> {
    if q == [] then []
    else
      (if FateOf(c, q[0].entry, started, ok(q[0].entry)) == Keep then [q[0]] else []) + Kept(c, q[1..], started, ok)
  }

  function Processes(q: seq<Queued>, ok: Entry -> bool): seq<LaneStep> {
    if q == [] then [] else [Process(0, ok(q[0].entry))] + Processes(q[1..], ok)
  }

  function Names(q: seq<Queued>): seq<Entry> {
    seq(|q|, i requires 0 <= i < |q| => q[i].entry)
  }

  /** A lane but for what a drain delivers or reports. */
  predicate SameQueue(l: Lane, m: Lane) {
    l.queue == m.queue && l.held == m.held && l.pushed == m.pushed && l.accepted == m.accepted
  }

  ghost predicate Worked(c: Config, l: Lane, m: Lane, ok: Entry -> bool) {
    && |l.drains| == 1 && SameQueue(l, m)
    && var dr := l.drains[0];
       m.drains == [dr.(todo := [], failures := dr.failures + Kept(c, dr.todo, dr.started, ok))]
  }

  lemma WorkOne(c: Config, l: Lane, m: Lane, ok: Entry -> bool)
    requires |l.drains| == 1 && l.drains[0].todo != []
    requires Worked(c, Processed(c, l, 0, ok(l.drains[0].todo[0].entry)), m, ok)
    ensures Worked(c, l, m, ok)
  {
    var dr := l.drains[0];
    var e, rest := dr.todo[0], Kept(c, dr.todo[1..], dr.started, ok);
    assert dr.failures + [e] + rest == dr.failures + ([e] + rest);
    assert [] + rest == rest;
  }

  /** The only drain works off all it took. */
  lemma {:induction false} WorkOff(c: Config, l: Lane, now: Time, ok: Entry -> bool) returns (m: Lane)
    requires |l.drains| == 1
    ensures Leads(c, l, now, Processes(l.drains[0].todo, ok), m, true) && Worked(c, l, m, ok)
    decreases |l.drains[0].todo|
  {
    var dr := l.drains[0];
    if dr.todo == [] {
      m := l;
      assert dr.failures + [] == dr.failures;
      assert m.drains == [dr.(todo := [], failures := dr.failures + Kept(c, dr.todo, dr.started, ok))];
    } else {
      var step := Process(0, ok(dr.todo[0].entry));
      var l1 := LaneApply(c, l, now, step);
      assert |l1.drains| == 1 && l1.drains[0].todo == dr.todo[1..];
      hide Leads, LaneApply, Worked, Kept;
      m := WorkOff(c, l1, now, ok);
      OneStep(c, l, now, step, true);
      Chain(c, l, now, [step], l1, Processes(dr.todo[1..], ok), m, true);
      WorkOne(c, l, m, ok);
    }
  }

  lemma {:induction false} SelectConcat(c: Config, a: seq<Entry>, b: seq<Entry>, started: Time, ok: Entry -> bool, fate: Fate)
    ensures Select(c, a + b, started, ok, fate) == Select(c, a, started, ok, fate) + Select(c, b, started, ok, fate)
  {
    if b == [] {
      assert a + b == a;
    } else {
      var n := |b| - 1;
      assert (a + b)[..|a + b| - 1] == a + b[..n];
      SelectConcat(c, a, b[..n], started, ok, fate);
    }
  }

  lemma {:induction false} KeptIsSelected(c: Config, q: seq<Queued>, started: Time, ok: Entry -> bool)
    ensures Names(Kept(c, q, started, ok)) == Select(c, Names(q), started, ok, Keep)
  {
    if q != [] {
      var e, rest := q[0].entry, q[1..];
      KeptIsSelected(c, rest, started, ok);
      assert Names(q) == [e] + Names(rest);
      SelectConcat(c, [e], Names(rest), started, ok, Keep);
      assert [e][..0] == [];
      var first := if FateOf(c, e, started, ok(e)) == Keep then [q[0]] else [];
      assert Names(first + Kept(c, rest, started, ok)) == Names(first) + Names(Kept(c, rest, started, ok));
    }
  }

  function FullDrain(q: seq<Queued>, ok: Entry -> bool): seq<LaneStep> {
    [Take] + Processes(q, ok) + [PutBack(0)]
  }

  /** Taken one after the other, the steps of a drain do to the queue what the queue object's drain does. */
  lemma FullDrainIsDrain(c: Config, l: Lane, now: Time, ok: Entry -> bool) returns (m: Lane)
    requires l.drains == [] && l.queue.Some?
    ensures Leads(c, l, now, FullDrain(Content(l), ok), m, true) && m.drains == [] && m.held == l.held && m.pushed == l.pushed
    ensures Names(Content(m)) == Select(c, Names(Content(l)), now, ok, Keep)
  {
    var q := Content(l);
    var l1 := LaneApply(c, l, now, Take);
    assert l1.drains == [Drain(now, q, [], |l.pushed|)];
    var l2 := WorkOff(c, l1, now, ok);
    var kept := Kept(c, q, now, ok);
    assert [] + kept == kept;
    m := LaneApply(c, l2, now, PutBack(0));
    OneStep(c, l, now, Take, true);
    OneStep(c, l2, now, PutBack(0), true);
    assert Content(m) == kept && m.drains == [] by {
      assert kept + [] == kept;
    }
    KeptIsSelected(c, q, now, ok);
    hide Leads, LaneApply;
    Chain(c, l, now, [Take], l1, Processes(q, ok), l2, true);
    Chain(c, l, now, [Take] + Processes(q, ok), l2, [PutBack(0)], m, true);
  }

  // ---- pushes during drains: no bound on the depth -----------------------------

  /** The queue holds `n` copies of `e` and nothing else is going on. */
  predicate Uniform(l: Lane, e: Entry, n: nat) {
    && l.drains == [] && l.held == multiset{} && l.queue.Some? && |l.queue.value| == n
    && forall i :: 0 <= i < n ==> l.queue.value[i].entry == e
  }

  lemma {:induction false} KeptAll(c: Config, q: seq<Queued>, started: Time)
    requires forall i :: 0 <= i < |q| ==> q[i].entry.queuedAt == started
    ensures Kept(c, q, started, _ => false) == q
  {
    if q != [] {
      KeptAll(c, q[1..], started);
      assert q == [q[0]] + q[1..];
    }
  }

  lemma AcceptAndPush(c: Config, l: Lane, e: Entry)
    requires l.held == multiset{} && !IsFull(c, |Content(l)|)
    ensures var l' := l.(queue := Some(Content(l) + [Queued(e, |l.pushed|)]), pushed := l.pushed + [e],
                         accepted := l.accepted + multiset{e});
            Leads(c, l, e.queuedAt, [Accept(e.id, e.payload), Push(e)], l', true)
  {
    var l1 := LaneApply(c, l, e.queuedAt, Accept(e.id, e.payload));
    assert l1.held - multiset{e} == l.held;
    OneStep(c, l, e.queuedAt, Accept(e.id, e.payload), true);
    OneStep(c, l1, e.queuedAt, Push(e), true);
    var l2 := LaneApply(c, l1, e.queuedAt, Push(e));
    hide Leads;
    Chain(c, l, e.queuedAt, [Accept(e.id, e.payload)], l1, [Push(e)], l2, true);
    assert [Accept(e.id, e.payload)] + [Push(e)] == [Accept(e.id, e.payload), Push(e)];
  }

  /** The only drain fails on everything and puts it all back. */
  lemma AllFail(c: Config, l: Lane, now: Time, q: seq<Queued>) returns (steps: seq<LaneStep>, m: Lane)
    requires |l.drains| == 1 && l.drains[0].started == now && l.drains[0].todo == q && l.drains[0].failures == []
    requires q != [] && forall i :: 0 <= i < |q| ==> q[i].entry.queuedAt == now
    ensures Leads(c, l, now, steps, m, true) && m.drains == [] && m.held == l.held && m.queue == Some(q + Content(l))
  {
    var none := (_: Entry) => false;
    var l1 := WorkOff(c, l, now, none);
    KeptAll(c, q, now);
    KeptSame(c, q, now, none);
    assert [] + q == q;
    m := LaneApply(c, l1, now, PutBack(0));
    OneStep(c, l1, now, PutBack(0), true);
    hide Leads, LaneApply;
    Chain(c, l, now, Processes(q, none), l1, [PutBack(0)], m, true);
    steps := Processes(q, none) + [PutBack(0)];
  }

  /** A push lands while a drain is in progress whose sends all fail. */
  lemma OneMore(c: Config, l: Lane, e: Entry, n: nat) returns (steps: seq<LaneStep>, m: Lane)
    requires Uniform(l, e, n) && n > 0 && !IsFull(c, 0)
    ensures Leads(c, l, e.queuedAt, steps, m, true) && Uniform(m, e, n + 1)
  {
    var q, now := Content(l), e.queuedAt;
    var l1 := LaneApply(c, l, now, Take);
    OneStep(c, l, now, Take, true);
    AcceptAndPush(c, l1, e);
    var l2 := l1.(queue := Some([] + [Queued(e, |l1.pushed|)]), pushed := l1.pushed + [e], accepted := l1.accepted + multiset{e});
    var call, fails := [Accept(e.id, e.payload), Push(e)], [];
    hide Leads, LaneRun, LaneCanRun;
    fails, m := AllFail(c, l2, now, q);
    Chain(c, l, now, [Take], l1, call, l2, true);
    Chain(c, l, now, [Take] + call, l2, fails, m, true);
    steps := [Take] + call + fails;
  }

  lemma {:induction false} KeptSame(c: Config, q: seq<Queued>, started: Time, none: Entry -> bool)
    requires forall e :: !none(e)
    ensures Kept(c, q, started, none) == Kept(c, q, started, _ => false)
  {
    if q != [] { KeptSame(c, q[1..], started, none); }
  }

  lemma {:induction false} Grows(c: Config, e: Entry, n: nat) returns (steps: seq<LaneStep>, m: Lane)
    requires !IsFull(c, 0) && n > 0
    ensures Leads(c, IDLE, e.queuedAt, steps, m, true) && Uniform(m, e, n)
    decreases n
  {
    if n == 1 {
      AcceptAndPush(c, IDLE, e);
      steps := [Accept(e.id, e.payload), Push(e)];
      m := LaneRun(c, IDLE, e.queuedAt, steps);
    } else {
      hide Leads;
      var before, l := Grows(c, e, n - 1);
      var more;
      more, m := OneMore(c, l, e, n - 1);
      Chain(c, IDLE, e.queuedAt, before, l, more, m, true);
      steps := before + more;
    }
  }

  const START := State(0, map[])

  const ANY_ENTRY := Entry(MsgId([0x80, 0, 0, 0, 0, 0, 0, 0]), [], 0)

  /** Every run, with drains one at a time if `serial` and nothing queued during a drain if `quiet`, stays within the depth. */
  ghost predicate AlwaysWithinDepth(c: Config, slot: Slot, serial: bool, quiet: bool)
    requires c.maxDepth.Some?
  {
    forall steps: seq<Step> ::
      CanRun(c, START, steps) && (serial ==> Serial(c, START, steps, slot)) && (quiet ==> Quiet(c, START, steps, slot)) ==>
        |Content(LaneOf(Run(c, START, steps), slot))| <= c.maxDepth.value
  }

  /** With depth zero nothing is ever queued. */
  lemma {:induction false} ZeroIsQuiet(c: Config, s: State, steps: seq<Step>, slot: Slot)
    requires c.maxDepth == Some(0) && CanRun(c, s, steps)
    ensures Quiet(c, s, steps, slot)
    decreases steps
  {
    hide LaneApply, LaneEnabled;
    if steps != [] { ZeroIsQuiet(c, Apply(c, s, steps[0]), steps[1..], slot); }
  }

  /**
   As a rule for all runs: forbidding that anything is queued during a drain keeps the depth, and
   nothing else will do, not even forbidding overlaps; unless nothing may be queued at all.
   */
  lemma DepthNeedsQuiet(c: Config, slot: Slot, serial: bool, quiet: bool)
    requires c.maxDepth.Some?
    ensures AlwaysWithinDepth(c, slot, serial, quiet) <==> quiet || c.maxDepth.value == 0
  {
    if quiet || c.maxDepth.value == 0 {
      forall steps: seq<Step> | CanRun(c, START, steps) && (quiet ==> Quiet(c, START, steps, slot))
        ensures |Content(LaneOf(Run(c, START, steps), slot))| <= c.maxDepth.value
      {
        hide Run, CanRun, Quiet;
        if !quiet { ZeroIsQuiet(c, START, steps, slot); }
        DepthKept(c, START, steps, slot);
      }
    } else {
      var n := c.maxDepth.value + 1;
      var steps, m := Grows(c, ANY_ENTRY, n);
      Lift(c, START, slot, steps, m, true);
      assert |Content(LaneOf(Run(c, START, AtAll(slot, steps)), slot))| == n;
    }
  }

  // ---- overlapping drains: no order --------------------------------------------

  /** Two drains hold one entry each; the older entry is put back first. */
  lemma PutBackInWrongOrder(c: Config, l: Lane, now: Time, a: Queued, b: Queued, m: nat, n: nat)
    requires l.queue.None? && l.drains == [Drain(now, [a], [], m), Drain(now, [b], [], n)]
    requires a.entry.queuedAt == now == b.entry.queuedAt
    ensures Leads(c, l, now, [Process(0, false), Process(1, false)] + [PutBack(0), PutBack(0)],
                  l.(queue := Some([b, a]), drains := []), false)
  {
    var l1 := LaneApply(c, l, now, Process(0, false));
    assert [] + [a] == [a] && [a][1..] == [];
    assert l1.drains == [Drain(now, [], [a], m), Drain(now, [b], [], n)];
    var l2 := LaneApply(c, l1, now, Process(1, false));
    assert [] + [b] == [b] && [b][1..] == [];
    assert l2.drains == [Drain(now, [], [a], m), Drain(now, [], [b], n)];
    ReturnBoth(c, l2, now, a, b, m, n);
    OneStep(c, l, now, Process(0, false), false);
    OneStep(c, l1, now, Process(1, false), false);
    hide Leads, LaneApply;
    Chain(c, l, now, [Process(0, false)], l1, [Process(1, false)], l2, false);
    assert [Process(0, false)] + [Process(1, false)] == [Process(0, false), Process(1, false)];
    Chain(c, l, now, [Process(0, false), Process(1, false)], l2, [PutBack(0), PutBack(0)],
          l2.(queue := Some([b, a]), drains := []), false);
  }

  lemma ReturnBoth(c: Config, l: Lane, now: Time, a: Queued, b: Queued, m: nat, n: nat)
    requires l.queue.None? && l.drains == [Drain(now, [], [a], m), Drain(now, [], [b], n)]
    ensures Leads(c, l, now, [PutBack(0), PutBack(0)], l.(queue := Some([b, a]), drains := []), false)
  {
    var l1 := LaneApply(c, l, now, PutBack(0));
    assert l1.drains == [Drain(now, [], [b], n)] && l1.queue == Some([a] + []) && [a] + [] == [a];
    var l2 := LaneApply(c, l1, now, PutBack(0));
    assert l2.drains == [] && l2.queue == Some([b] + [a]) && [b] + [a] == [b, a];
    OneStep(c, l, now, PutBack(0), false);
    OneStep(c, l1, now, PutBack(0), false);
    hide Leads;
    Chain(c, l, now, [PutBack(0)], l1, [PutBack(0)], l2, false);
    assert [PutBack(0)] + [PutBack(0)] == [PutBack(0), PutBack(0)];
  }

  /** A call whose payload is queued, then a drain that takes it. */
  lemma QueueAndTake(c: Config, l: Lane, e: Entry)
    requires l.held == multiset{} && l.queue.None? && !IsFull(c, 0)
    ensures var q := Queued(e, |l.pushed|);
            Leads(c, l, e.queuedAt, [Accept(e.id, e.payload), Push(e)] + [Take],
                  l.(drains := l.drains + [Drain(e.queuedAt, [q], [], |l.pushed| + 1)], pushed := l.pushed + [e],
                     accepted := l.accepted + multiset{e}), false)
  {
    AcceptAndPush(c, l, e);
    LeadsAnyhow(c, l, e.queuedAt, [Accept(e.id, e.payload), Push(e)]);
    var l1 := l.(queue := Some(Content(l) + [Queued(e, |l.pushed|)]), pushed := l.pushed + [e],
                 accepted := l.accepted + multiset{e});
    assert Content(l) + [Queued(e, |l.pushed|)] == [Queued(e, |l.pushed|)];
    OneStep(c, l1, e.queuedAt, Take, false);
    Chain(c, l, e.queuedAt, [Accept(e.id, e.payload), Push(e)], l1, [Take], LaneApply(c, l1, e.queuedAt, Take), false);
  }

  lemma LeadsAnyhow(c: Config, l: Lane, now: Time, steps: seq<LaneStep>)
    ensures forall m :: Leads(c, l, now, steps, m, true) ==> Leads(c, l, now, steps, m, false)
  {
  }

  /** Every run, with drains one at a time if `serial`, leaves the queue in push order. */
  ghost predicate AlwaysInPushOrder(c: Config, slot: Slot, serial: bool) {
    forall steps: seq<Step> :: CanRun(c, START, steps) && (serial ==> Serial(c, START, steps, slot)) ==>
      var l := LaneOf(Run(c, START, steps), slot); InPushOrder(Content(l), l.pushed, |l.pushed|)
  }

  lemma OverlapReorders(c: Config, slot: Slot)
    requires !IsFull(c, 0)
    ensures !AlwaysInPushOrder(c, slot, false)
  {
    var a, b := ANY_ENTRY, ANY_ENTRY.(payload := [1]);
    QueueAndTake(c, IDLE, a);
    var l1 := IDLE.(drains := [] + [Drain(0, [Queued(a, 0)], [], 1)], pushed := [] + [a], accepted := multiset{} + multiset{a});
    QueueAndTake(c, l1, b);
    var l2 := l1.(drains := l1.drains + [Drain(0, [Queued(b, 1)], [], 2)], pushed := l1.pushed + [b],
                  accepted := l1.accepted + multiset{b});
    assert l2.drains == [Drain(0, [Queued(a, 0)], [], 1), Drain(0, [Queued(b, 1)], [], 2)];
    PutBackInWrongOrder(c, l2, 0, Queued(a, 0), Queued(b, 1), 1, 2);
    var l3 := l2.(queue := Some([Queued(b, 1), Queued(a, 0)]), drains := []);
    var x, y := [Accept(a.id, a.payload), Push(a)] + [Take], [Accept(b.id, b.payload), Push(b)] + [Take];
    var z := [Process(0, false), Process(1, false)] + [PutBack(0), PutBack(0)];
    assert !InPushOrder(Content(l3), l3.pushed, |l3.pushed|) by {
      assert Content(l3)[0].stamp == 1 && Content(l3)[1].stamp == 0;
    }
    hide Leads, LaneApply, InPushOrder;
    Chain(c, IDLE, 0, x, l1, y, l2, false);
    Chain(c, IDLE, 0, x + y, l2, z, l3, false);
    Lift(c, START, slot, x + y + z, l3, false);
    assert LaneOf(Run(c, START, AtAll(slot, x + y + z)), slot) == l3;
  }

  /** As a rule for all runs: forbidding overlaps keeps the order, and allowing all of them does not; unless nothing may be queued at all. */
  lemma OrderNeedsSerial(c: Config, slot: Slot, serial: bool)
    ensures AlwaysInPushOrder(c, slot, serial) <==> serial || c.maxDepth == Some(0)
  {
    if serial || c.maxDepth == Some(0) {
      forall steps: seq<Step> | CanRun(c, START, steps) && (serial ==> Serial(c, START, steps, slot))
        ensures var l := LaneOf(Run(c, START, steps), slot); InPushOrder(Content(l), l.pushed, |l.pushed|)
      {
        if serial {
          QueueInPushOrder(c, START, steps, slot);
        } else {
          ZeroIsQuiet(c, START, steps, slot);
          DepthKept(c, START, steps, slot);
        }
      }
    } else {
      OverlapReorders(c, slot);
    }
  }
}
