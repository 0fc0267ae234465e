/**
 Exactly when a queue keeps its order and its depth, run by run: both are decided by the put-backs
 alone, each by what is in the queue at that moment. Overlapping drains keep the order when they
 return youngest first.
 */
module StoreForwardExact {
  import opened Types
  import opened StoreForward
  import opened StoreForwardOrder

  ghost predicate Ordered(l: Lane) {
    InPushOrder(Content(l), l.pushed, |l.pushed|)
  }

  ghost predicate DrainOrdered(d: Drain, pushed: seq<Entry>) {
    InPushOrder(d.failures + d.todo, pushed, |pushed|)
  }

  /** What queue and drains hold is each in push order; nothing is said about one against the other. */
  ghost predicate Sound(l: Lane) {
    Ordered(l) && forall i :: 0 <= i < |l.drains| ==> DrainOrdered(l.drains[i], l.pushed)
  }

  /** Everything queued was pushed after everything that drain `d` returns. */
  ghost predicate ReturnFits(l: Lane, d: nat)
    requires d < |l.drains|
  {
    forall i, j :: 0 <= i < |l.drains[d].failures| && 0 <= j < |Content(l)| ==>
      l.drains[d].failures[i].stamp < Content(l)[j].stamp
  }

  // ---- one step ----------------------------------------------------------------

  lemma OrderLater(q: seq<Queued>, pushed: seq<Entry>, e: Entry)
    requires InPushOrder(q, pushed, |pushed|)
    ensures InPushOrder(q, pushed + [e], |pushed| + 1)
    ensures InPushOrder(q + [Queued(e, |pushed|)], pushed + [e], |pushed| + 1)
  {
    OrderLonger(q, pushed, |pushed|, e);
    assert InPushOrder(q, pushed + [e], |pushed|);
    forall i | 0 <= i < |q| ensures q[i].stamp < |pushed| + 1 <= |pushed + [e]| {
    }
  }

  lemma OrderConcat(a: seq<Queued>, b: seq<Queued>, pushed: seq<Entry>, limit: nat)
    requires InPushOrder(a, pushed, limit) && InPushOrder(b, pushed, limit)
    ensures InPushOrder(a + b, pushed, limit) <==>
            forall i, j :: 0 <= i < |a| && 0 <= j < |b| ==> a[i].stamp < b[j].stamp
  {
    var q := a + b;
    if InPushOrder(q, pushed, limit) {
      forall i, j | 0 <= i < |a| && 0 <= j < |b| ensures a[i].stamp < b[j].stamp {
        assert q[i] == a[i] && q[|a| + j] == b[j];
      }
    }
    if forall i, j :: 0 <= i < |a| && 0 <= j < |b| ==> a[i].stamp < b[j].stamp {
      forall i, j | 0 <= i < j < |q| ensures q[i].stamp < q[j].stamp {
        assert q[i] == if i < |a| then a[i] else b[i - |a|];
        assert q[j] == if j < |a| then a[j] else b[j - |a|];
      }
    }
  }

  lemma PushSound(c: Config, l: Lane, e: Entry)
    requires Sound(l)
    ensures Sound(Pushed(c, l, e))
  {
    hide InPushOrder;
    if !IsFull(c, |Content(l)|) {
      OrderLater(Content(l), l.pushed, e);
      forall i | 0 <= i < |l.drains| ensures DrainOrdered(l.drains[i], l.pushed + [e]) {
        OrderLater(l.drains[i].failures + l.drains[i].todo, l.pushed, e);
      }
    }
  }

  lemma ProcessSound(c: Config, l: Lane, d: nat, ok: bool)
    requires Sound(l) && d < |l.drains| && l.drains[d].todo != []
    ensures Sound(Processed(c, l, d, ok))
  {
    hide InPushOrder;
    var dr := l.drains[d];
    OrderDrop(dr.failures, dr.todo, l.pushed, |l.pushed|);
    assert dr.failures + [dr.todo[0]] + dr.todo[1..] == dr.failures + dr.todo;
  }

  /** A put-back keeps the order if and only if nothing queued is older than what it returns. */
  lemma ReturnOrder(l: Lane, d: nat)
    requires Sound(l) && d < |l.drains| && l.drains[d].todo == []
    ensures Ordered(Returned(l, d)) <==> ReturnFits(l, d)
    ensures Ordered(Returned(l, d)) ==> Sound(Returned(l, d))
  {
    hide InPushOrder;
    var failures := l.drains[d].failures;
    assert failures + l.drains[d].todo == failures;
    OrderConcat(failures, Content(l), l.pushed, |l.pushed|);
  }

  lemma StepOrder(c: Config, l: Lane, now: Time, step: LaneStep)
    requires Sound(l) && LaneEnabled(l, step)
    ensures Ordered(LaneApply(c, l, now, step)) <==> (step.PutBack? ==> ReturnFits(l, step.d))
    ensures Ordered(LaneApply(c, l, now, step)) ==> Sound(LaneApply(c, l, now, step))
  {
    hide InPushOrder;
    match step
    case Push(e) => hide Sound, ReturnFits; PushSound(c, l, e); SoundIsOrdered(Pushed(c, l, e));
    case Process(d, ok) => hide Sound, ReturnFits; ProcessSound(c, l, d, ok); SoundIsOrdered(Processed(c, l, d, ok));
    case PutBack(d) => hide Sound, ReturnFits; ReturnOrder(l, d);
    case Take =>
      assert [] + Content(l) == Content(l);
      NothingInOrder(l.pushed);
    case _ =>
  }

  lemma SoundIsOrdered(l: Lane)
    requires Sound(l)
    ensures Ordered(l)
  {
  }

  lemma NothingInOrder(pushed: seq<Entry>)
    ensures InPushOrder([], pushed, |pushed|)
  {
  }

  // ---- whole runs --------------------------------------------------------------

  /** The queue of this destination is in push order in every state of the run. */
  ghost predicate AlwaysOrdered(c: Config, s: State, steps: seq<Step>, slot: Slot)
    requires CanRun(c, s, steps)
    decreases steps
  {
    Ordered(LaneOf(s, slot)) && (steps != [] ==> AlwaysOrdered(c, Apply(c, s, steps[0]), steps[1..], slot))
  }

  /** Every put-back of the run finds only younger entries queued. */
  ghost predicate ReturnsFit(c: Config, s: State, steps: seq<Step>, slot: Slot)
    requires CanRun(c, s, steps)
    decreases steps
  {
    steps != [] ==>
      && (steps[0].At? && steps[0].slot == slot && steps[0].step.PutBack? ==> ReturnFits(LaneOf(s, slot), steps[0].step.d))
      && ReturnsFit(c, Apply(c, s, steps[0]), steps[1..], slot)
  }

  /** A run keeps the queue in push order throughout if and only if its put-backs fit. */
  lemma {:induction false} OrderExactly(c: Config, s: State, steps: seq<Step>, slot: Slot)
    requires CanRun(c, s, steps) && Sound(LaneOf(s, slot))
    ensures AlwaysOrdered(c, s, steps, slot) <==> ReturnsFit(c, s, steps, slot)
    decreases steps
  {
    hide Ordered, LaneApply, ReturnFits;
    assert Ordered(LaneOf(s, slot));
    if steps != [] {
      var s' := Apply(c, s, steps[0]);
      if steps[0].At? && steps[0].slot == slot {
        hide Sound;
        StepOrder(c, LaneOf(s, slot), s.now, steps[0].step);
        assert AlwaysOrdered(c, s', steps[1..], slot) ==> Ordered(LaneOf(s', slot));
        if Ordered(LaneOf(s', slot)) { OrderExactly(c, s', steps[1..], slot); }
      } else {
        OrderExactly(c, s', steps[1..], slot);
      }
    }
  }

  // ---- drains that return youngest first ---------------------------------------

  /** What the drains hold, oldest drain first. */
  ghost function Flat(ds: seq<Drain>): seq<Queued> {
    if ds == [] then [] else Flat(ds[..|ds| - 1]) + (ds[|ds| - 1].failures + ds[|ds| - 1].todo)
  }

  /** Drains and queue, one after the other, are in push order. */
  ghost predicate Nested(l: Lane) {
    InPushOrder(Flat(l.drains) + Content(l), l.pushed, |l.pushed|)
  }

  lemma {:induction false} FlatAt(ds: seq<Drain>, d: nat, dr: Drain) returns (before: seq<Queued>, after: seq<Queued>)
    requires d < |ds|
    ensures Flat(ds) == before + (ds[d].failures + ds[d].todo) + after
    ensures Flat(ds[d := dr]) == before + (dr.failures + dr.todo) + after
    decreases |ds|
  {
    var n := |ds| - 1;
    if d == n {
      before, after := Flat(ds[..n]), [];
      assert ds[d := dr][..n] == ds[..n];
    } else {
      before, after := FlatAt(ds[..n], d, dr);
      var last := ds[n].failures + ds[n].todo;
      assert ds[d := dr][..n] == ds[..n][d := dr];
      assert before + (ds[d].failures + ds[d].todo) + after + last == before + (ds[d].failures + ds[d].todo) + (after + last);
      assert before + (dr.failures + dr.todo) + after + last == before + (dr.failures + dr.todo) + (after + last);
      after := after + last;
    }
  }

  lemma OrderLaterBehind(a: seq<Queued>, b: seq<Queued>, pushed: seq<Entry>, e: Entry)
    requires InPushOrder(a + b, pushed, |pushed|)
    ensures InPushOrder(a + (b + [Queued(e, |pushed|)]), pushed + [e], |pushed| + 1)
  {
    hide InPushOrder;
    OrderLater(a + b, pushed, e);
    assert a + b + [Queued(e, |pushed|)] == a + (b + [Queued(e, |pushed|)]);
  }

  lemma PushNested(c: Config, l: Lane, e: Entry)
    requires Nested(l)
    ensures Nested(Pushed(c, l, e))
  {
    hide InPushOrder, Flat;
    if !IsFull(c, |Content(l)|) { OrderLaterBehind(Flat(l.drains), Content(l), l.pushed, e); }
  }

  lemma ProcessNested(c: Config, l: Lane, d: nat, ok: bool)
    requires Nested(l) && d < |l.drains| && l.drains[d].todo != []
    ensures Nested(Processed(c, l, d, ok))
  {
    hide InPushOrder, Flat;
    var dr, q := l.drains[d], Content(l);
    var e, rest := dr.todo[0], dr.todo[1..];
    if FateOf(c, e.entry, dr.started, ok) == Keep {
      var before, after := FlatAt(l.drains, d, dr.(todo := rest, failures := dr.failures + [e]));
      assert dr.failures + [e] + rest == dr.failures + dr.todo;
    } else {
      var before, after := FlatAt(l.drains, d, dr.(todo := rest));
      var a, b := before + dr.failures, dr.todo + after + q;
      assert before + (dr.failures + dr.todo) + after + q == a + b;
      assert before + (dr.failures + rest) + after + q == a + b[1..];
      OrderDrop(a, b, l.pushed, |l.pushed|);
    }
  }

  /** The youngest drain, or one that has nothing to return, may put back. */
  predicate ReturnsYoungest(l: Lane, d: nat)
    requires d < |l.drains|
  {
    d == |l.drains| - 1 || l.drains[d].failures == []
  }

  lemma {:induction false} FlatWithout(ds: seq<Drain>, d: nat)
    requires d < |ds| && ds[d].failures == [] == ds[d].todo
    ensures Flat(ds[..d] + ds[d + 1..]) == Flat(ds)
    decreases |ds|
  {
    var n := |ds| - 1;
    if d == n {
      assert ds[..d] + ds[d + 1..] == ds[..n];
      assert Flat(ds[..n]) + ([] + []) == Flat(ds[..n]);
    } else {
      FlatWithout(ds[..n], d);
      var rest := ds[..d] + ds[d + 1..];
      assert rest[..|rest| - 1] == ds[..n][..d] + ds[..n][d + 1..] && rest[|rest| - 1] == ds[n];
    }
  }

  lemma ReturnNested(l: Lane, d: nat)
    requires Nested(l) && d < |l.drains| && l.drains[d].todo == [] && ReturnsYoungest(l, d)
    ensures Nested(Returned(l, d)) && ReturnFits(l, d)
  {
    var ds, failures, q := l.drains, l.drains[d].failures, Content(l);
    if failures == [] {
      FlatWithout(ds, d);
    } else {
      assert ds[..d] + ds[d + 1..] == ds[..d];
      assert Flat(ds) + q == Flat(ds[..d]) + (failures + q);
      YoungestFits(Flat(ds[..d]), failures, q, l.pushed);
    }
  }

  lemma YoungestFits(before: seq<Queued>, failures: seq<Queued>, q: seq<Queued>, pushed: seq<Entry>)
    requires InPushOrder(before + (failures + q), pushed, |pushed|)
    ensures forall i, j :: 0 <= i < |failures| && 0 <= j < |q| ==> failures[i].stamp < q[j].stamp
  {
    var all := before + (failures + q);
    forall i, j | 0 <= i < |failures| && 0 <= j < |q| ensures failures[i].stamp < q[j].stamp {
      assert all[|before| + i] == failures[i] && all[|before| + |failures| + j] == q[j];
    }
  }

  lemma TakeNested(c: Config, l: Lane, now: Time)
    requires Nested(l) && LaneEnabled(l, Take)
    ensures Nested(LaneApply(c, l, now, Take))
  {
    hide InPushOrder;
    var dr := Drain(now, Content(l), [], |l.pushed|);
    assert (l.drains + [dr])[..|l.drains|] == l.drains;
    assert Flat(l.drains) + ([] + Content(l)) + [] == Flat(l.drains) + Content(l);
  }

  lemma StepNested(c: Config, l: Lane, now: Time, step: LaneStep)
    requires Nested(l) && LaneEnabled(l, step) && (step.PutBack? ==> ReturnsYoungest(l, step.d))
    ensures Nested(LaneApply(c, l, now, step))
    ensures step.PutBack? ==> ReturnFits(l, step.d)
  {
    match step
    case Push(e) => hide Nested; PushNested(c, l, e);
    case Process(d, ok) => hide Nested; ProcessNested(c, l, d, ok);
    case PutBack(d) => hide Nested; ReturnNested(l, d);
    case Take => hide Nested; TakeNested(c, l, now);
    case _ =>
  }

  /** Drains may overlap, but of those with something to return only the youngest puts back. */
  ghost predicate YoungestFirst(c: Config, s: State, steps: seq<Step>, slot: Slot)
    requires CanRun(c, s, steps)
    decreases steps
  {
    steps != [] ==>
      && (steps[0].At? && steps[0].slot == slot && steps[0].step.PutBack? ==> ReturnsYoungest(LaneOf(s, slot), steps[0].step.d))
      && YoungestFirst(c, Apply(c, s, steps[0]), steps[1..], slot)
  }

  lemma {:induction false} YoungestFirstFits(c: Config, s: State, steps: seq<Step>, slot: Slot)
    requires CanRun(c, s, steps) && YoungestFirst(c, s, steps, slot) && Nested(LaneOf(s, slot))
    ensures ReturnsFit(c, s, steps, slot)
    decreases steps
  {
    hide Nested, LaneApply, ReturnFits;
    if steps != [] {
      if steps[0].At? && steps[0].slot == slot { StepNested(c, LaneOf(s, slot), s.now, steps[0].step); }
      YoungestFirstFits(c, Apply(c, s, steps[0]), steps[1..], slot);
    }
  }

  /** Overlapping drains that return youngest first keep the queue in push order. */
  lemma YoungestFirstOrders(c: Config, now: Time, steps: seq<Step>, slot: Slot)
    requires CanRun(c, State(now, map[]), steps) && YoungestFirst(c, State(now, map[]), steps, slot)
    ensures AlwaysOrdered(c, State(now, map[]), steps, slot)
  {
    assert LaneOf(State(now, map[]), slot) == IDLE;
    OrderExactly(c, State(now, map[]), steps, slot);
    YoungestFirstFits(c, State(now, map[]), steps, slot);
  }

  // ---- depth -------------------------------------------------------------------

  /** The queue of this destination is within its depth in every state of the run. */
  ghost predicate AlwaysWithin(c: Config, s: State, steps: seq<Step>, slot: Slot)
    requires c.maxDepth.Some? && CanRun(c, s, steps)
    decreases steps
  {
    |Content(LaneOf(s, slot))| <= c.maxDepth.value && (steps != [] ==> AlwaysWithin(c, Apply(c, s, steps[0]), steps[1..], slot))
  }

  /** Every put-back that returns anything finds room for it. */
  ghost predicate ReturnsHaveRoom(c: Config, s: State, steps: seq<Step>, slot: Slot)
    requires c.maxDepth.Some? && CanRun(c, s, steps)
    decreases steps
  {
    steps != [] ==>
      && (steps[0].At? && steps[0].slot == slot && steps[0].step.PutBack? ==>
            var l := LaneOf(s, slot);
            |l.drains[steps[0].step.d].failures| + |Content(l)| <= c.maxDepth.value)
      && ReturnsHaveRoom(c, Apply(c, s, steps[0]), steps[1..], slot)
  }

  lemma StepDepth(c: Config, l: Lane, now: Time, step: LaneStep)
    requires c.maxDepth.Some? && LaneEnabled(l, step) && |Content(l)| <= c.maxDepth.value
    ensures |Content(LaneApply(c, l, now, step))| <= c.maxDepth.value <==>
            (step.PutBack? ==> |l.drains[step.d].failures| + |Content(l)| <= c.maxDepth.value)
  {
  }

  /** A run keeps the queue within its depth throughout if and only if its put-backs find room. */
  lemma {:induction false} DepthExactly(c: Config, s: State, steps: seq<Step>, slot: Slot)
    requires c.maxDepth.Some? && CanRun(c, s, steps) && |Content(LaneOf(s, slot))| <= c.maxDepth.value
    ensures AlwaysWithin(c, s, steps, slot) <==> ReturnsHaveRoom(c, s, steps, slot)
    decreases steps
  {
    hide LaneApply;
    if steps != [] {
      var s' := Apply(c, s, steps[0]);
      if steps[0].At? && steps[0].slot == slot { StepDepth(c, LaneOf(s, slot), s.now, steps[0].step); }
      assert AlwaysWithin(c, s', steps[1..], slot) ==> |Content(LaneOf(s', slot))| <= c.maxDepth.value;
      if |Content(LaneOf(s', slot))| <= c.maxDepth.value { DepthExactly(c, s', steps[1..], slot); }
    }
  }
}
