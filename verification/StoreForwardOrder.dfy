/**
 The order and the depth of store-and-forward queues. With one drain at a time a queue stays in
 push order; with no push during a drain it stays within its depth. Without these it need not.
 */
module StoreForwardOrder {
  import opened Types
  import opened StoreForward

  /** The queue is a subsequence of the push log, in the log's order, before position `limit`. */
  ghost predicate InPushOrder(q: seq<Queued>, pushed: seq<Entry>, limit: nat) {
    && (forall i :: 0 <= i < |q| ==> q[i].stamp < limit <= |pushed| && pushed[q[i].stamp] == q[i].entry)
    && forall i, j :: 0 <= i < j < |q| ==> q[i].stamp < q[j].stamp
  }

  /** Everything pushed since the log had `mark` entries. */
  function Since(pushed: seq<Entry>, mark: nat): seq<Queued>
    requires mark <= |pushed|
  {
    seq(|pushed| - mark, i requires 0 <= i < |pushed| - mark => Queued(pushed[mark + i], mark + i))
  }

  /** With one drain, the queue holds what was pushed since it began, and the drain older entries in order. */
  ghost predicate Orderly(l: Lane) {
    match |l.drains|
    case 0 => InPushOrder(Content(l), l.pushed, |l.pushed|)
    case 1 =>
      var d := l.drains[0];
      d.mark <= |l.pushed| && Content(l) == Since(l.pushed, d.mark) && InPushOrder(d.failures + d.todo, l.pushed, d.mark)
    case _ => false
  }

  lemma OrderLonger(q: seq<Queued>, pushed: seq<Entry>, limit: nat, e: Entry)
    requires InPushOrder(q, pushed, limit)
    ensures InPushOrder(q, pushed + [e], limit)
    ensures limit == |pushed| ==> InPushOrder(q + [Queued(e, |pushed|)], pushed + [e], |pushed| + 1)
  {
    var pushed' := pushed + [e];
    assert forall k :: 0 <= k < |pushed| ==> pushed'[k] == pushed[k];
    forall i | 0 <= i < |q| ensures q[i].stamp < limit <= |pushed'| && pushed'[q[i].stamp] == q[i].entry {
      assert pushed[q[i].stamp] == q[i].entry;
    }
    assert InPushOrder(q, pushed', limit);
    if limit == |pushed| {
      var q' := q + [Queued(e, |pushed|)];
      assert forall i :: 0 <= i < |q| ==> q'[i] == q[i];
      assert pushed'[|pushed|] == e;
    }
  }

  lemma OrderDrop(a: seq<Queued>, b: seq<Queued>, pushed: seq<Entry>, limit: nat)
    requires b != [] && InPushOrder(a + b, pushed, limit)
    ensures InPushOrder(a + b[1..], pushed, limit)
  {
    var q, r := a + b, a + b[1..];
    forall i | 0 <= i < |r|
      ensures r[i].stamp < limit <= |pushed| && pushed[r[i].stamp] == r[i].entry
      ensures forall j :: i < j < |r| ==> r[i].stamp < r[j].stamp
    {
      assert r[i] == q[if i < |a| then i else i + 1];
      forall j | i < j < |r| ensures r[i].stamp < r[j].stamp {
        assert r[j] == q[if j < |a| then j else j + 1];
      }
    }
  }

  lemma OrderReturn(q: seq<Queued>, pushed: seq<Entry>, mark: nat)
    requires mark <= |pushed| && InPushOrder(q, pushed, mark)
    ensures InPushOrder(q + Since(pushed, mark), pushed, |pushed|)
  {
  }

  /** No drain of this destination begins while another is in progress. */
  ghost predicate Serial(c: Config, s: State, steps: seq<Step>, slot: Slot)
    requires CanRun(c, s, steps)
    decreases steps
  {
    steps != [] ==>
      && (steps[0] == At(slot, Take) ==> LaneOf(s, slot).drains == [])
      && Serial(c, Apply(c, s, steps[0]), steps[1..], slot)
  }

  lemma PushOrderly(c: Config, l: Lane, e: Entry)
    requires Orderly(l)
    ensures Orderly(Pushed(c, l, e))
  {
    if !IsFull(c, |Content(l)|) {
      if |l.drains| == 0 {
        OrderLonger(Content(l), l.pushed, |l.pushed|, e);
      } else {
        var d := l.drains[0];
        OrderLonger(d.failures + d.todo, l.pushed, d.mark, e);
        assert Since(l.pushed + [e], d.mark) == Since(l.pushed, d.mark) + [Queued(e, |l.pushed|)];
      }
    }
  }

  lemma ProcessOrderly(c: Config, l: Lane, d: nat, ok: bool)
    requires Orderly(l) && d < |l.drains| && l.drains[d].todo != []
    ensures Orderly(Processed(c, l, d, ok))
  {
    var dr := l.drains[0];
    OrderDrop(dr.failures, dr.todo, l.pushed, dr.mark);
    assert dr.failures + [dr.todo[0]] + dr.todo[1..] == dr.failures + dr.todo;
  }

  /** Putting back gives the failures in their old order, then everything pushed meanwhile. */
  lemma ReturnOrderly(l: Lane, d: nat)
    requires Orderly(l) && d < |l.drains| && l.drains[d].todo == []
    ensures Orderly(Returned(l, d))
    ensures Content(Returned(l, d)) == l.drains[d].failures + Since(l.pushed, l.drains[d].mark)
  {
    var dr := l.drains[0];
    assert dr.failures + dr.todo == dr.failures;
    OrderReturn(dr.failures, l.pushed, dr.mark);
  }

  lemma StepOrderly(c: Config, l: Lane, now: Time, step: LaneStep)
    requires Orderly(l) && LaneEnabled(l, step) && (step.Take? ==> l.drains == [])
    ensures Orderly(LaneApply(c, l, now, step))
  {
    match step
    case Push(e) => PushOrderly(c, l, e);
    case Process(d, ok) => ProcessOrderly(c, l, d, ok);
    case PutBack(d) => ReturnOrderly(l, d);
    case Take =>
      assert [] + Content(l) == Content(l);
      assert Since(l.pushed, |l.pushed|) == [];
    case _ =>
  }

  /** While drains of a destination do not overlap, its queue is always in push order. */
  lemma {:induction false} QueueInPushOrder(c: Config, s: State, steps: seq<Step>, slot: Slot)
    requires CanRun(c, s, steps) && Serial(c, s, steps, slot) && Orderly(LaneOf(s, slot))
    ensures Orderly(LaneOf(Run(c, s, steps), slot))
    ensures var l := LaneOf(Run(c, s, steps), slot); InPushOrder(Content(l), l.pushed, |l.pushed|)
    decreases steps
  {
    hide Orderly, LaneApply;
    if steps == [] {
      OrderlyMeans(LaneOf(s, slot));
    } else {
      if steps[0].At? && steps[0].slot == slot {
        StepOrderly(c, LaneOf(s, slot), s.now, steps[0].step);
      }
      QueueInPushOrder(c, Apply(c, s, steps[0]), steps[1..], slot);
    }
  }

  lemma OrderlyMeans(l: Lane)
    requires Orderly(l)
    ensures InPushOrder(Content(l), l.pushed, |l.pushed|)
  {
  }

  // ---- depth -------------------------------------------------------------------

  /** What the queue and its drains hold together. */
  ghost function Load(l: Lane): nat {
    |Entries(Content(l))| + |InDrains(l.drains)|
  }

  lemma {:induction false} EntriesSize(q: seq<Queued>)
    ensures |Entries(q)| == |q|
  {
    if q != [] { EntriesSize(q[..|q| - 1]); }
  }

  predicate Queues(c: Config, l: Lane, step: LaneStep) {
    step.Push? && !IsFull(c, |Content(l)|)
  }

  /** No payload for this destination is queued while a drain of it is in progress. */
  ghost predicate Quiet(c: Config, s: State, steps: seq<Step>, slot: Slot)
    requires CanRun(c, s, steps)
    decreases steps
  {
    steps != [] ==>
      && (steps[0].At? && steps[0].slot == slot && Queues(c, LaneOf(s, slot), steps[0].step) ==> LaneOf(s, slot).drains == [])
      && Quiet(c, Apply(c, s, steps[0]), steps[1..], slot)
  }

  lemma StepLoad(c: Config, l: Lane, now: Time, step: LaneStep)
    requires LaneEnabled(l, step) && (Queues(c, l, step) ==> l.drains == [])
    ensures var load := Load(LaneApply(c, l, now, step));
            load <= Load(l) || (Queues(c, l, step) && load == |Content(l)| + 1)
  {
    hide Entries, InDrains;
    match step
    case Push(e) => PushLoad(c, l, e);
    case Take => TakeLoad(c, l, now);
    case Process(d, ok) => ProcessLoad(c, l, d, ok);
    case PutBack(d) => ReturnLoad(l, d);
    case _ =>
  }

  lemma PushLoad(c: Config, l: Lane, e: Entry)
    requires IsFull(c, |Content(l)|) || l.drains == []
    ensures Load(Pushed(c, l, e)) == if IsFull(c, |Content(l)|) then Load(l) else |Content(l)| + 1
  {
    hide Entries, InDrains;
    EntriesSize(Content(l));
    EntriesSize(Content(Pushed(c, l, e)));
    NoEntries();
  }

  lemma TakeLoad(c: Config, l: Lane, now: Time)
    requires l.queue.Some?
    ensures Load(LaneApply(c, l, now, Take)) == Load(l)
  {
    hide Entries, InDrains;
    InDrainsMore(l.drains, Drain(now, Content(l), [], |l.pushed|));
    NoEntries();
  }

  lemma ReturnLoad(l: Lane, d: nat)
    requires d < |l.drains| && l.drains[d].todo == []
    ensures Load(Returned(l, d)) == Load(l)
  {
    hide Entries, InDrains;
    InDrainsAt(l.drains, d, l.drains[d]);
    EntriesConcat(l.drains[d].failures, Content(l));
    NoEntries();
  }

  lemma ProcessLoad(c: Config, l: Lane, d: nat, ok: bool)
    requires d < |l.drains| && l.drains[d].todo != []
    ensures Load(Processed(c, l, d, ok)) <= Load(l)
  {
    hide Entries, InDrains;
    var dr := l.drains[d];
    var e, rest := dr.todo[0], dr.todo[1..];
    InDrainsAt(l.drains, d, dr.(todo := rest));
    InDrainsAt(l.drains, d, dr.(todo := rest, failures := dr.failures + [e]));
    EntriesSize(dr.todo);
    EntriesSize(rest);
    EntriesSize(dr.failures);
    EntriesSize(dr.failures + [e]);
  }

  /** While no push lands during a drain, a queue never exceeds its depth, even if drains overlap. */
  lemma {:induction false} DepthKept(c: Config, s: State, steps: seq<Step>, slot: Slot)
    requires c.maxDepth.Some? && CanRun(c, s, steps) && Quiet(c, s, steps, slot)
    requires Load(LaneOf(s, slot)) <= c.maxDepth.value
    ensures Load(LaneOf(Run(c, s, steps), slot)) <= c.maxDepth.value
    ensures |Content(LaneOf(Run(c, s, steps), slot))| <= c.maxDepth.value
    decreases steps
  {
    hide LaneApply, Entries, InDrains;
    if steps == [] {
      EntriesSize(Content(LaneOf(s, slot)));
    } else {
      if steps[0].At? && steps[0].slot == slot {
        StepLoad(c, LaneOf(s, slot), s.now, steps[0].step);
      }
      DepthKept(c, Apply(c, s, steps[0]), steps[1..], slot);
    }
  }
}
