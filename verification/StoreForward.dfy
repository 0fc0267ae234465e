/**
 Store-and-forward queues: the queue object with its operations, and a model in which calls and
 drains for many destinations interleave. Whatever the interleaving, every accepted payload is
 in exactly one place.
 */
module StoreForward {
  import opened Types

  /** A payload accepted for deferred delivery; neither id nor time ever changes. */
  datatype Entry = Entry(id: MsgId, payload: Bytes, queuedAt: Time)

  datatype Config = Config(storeTtl: nat, maxDepth: Option<nat>)

  datatype Fate = Expire | Deliver | Keep

  /** What a drain begun at `started` makes of an entry whose send would succeed or not. */
  function FateOf(c: Config, e: Entry, started: Time, ok: bool): Fate {
    if started > e.queuedAt && started - e.queuedAt > c.storeTtl then Expire
    else if ok then Deliver
    else Keep
  }

  predicate IsFull(c: Config, depth: nat) {
    c.maxDepth.Some? && depth >= c.maxDepth.value
  }

  // ---- the queue object --------------------------------------------------------

  function QueueOf(store: map<PeerId, seq<Entry>>, peer: PeerId): seq<Entry> {
    if peer in store then store[peer] else []
  }

  /** The entries that `fate` marks, in their order. */
  ghost function Select(c: Config, entries: seq<Entry>, started: Time, ok: Entry -> bool, fate: Fate): seq<Entry> {
    if entries == [] then []
    else
      var n := |entries| - 1;
      Select(c, entries[..n], started, ok, fate)
      + (if FateOf(c, entries[n], started, ok(entries[n])) == fate then [entries[n]] else [])
  }

  /** The entries that are too old, in their order. */
  ghost function Older(c: Config, entries: seq<Entry>, started: Time): (r: seq<Entry>)
    ensures forall e :: e in r <==> e in entries && e.queuedAt + c.storeTtl < started
  {
    if entries == [] then []
    else
      var n := |entries| - 1;
      assert entries == entries[..n] + [entries[n]];
      Older(c, entries[..n], started) + (if entries[n].queuedAt + c.storeTtl < started then [entries[n]] else [])
  }

  /** What becomes of an entry depends on its age first, then on its send. */
  lemma {:induction false} SelectIs(c: Config, entries: seq<Entry>, started: Time, ok: Entry -> bool, e: Entry)
    ensures e in Select(c, entries, started, ok, Deliver) <==> e in entries && started <= e.queuedAt + c.storeTtl && ok(e)
    ensures e in Select(c, entries, started, ok, Keep) <==> e in entries && started <= e.queuedAt + c.storeTtl && !ok(e)
  {
    if entries != [] {
      var n := |entries| - 1;
      SelectIs(c, entries[..n], started, ok, e);
      assert entries == entries[..n] + [entries[n]];
    }
  }

  lemma {:induction false} ExpiredAreOlder(c: Config, entries: seq<Entry>, started: Time, ok: Entry -> bool)
    ensures Select(c, entries, started, ok, Expire) == Older(c, entries, started)
  {
    if entries != [] { ExpiredAreOlder(c, entries[..|entries| - 1], started, ok); }
  }

  lemma SelectLast(c: Config, entries: seq<Entry>, started: Time, ok: Entry -> bool, fate: Fate)
    requires entries != []
    ensures var n := |entries| - 1; var e := entries[n];
            multiset(Select(c, entries, started, ok, fate)) == multiset(Select(c, entries[..n], started, ok, fate))
              + (if FateOf(c, e, started, ok(e)) == fate then multiset{e} else multiset{})
  {
    hide FateOf;
  }

  lemma {:induction false} SelectCounts(c: Config, entries: seq<Entry>, started: Time, ok: Entry -> bool)
    ensures multiset(entries) == multiset(Select(c, entries, started, ok, Deliver))
                                 + multiset(Select(c, entries, started, ok, Keep)) + multiset(Select(c, entries, started, ok, Expire))
  {
    if entries != [] {
      var n := |entries| - 1;
      assert entries == entries[..n] + [entries[n]];
      hide Select, FateOf;
      SelectCounts(c, entries[..n], started, ok);
      SelectLast(c, entries, started, ok, Deliver);
      SelectLast(c, entries, started, ok, Keep);
      SelectLast(c, entries, started, ok, Expire);
    }
  }

  /** Every entry is sent, kept or too old, and only one of these. */
  lemma SelectSplits(c: Config, entries: seq<Entry>, started: Time, ok: Entry -> bool)
    ensures Select(c, entries, started, ok, Expire) == Older(c, entries, started)
    ensures multiset(entries) == multiset(Select(c, entries, started, ok, Deliver))
                                 + multiset(Select(c, entries, started, ok, Keep)) + multiset(Older(c, entries, started))
  {
    ExpiredAreOlder(c, entries, started, ok);
    SelectCounts(c, entries, started, ok);
  }

  /** What a drain keeps: the entries that are not expired and whose sends fail or cannot be made. */
  ghost function Leftover(c: Config, entries: seq<Entry>, started: Time, reachable: bool, accepts: Entry -> bool): seq<Entry> {
    Select(c, entries, started, (e: Entry) => reachable && accepts(e), Keep)
  }

  /** Kept are exactly the entries that are young enough and were not taken. */
  lemma LeftoverIs(c: Config, entries: seq<Entry>, started: Time, reachable: bool, accepts: Entry -> bool, e: Entry)
    ensures e in Leftover(c, entries, started, reachable, accepts)
       <==> e in entries && started <= e.queuedAt + c.storeTtl && !(reachable && accepts(e))
  {
    SelectIs(c, entries, started, (x: Entry) => reachable && accepts(x), e);
  }

  class PendingStore {
    const config: Config
    var store: map<PeerId, seq<Entry>>
    var storeFailed: seq<PeerId>       // StoreFailed events fired so far

    constructor (config: Config)
      ensures this.config == config && store == map[] && storeFailed == []
    {
      this.config := config;
      store, storeFailed := map[], [];
    }

    /** Queues an entry unless the queue is full; then the entry is reported instead. */
    method Push(peer: PeerId, e: Entry) returns (queued: bool)
      modifies this
      ensures queued <==> config.maxDepth.None? || |QueueOf(old(store), peer)| < config.maxDepth.value
      ensures store == old(store)[peer := QueueOf(old(store), peer) + if queued then [e] else []]
      ensures storeFailed == old(storeFailed) + if queued then [] else [peer]
    {
      if peer !in store {
        store := store[peer := []];
      }
      assert store[peer] == QueueOf(old(store), peer) == QueueOf(old(store), peer) + [];
      if config.maxDepth.Some? && |store[peer]| >= config.maxDepth.value {
        storeFailed := storeFailed + [peer];
        return false;
      }
      store := store[peer := store[peer] + [e]];
      return true;
    }

    /** Sends at once if the peer is reachable and takes the payload; queues or reports it otherwise. */
    method StoreAndForward(peer: PeerId, payload: Bytes, id: MsgId, now: Time, reachable: bool, accepts: Entry -> bool)
      returns (delivered: bool)
      modifies this
      ensures var e := Entry(id, payload, now);
              var queued := !delivered && (config.maxDepth.None? || |QueueOf(old(store), peer)| < config.maxDepth.value);
              && (delivered <==> reachable && accepts(e))
              && QueueOf(store, peer) == QueueOf(old(store), peer) + (if queued then [e] else [])
              && (forall p :: p != peer ==> QueueOf(store, p) == QueueOf(old(store), p))
              && storeFailed == old(storeFailed) + if delivered || queued then [] else [peer]
    {
      var e := Entry(id, payload, now);
      if reachable {
        if accepts(e) {
          return true;
        }
      }
      var _ := Push(peer, e);
      return false;
    }

    /** Removes the whole queue of a peer. */
    method Take(peer: PeerId) returns (entries: Option<seq<Entry>>)
      modifies this`store
      ensures store == old(store) - {peer}
      ensures entries == if peer in old(store) then Some(old(store)[peer]) else None
    {
      if peer !in store {
        return None;
      }
      entries := Some(store[peer]);
      store := store - {peer};
    }

    /** Puts entries back at the front, the last one first, so that their order is kept. */
    method PutBack(peer: PeerId, failures: seq<Entry>)
      modifies this`store
      ensures store == if failures == [] then old(store) else old(store)[peer := failures + QueueOf(old(store), peer)]
    {
      if failures == [] {
        return;
      }
      if peer !in store {
        store := store[peer := []];
      }
      var i := |failures|;
      ghost var q := QueueOf(old(store), peer);
      assert failures[i..] + q == q == store[peer];
      while i > 0
        invariant 0 <= i <= |failures|
        invariant store == old(store)[peer := failures[i..] + q]
      {
        i := i - 1;
        assert [failures[i]] + (failures[i + 1..] + q) == failures[i..] + q;
        store := store[peer := [failures[i]] + store[peer]];
      }
    }

    /** Goes through the entries taken: reports the expired ones and returns those still to deliver. */
    method Process(peer: PeerId, entries: seq<Entry>, started: Time, reachable: bool, accepts: Entry -> bool)
      returns (failures: seq<Entry>, sent: seq<Entry>)
      modifies this`storeFailed
      ensures var ok := (e: Entry) => reachable && accepts(e);
              failures == Select(config, entries, started, ok, Keep) && sent == Select(config, entries, started, ok, Deliver)
      ensures forall e :: e in sent <==> e in entries && started <= e.queuedAt + config.storeTtl && reachable && accepts(e)
      ensures forall e :: e in failures <==> e in entries && started <= e.queuedAt + config.storeTtl && !(reachable && accepts(e))
      ensures multiset(entries) == multiset(sent) + multiset(failures) + multiset(Older(config, entries, started))
      ensures |storeFailed| == |old(storeFailed)| + |Older(config, entries, started)|
      ensures old(storeFailed) <= storeFailed
      ensures forall i :: |old(storeFailed)| <= i < |storeFailed| ==> storeFailed[i] == peer
    {
      failures, sent := [], [];
      ghost var ok := (e: Entry) => reachable && accepts(e);
      var i := 0;
      while i < |entries|
        invariant 0 <= i <= |entries|
        invariant failures == Select(config, entries[..i], started, ok, Keep)
        invariant sent == Select(config, entries[..i], started, ok, Deliver)
        invariant |storeFailed| == |old(storeFailed)| + |Select(config, entries[..i], started, ok, Expire)|
        invariant old(storeFailed) <= storeFailed
        invariant forall k :: |old(storeFailed)| <= k < |storeFailed| ==> storeFailed[k] == peer
      {
        var e := entries[i];
        assert entries[..i + 1][..i] == entries[..i];
        var age := if started > e.queuedAt then started - e.queuedAt else 0;
        if age > config.storeTtl {
          storeFailed := storeFailed + [peer];
        } else if !reachable {
          failures := failures + [e];
        } else if accepts(e) {
          sent := sent + [e];
        } else {
          failures := failures + [e];
        }
        i := i + 1;
      }
      assert entries[..i] == entries;
      SelectSplits(config, entries, started, ok);
      forall e ensures e in sent <==> e in entries && started <= e.queuedAt + config.storeTtl && reachable && accepts(e)
               ensures e in failures <==> e in entries && started <= e.queuedAt + config.storeTtl && !(reachable && accepts(e))
      {
        SelectIs(config, entries, started, ok, e);
      }
    }

    /** A drain that nothing interrupts keeps exactly the entries whose sends failed, in order. */
    method DrainPeer(peer: PeerId, now: Time, reachable: bool, accepts: Entry -> bool)
      modifies this
      ensures QueueOf(store, peer) == Leftover(config, QueueOf(old(store), peer), now, reachable, accepts)
      ensures forall e :: e in QueueOf(store, peer) <==>
                e in QueueOf(old(store), peer) && now <= e.queuedAt + config.storeTtl && !(reachable && accepts(e))
      ensures |storeFailed| == |old(storeFailed)| + |Older(config, QueueOf(old(store), peer), now)|
      ensures forall p :: p != peer ==> QueueOf(store, p) == QueueOf(old(store), p)
    {
      var entries := Take(peer);
      if entries.Some? {
        var failures, _ := Process(peer, entries.value, now, reachable, accepts);
        PutBack(peer, failures);
        assert failures + [] == failures;
      }
    }

    /**
     Drains the destinations one after the other, in whatever order they are listed. Clock and
     neighbours are read again for each, and the sends of each have their own outcomes.
     */
    method DrainAll(dests: seq<PeerId>, now: PeerId -> Time, reachable: PeerId -> bool, accepts: PeerId -> Entry -> bool)
      requires Distinct(dests)
      modifies this
      ensures forall p :: QueueOf(store, p) ==
                if p in dests then Leftover(config, QueueOf(old(store), p), now(p), reachable(p), accepts(p))
                else QueueOf(old(store), p)
    {
      var i := 0;
      while i < |dests|
        invariant 0 <= i <= |dests|
        invariant forall p :: QueueOf(store, p) ==
                    if p in dests[..i] then Leftover(config, QueueOf(old(store), p), now(p), reachable(p), accepts(p))
                    else QueueOf(old(store), p)
      {
        hide Leftover, QueueOf;
        var d := dests[i];
        assert dests[..i + 1] == dests[..i] + [d] && d !in dests[..i];
        DrainPeer(d, now(d), reachable(d), accepts(d));
        i := i + 1;
      }
      assert dests[..i] == dests;
    }
  }

  // ---- interleaved calls and drains --------------------------------------------

  /** An entry in a queue, with its position in the log of all pushes to that queue. */
  datatype Queued = Queued(entry: Entry, stamp: nat)

  /** A drain in progress; `mark` is how many pushes there had been when it took the queue. */
  datatype Drain = Drain(started: Time, todo: seq<Queued>, failures: seq<Queued>, mark: nat)

  datatype Reason = Expired(at: Time) | Overflow(depth: nat)

  /** One StoreFailed event. */
  datatype Failure = Failure(entry: Entry, reason: Reason)

  /** A payload that was sent: by the call that accepted it, or by a drain and when that began. */
  datatype Delivery = Delivery(entry: Entry, drain: Option<Time>)

  /** Everything about one destination: its queue, what calls and drains hold, and what became of the rest. */
  datatype Lane = Lane(
    queue: Option<seq<Queued>>,
    held: multiset<Entry>,
    drains: seq<Drain>,
    delivered: seq<Delivery>,
    failed: seq<Failure>,
    accepted: multiset<Entry>,
    pushed: seq<Entry>)

  const IDLE := Lane(None, multiset{}, [], [], [], multiset{}, [])

  datatype LaneStep =
    | Accept(id: MsgId, payload: Bytes)   // the call begins
    | SendNow(e: Entry)                   // its own attempt to send succeeds
    | Push(e: Entry)                      // its attempt failed or was impossible: under the lock, queue or report
    | Take                                // a drain removes the queue
    | Process(d: nat, ok: bool)           // drain `d` deals with its next entry
    | PutBack(d: nat)                     // drain `d` is through and returns its failures

  function Content(l: Lane): seq<Queued> {
    if l.queue.Some? then l.queue.value else []
  }

  predicate LaneEnabled(l: Lane, step: LaneStep) {
    match step
    case Accept(_, _) => true
    case SendNow(e) => e in l.held
    case Push(e) => e in l.held
    case Take => l.queue.Some?
    case Process(d, _) => d < |l.drains| && l.drains[d].todo != []
    case PutBack(d) => d < |l.drains| && l.drains[d].todo == []
  }

  function Pushed(c: Config, l: Lane, e: Entry): Lane {
    var q := Content(l);
    if IsFull(c, |q|) then
      l.(queue := Some(q), held := l.held - multiset{e}, failed := l.failed + [Failure(e, Overflow(|q|))])
    else
      l.(queue := Some(q + [Queued(e, |l.pushed|)]), held := l.held - multiset{e}, pushed := l.pushed + [e])
  }

  function Processed(c: Config, l: Lane, d: nat, ok: bool): Lane
    requires d < |l.drains| && l.drains[d].todo != []
  {
    var dr := l.drains[d];
    var e, rest := dr.todo[0], dr.todo[1..];
    match FateOf(c, e.entry, dr.started, ok)
    case Expire =>
      l.(drains := l.drains[d := dr.(todo := rest)], failed := l.failed + [Failure(e.entry, Expired(dr.started))])
    case Deliver =>
      l.(drains := l.drains[d := dr.(todo := rest)], delivered := l.delivered + [Delivery(e.entry, Some(dr.started))])
    case Keep => l.(drains := l.drains[d := dr.(todo := rest, failures := dr.failures + [e])])
  }

  function Returned(l: Lane, d: nat): Lane
    requires d < |l.drains|
  {
    var failures := l.drains[d].failures;
    l.(drains := l.drains[..d] + l.drains[d + 1..],
       queue := if failures == [] then l.queue else Some(failures + Content(l)))
  }

  function LaneApply(c: Config, l: Lane, now: Time, step: LaneStep): Lane
    requires LaneEnabled(l, step)
  {
    match step
    case Accept(id, payload) =>
      var e := multiset{Entry(id, payload, now)};
      l.(held := l.held + e, accepted := l.accepted + e)
    case SendNow(e) => l.(held := l.held - multiset{e}, delivered := l.delivered + [Delivery(e, None)])
    case Push(e) => Pushed(c, l, e)
    case Take => l.(queue := None, drains := l.drains + [Drain(now, Content(l), [], |l.pushed|)])
    case Process(d, ok) => Processed(c, l, d, ok)
    case PutBack(d) => Returned(l, d)
  }

  /** A destination of direct or of routed payloads. */
  datatype Slot = Slot(routed: bool, dest: PeerId)

  datatype State = State(now: Time, lanes: map<Slot, Lane>)

  datatype Step = At(slot: Slot, step: LaneStep) | Tick(seconds: nat)

  function LaneOf(s: State, slot: Slot): Lane {
    if slot in s.lanes then s.lanes[slot] else IDLE
  }

  predicate Enabled(s: State, step: Step) {
    step.At? ==> LaneEnabled(LaneOf(s, step.slot), step.step)
  }

  function Apply(c: Config, s: State, step: Step): State
    requires Enabled(s, step)
  {
    match step
    case At(slot, st) => s.(lanes := s.lanes[slot := LaneApply(c, LaneOf(s, slot), s.now, st)])
    case Tick(seconds) => s.(now := s.now + seconds)
  }

  predicate CanRun(c: Config, s: State, steps: seq<Step>)
    decreases steps
  {
    steps != [] ==> Enabled(s, steps[0]) && CanRun(c, Apply(c, s, steps[0]), steps[1..])
  }

  function Run(c: Config, s: State, steps: seq<Step>): State
    requires CanRun(c, s, steps)
    decreases steps
  {
    if steps == [] then s else Run(c, Apply(c, s, steps[0]), steps[1..])
  }

  // ---- conservation ------------------------------------------------------------

  ghost function Entries(q: seq<Queued>): multiset<Entry> {
    if q == [] then multiset{} else Entries(q[..|q| - 1]) + multiset{q[|q| - 1].entry}
  }

  ghost function Reported(fs: seq<Failure>): multiset<Entry> {
    if fs == [] then multiset{} else Reported(fs[..|fs| - 1]) + multiset{fs[|fs| - 1].entry}
  }

  ghost function Delivered(ds: seq<Delivery>): multiset<Entry> {
    if ds == [] then multiset{} else Delivered(ds[..|ds| - 1]) + multiset{ds[|ds| - 1].entry}
  }

  ghost function InDrains(ds: seq<Drain>): multiset<Entry> {
    if ds == [] then multiset{}
    else InDrains(ds[..|ds| - 1]) + InDrain(ds[|ds| - 1])
  }

  /** Accepted entries are queued, held by a call, held by a drain, delivered or reported. */
  ghost predicate Conserved(l: Lane) {
    l.accepted == Entries(Content(l)) + l.held + InDrains(l.drains) + Delivered(l.delivered) + Reported(l.failed)
  }

  /** Reports are justified by age or by a full queue. */
  ghost predicate Justified(c: Config, fs: seq<Failure>) {
    forall i :: 0 <= i < |fs| ==>
      match fs[i].reason
      case Expired(at) => at - fs[i].entry.queuedAt > c.storeTtl
      case Overflow(depth) => c.maxDepth.Some? && depth >= c.maxDepth.value
  }

  lemma EntriesMore(q: seq<Queued>, x: Queued)
    ensures Entries(q + [x]) == Entries(q) + multiset{x.entry}
  {
  }

  lemma {:induction false} EntriesConcat(a: seq<Queued>, b: seq<Queued>)
    ensures Entries(a + b) == Entries(a) + Entries(b)
  {
    if b == [] {
      assert a + b == a;
    } else {
      var rest, x := b[..|b| - 1], b[|b| - 1];
      assert b == rest + [x] && a + b == (a + rest) + [x];
      hide Entries;
      EntriesConcat(a, rest);
      EntriesMore(rest, x);
      EntriesMore(a + rest, x);
    }
  }

  lemma NoEntries()
    ensures Entries([]) == multiset{} && InDrains([]) == multiset{}
  {
  }

  lemma EntriesOne(q: Queued)
    ensures Entries([q]) == multiset{q.entry}
  {
  }

  ghost function InDrain(d: Drain): multiset<Entry> {
    Entries(d.todo) + Entries(d.failures)
  }

  lemma InDrainsMore(ds: seq<Drain>, d: Drain)
    ensures InDrains(ds + [d]) == InDrains(ds) + InDrain(d)
  {
  }

  lemma {:induction false} InDrainsConcat(a: seq<Drain>, b: seq<Drain>)
    ensures InDrains(a + b) == InDrains(a) + InDrains(b)
  {
    if b == [] {
      assert a + b == a;
    } else {
      var rest, x := b[..|b| - 1], b[|b| - 1];
      assert b == rest + [x] && a + b == (a + rest) + [x];
      hide InDrains, InDrain;
      InDrainsConcat(a, rest);
      InDrainsMore(rest, x);
      InDrainsMore(a + rest, x);
    }
  }

  /** Changing one drain changes what drains hold by what that drain holds. */
  lemma InDrainsAt(ds: seq<Drain>, d: nat, dr: Drain)
    requires d < |ds|
    ensures var rest := InDrains(ds[..d] + ds[d + 1..]);
            InDrains(ds) == rest + InDrain(ds[d]) && InDrains(ds[d := dr]) == rest + InDrain(dr)
  {
    hide InDrains, InDrain;
    var a, b := ds[..d], ds[d + 1..];
    InDrainsConcat(a, b);
    assert ds == a + [ds[d]] + b && ds[d := dr] == a + [dr] + b;
    InDrainsMore(a, ds[d]);
    InDrainsMore(a, dr);
    InDrainsConcat(a + [ds[d]], b);
    InDrainsConcat(a + [dr], b);
  }

  lemma ReportedMore(fs: seq<Failure>, f: Failure)
    ensures Reported(fs + [f]) == Reported(fs) + multiset{f.entry}
  {
  }

  lemma DeliveredMore(ds: seq<Delivery>, d: Delivery)
    ensures Delivered(ds + [d]) == Delivered(ds) + multiset{d.entry}
  {
    assert (ds + [d])[..|ds|] == ds;
  }

  lemma PushConserves(c: Config, l: Lane, e: Entry)
    requires Conserved(l) && e in l.held
    ensures Conserved(Pushed(c, l, e))
  {
    hide InDrains, Entries, Reported, Delivered;
    var q := Content(l);
    if IsFull(c, |q|) {
      ReportedMore(l.failed, Failure(e, Overflow(|q|)));
    } else {
      EntriesConcat(q, [Queued(e, |l.pushed|)]);
      EntriesOne(Queued(e, |l.pushed|));
    }
  }

  lemma ProcessConserves(c: Config, l: Lane, d: nat, ok: bool)
    requires Conserved(l) && d < |l.drains| && l.drains[d].todo != []
    ensures Conserved(Processed(c, l, d, ok))
  {
    hide InDrains, Entries, Reported, Delivered;
    var dr := l.drains[d];
    var e, rest := dr.todo[0], dr.todo[1..];
    assert dr.todo == [e] + rest;
    EntriesConcat([e], rest);
    EntriesOne(e);
    EntriesConcat(dr.failures, [e]);
    InDrainsAt(l.drains, d, dr.(todo := rest));
    InDrainsAt(l.drains, d, dr.(todo := rest, failures := dr.failures + [e]));
    ReportedMore(l.failed, Failure(e.entry, Expired(dr.started)));
    DeliveredMore(l.delivered, Delivery(e.entry, Some(dr.started)));
  }

  lemma ReturnConserves(l: Lane, d: nat)
    requires Conserved(l) && d < |l.drains| && l.drains[d].todo == []
    ensures Conserved(Returned(l, d))
  {
    InDrainsAt(l.drains, d, l.drains[d]);
    EntriesConcat(l.drains[d].failures, Content(l));
    hide InDrains, Reported, Delivered;
  }

  lemma TakeConserves(c: Config, l: Lane, now: Time)
    requires Conserved(l) && l.queue.Some?
    ensures Conserved(LaneApply(c, l, now, Take))
  {
    hide Entries;
    var dr := Drain(now, Content(l), [], |l.pushed|);
    InDrainsMore(l.drains, dr);
    NoEntries();
    hide InDrains, Reported, Delivered;
  }

  lemma StepConserves(c: Config, l: Lane, now: Time, step: LaneStep)
    requires LaneEnabled(l, step) && Conserved(l)
    ensures Conserved(LaneApply(c, l, now, step))
  {
    hide Conserved;
    match step
    case Push(e) => PushConserves(c, l, e);
    case Take => TakeConserves(c, l, now);
    case Process(d, ok) => ProcessConserves(c, l, d, ok);
    case PutBack(d) => ReturnConserves(l, d);
    case _ => CallConserves(c, l, now, step);
  }

  lemma CallConserves(c: Config, l: Lane, now: Time, step: LaneStep)
    requires LaneEnabled(l, step) && Conserved(l) && (step.Accept? || step.SendNow?)
    ensures Conserved(LaneApply(c, l, now, step))
  {
    hide InDrains, Entries, Reported, Delivered;
    if step.SendNow? { DeliveredMore(l.delivered, Delivery(step.e, None)); }
  }

  lemma StepJustifies(c: Config, l: Lane, now: Time, step: LaneStep)
    requires LaneEnabled(l, step) && Justified(c, l.failed)
    ensures Justified(c, LaneApply(c, l, now, step).failed)
  {
  }

  /** In every reachable state nothing accepted is lost or doubled, for every destination. */
  lemma {:induction false} NothingLost(c: Config, s: State, steps: seq<Step>, slot: Slot)
    requires CanRun(c, s, steps) && Conserved(LaneOf(s, slot)) && Justified(c, LaneOf(s, slot).failed)
    ensures Conserved(LaneOf(Run(c, s, steps), slot)) && Justified(c, LaneOf(Run(c, s, steps), slot).failed)
    decreases steps
  {
    hide Conserved, Justified, LaneApply;
    if steps != [] {
      if steps[0].At? && steps[0].slot == slot {
        StepConserves(c, LaneOf(s, slot), s.now, steps[0].step);
        StepJustifies(c, LaneOf(s, slot), s.now, steps[0].step);
      }
      NothingLost(c, Apply(c, s, steps[0]), steps[1..], slot);
    }
  }

  /** A payload accepted once is in exactly one place: queued, held, in a drain, delivered or reported. */
  lemma InExactlyOnePlace(c: Config, now: Time, steps: seq<Step>, slot: Slot, e: Entry)
    requires CanRun(c, State(now, map[]), steps)
    requires LaneOf(Run(c, State(now, map[]), steps), slot).accepted[e] == 1
    ensures var l := LaneOf(Run(c, State(now, map[]), steps), slot);
            Entries(Content(l))[e] + l.held[e] + InDrains(l.drains)[e] + Delivered(l.delivered)[e] + Reported(l.failed)[e] == 1
  {
    hide Run, CanRun;
    NothingLost(c, State(now, map[]), steps, slot);
  }

  // ---- nothing is sent late ----------------------------------------------------

  /** No drain has sent, or is about to put back, an entry that was too old when the drain began. */
  ghost predicate OnTime(c: Config, l: Lane) {
    && (forall i :: 0 <= i < |l.delivered| && l.delivered[i].drain.Some? ==>
          l.delivered[i].drain.value <= l.delivered[i].entry.queuedAt + c.storeTtl)
    && forall d, i :: 0 <= d < |l.drains| && 0 <= i < |l.drains[d].failures| ==>
          l.drains[d].started <= l.drains[d].failures[i].entry.queuedAt + c.storeTtl
  }

  /** A drain's next entry: reported if too old, else sent if the send works, else kept; and nothing else. */
  lemma ProcessExactly(c: Config, l: Lane, d: nat, ok: bool)
    requires d < |l.drains| && l.drains[d].todo != []
    ensures var dr, l' := l.drains[d], Processed(c, l, d, ok);
            var e := dr.todo[0].entry;
            var late := e.queuedAt + c.storeTtl < dr.started;
            && |l'.drains| == |l.drains| && l'.drains[d].todo == dr.todo[1..] && l'.drains[d].started == dr.started
            && l'.failed == l.failed + (if late then [Failure(e, Expired(dr.started))] else [])
            && l'.delivered == l.delivered + (if !late && ok then [Delivery(e, Some(dr.started))] else [])
            && l'.drains[d].failures == dr.failures + (if !late && !ok then [dr.todo[0]] else [])
            && forall k :: 0 <= k < |l.drains| && k != d ==> l'.drains[k] == l.drains[k]
  {
  }

  lemma StepOnTime(c: Config, l: Lane, now: Time, step: LaneStep)
    requires LaneEnabled(l, step) && OnTime(c, l)
    ensures OnTime(c, LaneApply(c, l, now, step))
  {
    match step
    case Process(d, ok) =>
      ProcessExactly(c, l, d, ok);
      hide Processed, FateOf;
    case _ =>
  }

  /** In every run, no drain ever sends an entry queued more than the time to live before the drain began. */
  lemma {:induction false} NothingSentLate(c: Config, s: State, steps: seq<Step>, slot: Slot)
    requires CanRun(c, s, steps) && OnTime(c, LaneOf(s, slot))
    ensures OnTime(c, LaneOf(Run(c, s, steps), slot))
    decreases steps
  {
    hide OnTime, LaneApply;
    if steps != [] {
      if steps[0].At? && steps[0].slot == slot { StepOnTime(c, LaneOf(s, slot), s.now, steps[0].step); }
      NothingSentLate(c, Apply(c, s, steps[0]), steps[1..], slot);
    }
  }
}
