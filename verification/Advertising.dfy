/**
 The BLE advertising bearer's demultiplexer. One shared broadcast medium is split into virtual
 connections per source; each packet carries destination and source short ids in front. What
 the connections of a source receive, taken together, is proved to be a filter of the scan.
 */
module Advertising {
  import opened Types
  import Dedup

  /** The first eight bytes of a peer id. */
  datatype ShortId = ShortId(bytes: Bytes8)

  /** Seconds for which a packet with the same source and payload hash is suppressed. */
  const REPEAT_TTL: nat := 2

  function EncodeHeader(dest: ShortId, source: ShortId): Bytes {
    dest.bytes + source.bytes
  }

  function DecodeHeader(packet: Bytes): (r: Option<(ShortId, ShortId, Bytes)>)
    ensures r.Some? <==> |packet| >= 16
    ensures r.Some? ==> r.value.0.bytes == packet[..8] && r.value.1.bytes == packet[8..16] && r.value.2 == packet[16..]
  {
    if |packet| < 16 then None else Some((ShortId(packet[0..8]), ShortId(packet[8..16]), packet[16..]))
  }

  lemma HeaderRoundTrip(dest: ShortId, source: ShortId, payload: Bytes)
    ensures DecodeHeader(EncodeHeader(dest, source) + payload) == Some((dest, source, payload))
  {
    var p := EncodeHeader(dest, source) + payload;
    assert p[0..8] == dest.bytes && p[8..16] == source.bytes && p[16..] == payload;
  }

  /** A packet that decodes is its header and its payload. */
  lemma HeaderReencodes(packet: Bytes)
    requires DecodeHeader(packet).Some?
    ensures var (dest, source, payload) := DecodeHeader(packet).value; EncodeHeader(dest, source) + payload == packet
  {
  }

  /** A virtual connection ever opened: its peer and everything queued for it. */
  datatype Conn = Conn(peer: ShortId, queue: seq<Bytes>)

  /** `open` maps a source to its current connection, an index into `conns`; `accepted` are those opened by a packet. */
  datatype State = State(
    local: Option<ShortId>,
    conns: seq<Conn>,
    open: map<ShortId, nat>,
    accepted: seq<nat>,
    recent: map<(ShortId, nat), Time>,
    announced: seq<ShortId>)

  const FRESH: State := State(None, [], map[], [], map[], [])

  predicate IndexesOk(s: State) {
    forall p :: p in s.open ==> s.open[p] < |s.conns|
  }

  /** `dialled` are the connects that land between a packet's lookup of its connection and its queueing. */
  datatype Event =
    | Start(id: ShortId)
    | Stop
    | Connect(peer: ShortId)
    | Scan(packet: Bytes, at: Time, dialled: seq<ShortId>)

  /** The packet comes from someone else and was not seen within the window. */
  predicate Observed(s: State, hash: Bytes -> nat, packet: Bytes, at: Time) {
    && s.local.Some? && DecodeHeader(packet).Some?
    && var (dest, source, payload) := DecodeHeader(packet).value;
       source != s.local.value && !Dedup.IsDuplicate(s.recent, (source, hash(payload)), at, REPEAT_TTL)
  }

  /** Observed, and addressed to this node. */
  predicate Admitted(s: State, hash: Bytes -> nat, packet: Bytes, at: Time) {
    Observed(s, hash, packet, at) && DecodeHeader(packet).value.0 == s.local.value
  }

  function Dial(s: State, peer: ShortId): State {
    s.(conns := s.conns + [Conn(peer, [])], open := s.open[peer := |s.conns|])
  }

  function DialAll(s: State, peers: seq<ShortId>): (r: State)
    ensures |r.conns| == |s.conns| + |peers| && r.conns[..|s.conns|] == s.conns
    ensures forall j :: |s.conns| <= j < |r.conns| ==> r.conns[j].queue == []
    ensures IndexesOk(s) ==> IndexesOk(r)
    ensures r.local == s.local && r.accepted == s.accepted && r.recent == s.recent && r.announced == s.announced
  {
    if peers == [] then s else Dial(DialAll(s, peers[..|peers| - 1]), peers[|peers| - 1])
  }

  function Lookup(s: State, source: ShortId): Option<nat> {
    if source in s.open then Some(s.open[source]) else None
  }

  /** A payload goes to the connection that was found, or opens one that is offered to accept. */
  function Place(s: State, found: Option<nat>, source: ShortId, payload: Bytes): State
    requires found.Some? ==> found.value < |s.conns|
  {
    match found
    case Some(i) => s.(conns := s.conns[i := s.conns[i].(queue := s.conns[i].queue + [payload])])
    case None =>
      s.(conns := s.conns + [Conn(source, [payload])],
         open := s.open[source := |s.conns|], accepted := s.accepted + [|s.conns|])
  }

  /** The lookup, the connects that land meanwhile, the queueing. */
  function Enqueue(s: State, source: ShortId, payload: Bytes, dialled: seq<ShortId>): (r: State)
    requires IndexesOk(s)
    ensures IndexesOk(r)
  {
    Place(DialAll(s, dialled), Lookup(s, source), source, payload)
  }

  /** The repeat window and the announcement that a packet leads to. */
  function Noted(s: State, hash: Bytes -> nat, packet: Bytes, at: Time): State {
    if s.local.None? then s
    else
      match DecodeHeader(packet)
      case None => s
      case Some((dest, source, payload)) =>
        if source == s.local.value then s
        else
          var key := (source, hash(payload));
          s.(recent := Dedup.Checked(s.recent, key, at, REPEAT_TTL),
             announced := s.announced + if Dedup.IsDuplicate(s.recent, key, at, REPEAT_TTL) then [] else [source])
  }

  function OnPacket(s: State, hash: Bytes -> nat, packet: Bytes, at: Time, dialled: seq<ShortId>): (r: State)
    requires IndexesOk(s)
    ensures IndexesOk(r)
  {
    if s.local.None? then s
    else if Admitted(s, hash, packet, at) then
      var (_, source, payload) := DecodeHeader(packet).value;
      Enqueue(Noted(s, hash, packet, at), source, payload, dialled)
    else DialAll(Noted(s, hash, packet, at), dialled)
  }

  function Step(s: State, hash: Bytes -> nat, e: Event): (r: State)
    requires IndexesOk(s)
    ensures IndexesOk(r)
  {
    match e
    case Start(id) => s.(local := Some(id), recent := map[])
    case Stop => s.(local := None, open := map[])
    case Connect(peer) => if s.local.None? then s else Dial(s, peer)
    case Scan(packet, at, dialled) => OnPacket(s, hash, packet, at, dialled)
  }

  // ---- the transport object ----------------------------------------------------

  class BleAdvertisingTransport {
    var state: State
    const hash: Bytes -> nat

    constructor (hash: Bytes -> nat)
      ensures state == FRESH && this.hash == hash
    {
      this.hash := hash;
      state := FRESH;
    }

    method StartWith(id: ShortId)
      requires IndexesOk(state)
      modifies this
      ensures state == Step(old(state), hash, Start(id))
    {
      state := state.(local := Some(id));
      state := state.(recent := map[]);
    }

    method StopAll()
      requires IndexesOk(state)
      modifies this
      ensures state == Step(old(state), hash, Stop) && IndexesOk(state)
    {
      state := state.(local := None);
      state := state.(open := map[]);
    }

    /** Opens a connection to `peer`; fails when the address is malformed or the transport is not started. */
    method ConnectTo(peer: Option<ShortId>) returns (conn: Option<nat>)
      requires IndexesOk(state)
      modifies this
      ensures conn.Some? <==> peer.Some? && old(state).local.Some?
      ensures IndexesOk(state)
      ensures peer.Some? ==> state == Step(old(state), hash, Connect(peer.value))
      ensures if conn.Some? then conn.value == |old(state).conns| else state == old(state)
    {
      if peer.None? || state.local.None? {
        return None;
      }
      conn := Some(|state.conns|);
      state := state.(open := state.open[peer.value := |state.conns|], conns := state.conns + [Conn(peer.value, [])]);
    }

    /** Connects made by other tasks while a packet is being dispatched. */
    method ConnectEach(peers: seq<ShortId>)
      requires IndexesOk(state) && state.local.Some?
      modifies this
      ensures IndexesOk(state) && state == DialAll(old(state), peers)
    {
      var i := 0;
      while i < |peers|
        invariant 0 <= i <= |peers| && IndexesOk(state) && state == DialAll(old(state), peers[..i])
      {
        assert peers[..i + 1][..i] == peers[..i];
        var _ := ConnectTo(Some(peers[i]));
        i := i + 1;
      }
      assert peers[..i] == peers;
    }

    /** Dispatches scanned packets one after the other. */
    method DispatchLoop(packets: seq<(Bytes, Time, seq<ShortId>)>)
      requires IndexesOk(state) && state.local.Some?
      modifies this
      ensures IndexesOk(state)
      ensures state == Run(old(state), hash, ScansOf(packets))
    {
      var i := 0;
      while i < |packets|
        invariant 0 <= i <= |packets| && IndexesOk(state) && state.local == old(state).local
        invariant state == Run(old(state), hash, ScansOf(packets[..i]))
      {
        assert packets[..i + 1][..i] == packets[..i];
        Dispatch(packets[i].0, packets[i].1, packets[i].2);
        i := i + 1;
      }
      assert packets[..i] == packets;
    }

    /** Filters a packet and announces its source; returns source and payload if it is for this node. */
    method Admit(packet: Bytes, at: Time) returns (r: Option<(ShortId, Bytes)>)
      requires state.local.Some?
      modifies this
      ensures state == Noted(old(state), hash, packet, at)
      ensures r == if Admitted(old(state), hash, packet, at)
                   then Some((DecodeHeader(packet).value.1, DecodeHeader(packet).value.2)) else None
    {
      if |packet| < 16 {
        return None;
      }
      var dest, source, payload := ShortId(packet[0..8]), ShortId(packet[8..16]), packet[16..];
      if source == state.local.value {
        return None;
      }
      var recent := map k | k in state.recent && Dedup.Live(state.recent[k], at, REPEAT_TTL) :: state.recent[k];
      var key := (source, hash(payload));
      if key in recent {
        state := state.(recent := recent);
        assert state.announced + [] == state.announced;
        return None;
      }
      state := state.(recent := recent[key := at]);
      state := state.(announced := state.announced + [source]);
      return if dest != state.local.value then None else Some((source, payload));
    }

    /** Dispatches one packet; `dialled` are the connects that land between lookup and queueing. */
    method Dispatch(packet: Bytes, at: Time, dialled: seq<ShortId>)
      requires IndexesOk(state) && state.local.Some?
      modifies this
      ensures IndexesOk(state) && state.local == old(state).local
      ensures state == OnPacket(old(state), hash, packet, at, dialled)
    {
      hide Admitted, DecodeHeader, Dedup.Checked, Dedup.IsDuplicate;
      var r := Admit(packet, at);
      if r.None? {
        ConnectEach(dialled);
        return;
      }
      var (source, payload) := r.value;
      var existing := if source in state.open then Some(state.open[source]) else None;
      ConnectEach(dialled);
      if existing.Some? {
        var i := existing.value;
        state := state.(conns := state.conns[i := state.conns[i].(queue := state.conns[i].queue + [payload])]);
      } else {
        var i := |state.conns|;
        state := state.(conns := state.conns + [Conn(source, [payload])]);
        state := state.(open := state.open[source := i]);
        state := state.(accepted := state.accepted + [i]);
      }
    }
  }

  function ScansOf(packets: seq<(Bytes, Time, seq<ShortId>)>): seq<Event> {
    if packets == [] then []
    else
      var last := packets[|packets| - 1];
      ScansOf(packets[..|packets| - 1]) + [Scan(last.0, last.1, last.2)]
  }

  // ---- runs --------------------------------------------------------------------

  function Run(s: State, hash: Bytes -> nat, es: seq<Event>): (r: State)
    requires IndexesOk(s)
    ensures IndexesOk(r)
  {
    if es == [] then s else Step(Run(s, hash, es[..|es| - 1]), hash, es[|es| - 1])
  }

  /** Everything queued for `source`, over its connections in the order they were opened. */
  function Stream(conns: seq<Conn>, source: ShortId): seq<Bytes> {
    if conns == [] then []
    else
      var last := conns[|conns| - 1];
      Stream(conns[..|conns| - 1], source) + (if last.peer == source then last.queue else [])
  }

  /** The payload an event adds for `source`. */
  function Contribution(s: State, hash: Bytes -> nat, e: Event, source: ShortId): seq<Bytes> {
    if e.Scan? && Admitted(s, hash, e.packet, e.at) then
      var (_, from, payload) := DecodeHeader(e.packet).value;
      if from == source then [payload] else []
    else []
  }

  // ---- the reference: a filter of the events -----------------------------------

  /** The local id while the transport is started. */
  function Local(es: seq<Event>): Option<ShortId> {
    if es == [] then None
    else
      match es[|es| - 1]
      case Start(id) => Some(id)
      case Stop => None
      case _ => Local(es[..|es| - 1])
  }

  /** The packet is well formed, somebody else's, and scanned while the transport is started. */
  predicate Heard(local: Option<ShortId>, e: Event) {
    e.Scan? && local.Some? && DecodeHeader(e.packet).Some? && DecodeHeader(e.packet).value.1 != local.value
  }

  /** The packets heard since the last start, as (source, payload hash) at a time. */
  function Checks(hash: Bytes -> nat, es: seq<Event>): seq<Dedup.Check<(ShortId, nat)>> {
    if es == [] then []
    else
      var before, e := es[..|es| - 1], es[|es| - 1];
      if e.Start? then []
      else if Heard(Local(before), e) then
        var (_, source, payload) := DecodeHeader(e.packet).value;
        Checks(hash, before) + [Dedup.Check((source, hash(payload)), e.at)]
      else Checks(hash, before)
  }

  /** The last event is a packet heard whose like was not let through within the window. */
  ghost predicate LetThrough(hash: Bytes -> nat, es: seq<Event>) {
    && es != [] && Heard(Local(es[..|es| - 1]), es[|es| - 1])
    && var checks := Checks(hash, es); Dedup.Accepted(checks, |checks| - 1, 2)
  }

  /** The payloads from `source` to the local id that the window lets through, in order. */
  ghost function Filtered(hash: Bytes -> nat, es: seq<Event>, source: ShortId): seq<Bytes> {
    if es == [] then []
    else
      var before, e := es[..|es| - 1], es[|es| - 1];
      Filtered(hash, before, source) +
        (if LetThrough(hash, es) then
           var (dest, from, payload) := DecodeHeader(e.packet).value;
           if from == source && dest == Local(before).value then [payload] else []
         else [])
  }

  /** The sources of the packets that the window lets through, in order, whomever they are for. */
  ghost function Sources(hash: Bytes -> nat, es: seq<Event>): seq<ShortId> {
    if es == [] then []
    else
      Sources(hash, es[..|es| - 1]) +
        (if LetThrough(hash, es) then [DecodeHeader(es[|es| - 1].packet).value.1] else [])
  }

  ghost predicate Chronological(es: seq<Event>) {
    forall i, j :: 0 <= i <= j < |es| && es[i].Scan? && es[j].Scan? ==> es[i].at <= es[j].at
  }

  lemma {:induction false} ChecksChronological(hash: Bytes -> nat, es: seq<Event>, now: Time)
    requires Chronological(es) && forall i :: 0 <= i < |es| && es[i].Scan? ==> es[i].at <= now
    ensures Dedup.Monotone(Checks(hash, es))
    ensures forall k :: 0 <= k < |Checks(hash, es)| ==> Checks(hash, es)[k].at <= now
  {
    if es != [] {
      var e := es[|es| - 1];
      ChecksChronological(hash, es[..|es| - 1], if e.Scan? then e.at else now);
    }
  }

  lemma StepCache(s: State, hash: Bytes -> nat, e: Event)
    requires IndexesOk(s)
    ensures Step(s, hash, e).local == (match e case Start(id) => Some(id) case Stop => None case _ => s.local)
    ensures Step(s, hash, e).recent ==
            if e.Start? then map[]
            else if Heard(s.local, e) then
              var (_, source, payload) := DecodeHeader(e.packet).value;
              Dedup.Checked(s.recent, (source, hash(payload)), e.at, REPEAT_TTL)
            else s.recent
  {
    hide DecodeHeader, Dedup.Checked, Dedup.IsDuplicate;
  }

  /** The transport's id and repeat cache are what the events make them. */
  lemma {:induction false} StateFollowsEvents(hash: Bytes -> nat, es: seq<Event>)
    ensures Run(FRESH, hash, es).local == Local(es)
    ensures Run(FRESH, hash, es).recent == Dedup.Replay(Checks(hash, es), REPEAT_TTL)
  {
    if es != [] {
      hide DecodeHeader, Step, Heard, Dedup.Checked;
      var before, e := es[..|es| - 1], es[|es| - 1];
      StateFollowsEvents(hash, before);
      StepCache(Run(FRESH, hash, before), hash, e);
      var checks := Checks(hash, es);
      if Heard(Local(before), e) && !e.Start? {
        assert checks[..|checks| - 1] == Checks(hash, before);
      }
    }
  }

  lemma ObservedIffLetThrough(hash: Bytes -> nat, es: seq<Event>)
    requires es != [] && Chronological(es)
    ensures var before, e := es[..|es| - 1], es[|es| - 1];
            (e.Scan? && Observed(Run(FRESH, hash, before), hash, e.packet, e.at)) <==> LetThrough(hash, es)
  {
    hide DecodeHeader;
    var before, e := es[..|es| - 1], es[|es| - 1];
    StateFollowsEvents(hash, before);
    if Heard(Local(before), e) {
      var checks := Checks(hash, es);
      ChecksChronological(hash, es, e.at);
      assert checks[..|checks| - 1] == Checks(hash, before);
      Dedup.AnswersHistory(checks, REPEAT_TTL);
    }
  }

  lemma StepAnnounces(s: State, hash: Bytes -> nat, e: Event)
    requires IndexesOk(s)
    ensures Step(s, hash, e).announced == s.announced +
              (if e.Scan? && Observed(s, hash, e.packet, e.at) then [DecodeHeader(e.packet).value.1] else [])
  {
    hide DecodeHeader, Dedup.Checked, Dedup.IsDuplicate;
    assert s.announced + [] == s.announced;
  }

  /** For every event sequence the announcements are the sources of the packets let through, in order. */
  lemma {:induction false} AnnouncedAreSources(hash: Bytes -> nat, es: seq<Event>)
    requires Chronological(es)
    ensures Run(FRESH, hash, es).announced == Sources(hash, es)
  {
    if es != [] {
      hide Step, DecodeHeader, Observed, LetThrough;
      var before := es[..|es| - 1];
      AnnouncedAreSources(hash, before);
      StepAnnounces(Run(FRESH, hash, before), hash, es[|es| - 1]);
      ObservedIffLetThrough(hash, es);
    }
  }

  /** A source's open connection is its newest. */
  ghost predicate OpenIsNewest(s: State) {
    forall p :: p in s.open ==>
      && s.open[p] < |s.conns| && s.conns[s.open[p]].peer == p
      && forall i :: s.open[p] < i < |s.conns| ==> s.conns[i].peer != p
  }

  /** Queueing on a connection of a source behind which only empty ones follow appends to its stream and to no other. */
  lemma {:induction false} StreamAppend(conns: seq<Conn>, i: nat, payload: Bytes, source: ShortId)
    requires i < |conns| && forall j :: i < j < |conns| && conns[j].peer == conns[i].peer ==> conns[j].queue == []
    ensures Stream(conns[i := conns[i].(queue := conns[i].queue + [payload])], source)
         == Stream(conns, source) + (if source == conns[i].peer then [payload] else [])
  {
    var n := |conns| - 1;
    var conns' := conns[i := conns[i].(queue := conns[i].queue + [payload])];
    if i == n {
      assert conns'[..n] == conns[..n];
    } else {
      StreamAppend(conns[..n], i, payload, source);
      assert conns'[..n] == conns[..n][i := conns'[i]];
      assert conns'[n] == conns[n];
    }
  }

  lemma StreamOpen(conns: seq<Conn>, conn: Conn, source: ShortId)
    ensures Stream(conns + [conn], source) == Stream(conns, source) + (if conn.peer == source then conn.queue else [])
  {
  }

  lemma DialNewest(s: State, peer: ShortId, queue: seq<Bytes>)
    requires OpenIsNewest(s)
    ensures OpenIsNewest(s.(conns := s.conns + [Conn(peer, queue)], open := s.open[peer := |s.conns|]))
  {
  }

  /** Dialling opens empty connections: no stream changes. */
  lemma {:induction false} DialStreams(s: State, peers: seq<ShortId>, source: ShortId)
    requires OpenIsNewest(s)
    ensures OpenIsNewest(DialAll(s, peers)) && Stream(DialAll(s, peers).conns, source) == Stream(s.conns, source)
  {
    if peers != [] {
      var n := |peers| - 1;
      hide OpenIsNewest, Stream;
      DialStreams(s, peers[..n], source);
      DialNewest(DialAll(s, peers[..n]), peers[n], []);
      StreamOpen(DialAll(s, peers[..n]).conns, Conn(peers[n], []), source);
    }
  }

  lemma QueueNewest(s: State, i: nat, queue: seq<Bytes>)
    requires OpenIsNewest(s) && i < |s.conns|
    ensures OpenIsNewest(s.(conns := s.conns[i := s.conns[i].(queue := queue)]))
  {
  }

  /** Behind the connection that the lookup found there are only other peers' and newly dialled ones. */
  lemma FoundIsLast(s: State, from: ShortId, dialled: seq<ShortId>)
    requires IndexesOk(s) && OpenIsNewest(s) && from in s.open
    ensures var conns, i := DialAll(s, dialled).conns, s.open[from];
            && conns[i].peer == from
            && forall j :: i < j < |conns| && conns[j].peer == conns[i].peer ==> conns[j].queue == []
  {
    var d := DialAll(s, dialled);
    assert forall j :: 0 <= j < |s.conns| ==> d.conns[..|s.conns|][j] == d.conns[j];
  }

  /** Queueing on the connection that the lookup found. */
  lemma FoundStreams(s: State, from: ShortId, payload: Bytes, dialled: seq<ShortId>, source: ShortId)
    requires IndexesOk(s) && OpenIsNewest(s) && from in s.open
    ensures OpenIsNewest(Enqueue(s, from, payload, dialled))
    ensures Stream(Enqueue(s, from, payload, dialled).conns, source)
         == Stream(s.conns, source) + (if from == source then [payload] else [])
  {
    hide OpenIsNewest, Stream, DialAll;
    var d, i := DialAll(s, dialled), s.open[from];
    DialStreams(s, dialled, source);
    FoundIsLast(s, from, dialled);
    QueueNewest(d, i, d.conns[i].queue + [payload]);
    StreamAppend(d.conns, i, payload, source);
  }

  lemma EnqueueStreams(s: State, from: ShortId, payload: Bytes, dialled: seq<ShortId>, source: ShortId)
    requires IndexesOk(s) && OpenIsNewest(s)
    ensures OpenIsNewest(Enqueue(s, from, payload, dialled))
    ensures Stream(Enqueue(s, from, payload, dialled).conns, source)
         == Stream(s.conns, source) + (if from == source then [payload] else [])
  {
    if from in s.open {
      FoundStreams(s, from, payload, dialled, source);
    } else {
      hide OpenIsNewest, Stream;
      DialStreams(s, dialled, source);
      DialNewest(DialAll(s, dialled), from, [payload]);
      StreamOpen(DialAll(s, dialled).conns, Conn(from, [payload]), source);
    }
  }

  /** Filtering a packet leaves the connections alone. */
  lemma NotedConns(s: State, hash: Bytes -> nat, packet: Bytes, at: Time)
    ensures var s' := Noted(s, hash, packet, at);
            s'.conns == s.conns && s'.open == s.open && s'.accepted == s.accepted && s'.local == s.local
  {
  }

  lemma StepStreams(s: State, hash: Bytes -> nat, e: Event, source: ShortId)
    requires IndexesOk(s) && OpenIsNewest(s)
    ensures OpenIsNewest(Step(s, hash, e))
    ensures Stream(Step(s, hash, e).conns, source) == Stream(s.conns, source) + Contribution(s, hash, e, source)
  {
    hide Stream, Enqueue, Noted, DecodeHeader;
    var same := Stream(s.conns, source);
    assert same + [] == same;
    match e
    case Connect(peer) =>
      StreamOpen(s.conns, Conn(peer, []), source);
      DialNewest(s, peer, []);
    case Scan(packet, at, dialled) =>
      NotedConns(s, hash, packet, at);
      var told := Noted(s, hash, packet, at);
      if Admitted(s, hash, packet, at) {
        var (_, from, payload) := DecodeHeader(packet).value;
        EnqueueStreams(told, from, payload, dialled, source);
      } else {
        DialStreams(told, dialled, source);
      }
    case _ =>
  }

  /**
   For every sequence of starts, stops, connects and scanned packets: the queues of a
   source's connections, one after the other, are the in-order payloads of the well-formed
   packets from that source to the local id that the repeat window did not suppress.
   */
  lemma {:induction false} StreamsAreFiltered(hash: Bytes -> nat, es: seq<Event>, source: ShortId)
    requires Chronological(es)
    ensures Stream(Run(FRESH, hash, es).conns, source) == Filtered(hash, es, source)
    ensures OpenIsNewest(Run(FRESH, hash, es))
  {
    if es != [] {
      hide Step, Stream, DecodeHeader, OpenIsNewest;
      var before := es[..|es| - 1];
      StreamsAreFiltered(hash, before, source);
      StepStreams(Run(FRESH, hash, before), hash, es[|es| - 1], source);
      ObservedIffLetThrough(hash, es);
      StateFollowsEvents(hash, before);
    }
  }

  // ---- accepted connections ----------------------------------------------------

  function AcceptedFrom(s: State, source: ShortId): nat {
    Count(s.conns, s.accepted, source)
  }

  function Count(conns: seq<Conn>, accepted: seq<nat>, source: ShortId): nat {
    if accepted == [] then 0
    else
      var i := accepted[|accepted| - 1];
      Count(conns, accepted[..|accepted| - 1], source) + (if i < |conns| && conns[i].peer == source then 1 else 0)
  }

  function Stops(es: seq<Event>): nat {
    if es == [] then 0 else Stops(es[..|es| - 1]) + (if es[|es| - 1].Stop? then 1 else 0)
  }

  ghost predicate AcceptedOk(s: State) {
    forall j :: 0 <= j < |s.accepted| ==> s.accepted[j] < |s.conns|
  }

  /** Connections keep their peers, so counts only see the accepts themselves. */
  lemma {:induction false} CountSame(a: seq<Conn>, b: seq<Conn>, accepted: seq<nat>, source: ShortId)
    requires forall j :: 0 <= j < |accepted| ==>
               accepted[j] < |a| && accepted[j] < |b| && a[accepted[j]].peer == b[accepted[j]].peer
    ensures Count(a, accepted, source) == Count(b, accepted, source)
  {
    if accepted != [] {
      CountSame(a, b, accepted[..|accepted| - 1], source);
    }
  }

  /** The event has the loop open a connection for `source`. */
  predicate Accepts(s: State, hash: Bytes -> nat, e: Event, source: ShortId) {
    && e.Scan? && Admitted(s, hash, e.packet, e.at)
    && DecodeHeader(e.packet).value.1 == source && source !in s.open
  }

  lemma {:induction false} DialKeeps(s: State, peers: seq<ShortId>, p: ShortId)
    ensures p in s.open ==> p in DialAll(s, peers).open
  {
    if peers != [] { DialKeeps(s, peers[..|peers| - 1], p); }
  }

  lemma DialAccepts(s: State, peers: seq<ShortId>, source: ShortId)
    requires AcceptedOk(s)
    ensures AcceptedOk(DialAll(s, peers)) && AcceptedFrom(DialAll(s, peers), source) == AcceptedFrom(s, source)
  {
    var d := DialAll(s, peers);
    assert forall j :: 0 <= j < |s.conns| ==> d.conns[..|s.conns|][j] == d.conns[j];
    CountSame(s.conns, d.conns, s.accepted, source);
  }

  lemma PlaceAccepts(s: State, found: Option<nat>, from: ShortId, payload: Bytes, source: ShortId)
    requires AcceptedOk(s) && (found.Some? ==> found.value < |s.conns|)
    ensures var s' := Place(s, found, from, payload);
            AcceptedOk(s') && AcceptedFrom(s', source) == AcceptedFrom(s, source) + (if found.None? && from == source then 1 else 0)
  {
    var s' := Place(s, found, from, payload);
    CountSame(s.conns, s'.conns, s.accepted, source);
    if found.None? { assert s'.accepted[..|s'.accepted| - 1] == s.accepted; }
  }

  /** An accept happens exactly when a packet is admitted whose source had no open connection at the lookup. */
  lemma AcceptsExactly(s: State, hash: Bytes -> nat, e: Event, source: ShortId)
    requires IndexesOk(s) && AcceptedOk(s)
    ensures var s' := Step(s, hash, e);
            && AcceptedOk(s')
            && AcceptedFrom(s', source) == AcceptedFrom(s, source) + (if Accepts(s, hash, e, source) then 1 else 0)
            && (Accepts(s, hash, e, source) ==> source in s'.open)
            && (!e.Stop? && source in s.open ==> source in s'.open)
  {
    hide Count, DecodeHeader, Noted;
    match e
    case Connect(peer) => CountSame(s.conns, Step(s, hash, e).conns, s.accepted, source);
    case Scan(packet, at, dialled) =>
      NotedConns(s, hash, packet, at);
      var told := Noted(s, hash, packet, at);
      DialKeeps(told, dialled, source);
      DialAccepts(told, dialled, source);
      if Admitted(s, hash, packet, at) {
        var (_, from, payload) := DecodeHeader(packet).value;
        PlaceAccepts(DialAll(told, dialled), Lookup(told, from), from, payload, source);
      }
    case _ =>
  }

  /**
   From any state on, until the transport is stopped, a source yields at most one accepted connection,
   and none if it had an open one; this holds whatever is dialled in between.
   */
  lemma {:induction false} AcceptedOncePerInterval(s: State, hash: Bytes -> nat, es: seq<Event>, source: ShortId)
    requires IndexesOk(s) && AcceptedOk(s) && Stop !in es
    ensures var s' := Run(s, hash, es);
            && AcceptedOk(s') && (source in s.open ==> source in s'.open)
            && AcceptedFrom(s', source) <= AcceptedFrom(s, source) + (if source !in s.open && source in s'.open then 1 else 0)
  {
    if es != [] {
      hide Step, Accepts, Count;
      var before := es[..|es| - 1];
      assert es[|es| - 1] in es;
      AcceptedOncePerInterval(s, hash, before, source);
      AcceptsExactly(Run(s, hash, before), hash, es[|es| - 1], source);
      AcceptsMeans(Run(s, hash, before), hash, es[|es| - 1], source);
    }
  }

  lemma AcceptsMeans(s: State, hash: Bytes -> nat, e: Event, source: ShortId)
    ensures Accepts(s, hash, e, source) ==> source !in s.open
  {
  }

  /** In total a source yields at most one accepted connection for every stop, and one more while it is open. */
  lemma {:induction false} AcceptedPerStop(hash: Bytes -> nat, es: seq<Event>, source: ShortId)
    ensures var s := Run(FRESH, hash, es);
            AcceptedOk(s) && AcceptedFrom(s, source) <= Stops(es) + (if source in s.open then 1 else 0)
  {
    if es != [] {
      hide Step, Accepts, Count;
      AcceptedPerStop(hash, es[..|es| - 1], source);
      AcceptsExactly(Run(FRESH, hash, es[..|es| - 1]), hash, es[|es| - 1], source);
      AcceptsMeans(Run(FRESH, hash, es[..|es| - 1]), hash, es[|es| - 1], source);
    }
  }

  /**
   A connection dialled after a packet of its peer was looked up, and before it is queued, loses: the
   packet's own connection is accepted and takes its place, and the dialled one receives nothing.
   */
  lemma DialLosesRace(s: State, hash: Bytes -> nat, packet: Bytes, at: Time, source: ShortId)
    requires IndexesOk(s) && OpenIsNewest(s) && AcceptedOk(s) && Accepts(s, hash, Scan(packet, at, [source]), source)
    ensures var s' := Step(s, hash, Scan(packet, at, [source]));
            && AcceptedFrom(s', source) == AcceptedFrom(s, source) + 1
            && s'.conns[|s.conns|..] == [Conn(source, []), Conn(source, [DecodeHeader(packet).value.2])]
            && s'.open[source] == |s.conns| + 1
  {
    AcceptsExactly(s, hash, Scan(packet, at, [source]), source);
    NotedConns(s, hash, packet, at);
    hide DecodeHeader, Noted, AcceptedFrom;
    assert [source][..0] == [];
  }

  /** A stop closes all connections: after a restart the next packet let through to this node, whosever it is, opens a new one. */
  lemma StopCloses(s: State, hash: Bytes -> nat, id: ShortId, e: Event)
    requires IndexesOk(s) && AcceptedOk(s) && e.Scan?
    requires Admitted(Run(s, hash, [Stop, Start(id)]), hash, e.packet, e.at)
    ensures var s1 := Run(s, hash, [Stop, Start(id)]);
            var source := DecodeHeader(e.packet).value.1;
            && AcceptedOk(s1) && AcceptedFrom(s1, source) == AcceptedFrom(s, source)
            && AcceptedFrom(Step(s1, hash, e), source) == AcceptedFrom(s, source) + 1
  {
    hide DecodeHeader, Count;
    var s1 := Step(Step(s, hash, Stop), hash, Start(id));
    assert [Stop, Start(id)][..1] == [Stop] && [Stop][..0] == [];
    assert Run(s, hash, []) == s && Run(s, hash, [Stop]) == Step(s, hash, Stop);
    assert Run(s, hash, [Stop, Start(id)]) == s1;
    AcceptsExactly(s1, hash, e, DecodeHeader(e.packet).value.1);
  }
}
