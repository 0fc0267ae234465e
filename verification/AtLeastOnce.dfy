/**
 One direct send, over as many sessions as its tries open, against a receiver that keeps
 working on all of them: which outcomes the sender can report, and how often the handler ran.
 Each session is a pair of FIFO channels that may lose messages; servers of abandoned sessions
 go on reading; the receiver handles other traffic in between.
 */
module AtLeastOnce {
  import opened Types
  import opened Node
  import AddrExchange
  import Dedup
  import Wire

  /** The send in question: who sends what to whom, and what either side says about its addresses. */
  datatype Job = Job(sender: PeerId, receiver: PeerId, crypto: Crypto, id: MsgId, data: Bytes,
                     senderAddrs: seq<AddrExchange.PeerAddress>, receiverAddrs: seq<AddrExchange.PeerAddress>)

  const ADDR_EXCHANGE_TIMEOUT: nat := 2
  const ACK_TIMEOUT: nat := 5
  const PASSES: nat := 3
  const BACKOFF: nat := 1
  const ACK: Bytes := []

  /** New ids have the high bit of their first byte set. */
  predicate NewId(id: MsgId) {
    id.bytes[0] >= 0x80
  }

  /** An id from random bytes. */
  function NewMessageId(random: Bytes8): (id: MsgId)
    ensures NewId(id) && id.bytes[1..] == random[1..] && id.bytes[0] as int % 0x80 == random[0] as int % 0x80
  {
    MsgId([if random[0] < 0x80 then random[0] + 0x80 else random[0]] + random[1..])
  }

  function Hello(j: Job): Bytes { AddrExchange.Encode(j.senderAddrs) }

  function Reply(j: Job): Bytes { AddrExchange.Encode(j.receiverAddrs) }

  function App(j: Job): Bytes { Wire.Encode(Wire.Message(j.id, Wire.Direct(j.data))) }


  /** Address exchanges are always taken for control frames, application frames never. */
  lemma FramesDoNotMix(j: Job)
    requires NewId(j.id)
    ensures IsControl(Hello(j)) && IsControl(Reply(j)) && !IsControl(App(j))
  {
  }

  // ---- states ------------------------------------------------------------------

  /**
   Where a try stands; `replied` says whether it read a reply to its address exchange, and `ack` is
   the message it took for the acknowledgement, if it got any.
   */
  datatype Client = AwaitReply(since: Time) | AwaitAck(replied: bool, since: Time) | Done(ack: Option<Bytes>, replied: bool)

  datatype Server = First | Serving | Closed

  datatype Session = Session(pass: nat, began: Time, client: Client, server: Server,
                             toServer: seq<Bytes>, toClient: seq<Bytes>)

  /** One application payload dispatched on session `session`, and the handler call it led to. */
  datatype Dispatched = Dispatched(session: nat, at: Time, payload: Bytes, call: Option<Call>)

  datatype State = State(now: Time, node: NodeState, sessions: seq<Session>, log: seq<Dispatched>, result: Option<bool>)

  datatype Step =
    | Connect(pass: nat)                    // a session is established and the address exchange written
    | NoConnection(pass: nat)               // connecting or the handshake fails
    | ReadReply(sent: bool)                 // a reply is read; `sent` says whether writing the frame works
    | NoReply(error: bool, sent: bool)      // the wait for the reply times out or fails
    | ReadAck                               // any message counts as the acknowledgement
    | NoAck(error: bool)                    // the wait for the acknowledgement times out or fails
    | Serve(i: nat)                         // the receiver reads the next message of session `i`
    | LoseToServer(i: nat, k: nat)
    | LoseToClient(i: nat, k: nat)
    | Break(i: nat)                         // the receiver's end of session `i` closes
    | Other(src: PeerId, m: Wire.Message)   // the receiver handles any other message
    | GiveUp                                // no candidate is left: the send reports failure
    | Tick(seconds: nat)

  function Last(s: State): Session
    requires s.sessions != []
  {
    s.sessions[|s.sessions| - 1]
  }

  /** No try is running and none has succeeded. */
  predicate Idle(s: State) {
    s.result.None? && (s.sessions == [] || (Last(s).client.Done? && Last(s).client.ack.None?))
  }

  predicate NextPass(s: State, pass: nat) {
    pass < PASSES && if s.sessions == [] then pass == 0 else pass == Last(s).pass || pass == Last(s).pass + 1
  }

  predicate Enabled(j: Job, s: State, step: Step) {
    match step
    case Connect(pass) => Idle(s) && NextPass(s, pass)
    case NoConnection(pass) => Idle(s) && NextPass(s, pass)
    case ReadReply(_) => s.sessions != [] && Last(s).client.AwaitReply? && Last(s).toClient != []
    case NoReply(error, _) =>
      && s.sessions != [] && Last(s).client.AwaitReply?
      && (error || s.now >= Last(s).client.since + ADDR_EXCHANGE_TIMEOUT)
    case ReadAck => s.sessions != [] && Last(s).client.AwaitAck? && Last(s).toClient != []
    case NoAck(error) =>
      && s.sessions != [] && Last(s).client.AwaitAck?
      && (error || s.now >= Last(s).client.since + ACK_TIMEOUT)
    case Serve(i) => i < |s.sessions| && !s.sessions[i].server.Closed? && s.sessions[i].toServer != []
    case LoseToServer(i, k) => i < |s.sessions| && k < |s.sessions[i].toServer|
    case LoseToClient(i, k) => i < |s.sessions| && k < |s.sessions[i].toClient|
    case Break(i) => i < |s.sessions|
    case Other(src, m) => !(src == j.sender && m.id == j.id && m.frame.Direct?)
    case GiveUp => Idle(s)
    case Tick(_) => true
  }

  // ---- steps -------------------------------------------------------------------

  function Opened(j: Job, pass: nat, now: Time): Session {
    Session(pass, now, AwaitReply(now), First, [Hello(j)], [])
  }

  function Refused(pass: nat, now: Time): Session {
    Session(pass, now, Done(None, false), Closed, [], [])
  }

  /** The client writes the application frame and waits, or gives the try up. */
  function Written(j: Job, se: Session, replied: bool, sent: bool, now: Time): Session {
    if sent then se.(client := AwaitAck(replied, now), toServer := se.toServer + [App(j)])
    else se.(client := Done(None, replied))
  }

  /** The client takes the next message, whatever it is, for the acknowledgement. */
  function Acked(se: Session): Session
    requires se.client.AwaitAck? && se.toClient != []
  {
    se.(client := Done(Some(se.toClient[0]), se.client.replied), toClient := se.toClient[1..])
  }

  /** Whether the next message goes to the dispatcher rather than the address exchange. */
  predicate Dispatches(se: Session)
    requires se.toServer != []
  {
    !(se.server.First? && IsControl(se.toServer[0]))
  }

  function Served(j: Job, se: Session): Session
    requires se.toServer != []
  {
    se.(server := Serving, toServer := se.toServer[1..],
        toClient := se.toClient + [if Dispatches(se) then ACK else Reply(j)])
  }

  function Without(ms: seq<Bytes>, k: nat): seq<Bytes>
    requires k < |ms|
  {
    ms[..k] + ms[k + 1..]
  }

  function Handled(j: Job, node: NodeState, payload: Bytes, now: Time): (NodeState, Option<Call>) {
    match Wire.Parse(payload)
    case None => (node, None)
    case Some(m) =>
      var e := Dispatch(j.crypto, j.receiver, true, node, j.sender, m, now);
      (e.node, e.call)
  }

  function WithLast(s: State, se: Session): State
    requires s.sessions != []
  {
    s.(sessions := s.sessions[|s.sessions| - 1 := se])
  }

  function Apply(j: Job, s: State, step: Step): State
    requires Enabled(j, s, step)
  {
    match step
    case Connect(pass) => s.(sessions := s.sessions + [Opened(j, pass, s.now)])
    case NoConnection(pass) => s.(sessions := s.sessions + [Refused(pass, s.now)])
    case ReadReply(sent) =>
      var se := Last(s);
      WithLast(s, Written(j, se.(toClient := se.toClient[1..]), true, sent, s.now))
    case NoReply(_, sent) => WithLast(s, Written(j, Last(s), false, sent, s.now))
    case ReadAck =>
      var se := Last(s);
      WithLast(s, Acked(se)).(result := Some(true))
    case NoAck(_) => WithLast(s, Last(s).(client := Done(None, Last(s).client.replied)))
    case Serve(i) =>
      var se := s.sessions[i];
      var s' := s.(sessions := s.sessions[i := Served(j, se)]);
      if Dispatches(se) then
        var (node, call) := Handled(j, s.node, se.toServer[0], s.now);
        s'.(node := node, log := s.log + [Dispatched(i, s.now, se.toServer[0], call)])
      else s'
    case LoseToServer(i, k) => s.(sessions := s.sessions[i := s.sessions[i].(toServer := Without(s.sessions[i].toServer, k))])
    case LoseToClient(i, k) => s.(sessions := s.sessions[i := s.sessions[i].(toClient := Without(s.sessions[i].toClient, k))])
    case Break(i) => s.(sessions := s.sessions[i := s.sessions[i].(server := Closed)])
    case Other(src, m) => s.(node := Dispatch(j.crypto, j.receiver, true, s.node, src, m, s.now).node)
    case GiveUp => s.(result := Some(false))
    case Tick(seconds) => s.(now := s.now + seconds)
  }

  predicate Initial(j: Job, s: State) {
    && NewId(j.id) && (j.sender, j.id) !in s.node.direct
    && s.sessions == [] && s.log == [] && s.result.None?
  }

  predicate CanRun(j: Job, s: State, steps: seq<Step>)
    decreases steps
  {
    steps != [] ==> Enabled(j, s, steps[0]) && CanRun(j, Apply(j, s, steps[0]), steps[1..])
  }

  function Run(j: Job, s: State, steps: seq<Step>): State
    requires CanRun(j, s, steps)
    decreases steps
  {
    if steps == [] then s else Run(j, Apply(j, s, steps[0]), steps[1..])
  }

  lemma {:induction false} RunBoth(j: Job, s: State, a: seq<Step>, b: seq<Step>)
    requires CanRun(j, s, a) && CanRun(j, Run(j, s, a), b)
    ensures CanRun(j, s, a + b) && Run(j, s, a + b) == Run(j, Run(j, s, a), b)
    decreases a
  {
    hide Apply, Enabled;
    if a == [] {
      assert a + b == b;
    } else {
      RunBoth(j, Apply(j, s, a[0]), a[1..], b);
      assert (a + b)[1..] == a[1..] + b;
    }
  }

  // ---- what the dispatches did -------------------------------------------------

  /** How often the handler ran for the message. */
  function Calls(log: seq<Dispatched>): nat {
    if log == [] then 0 else Calls(log[..|log| - 1]) + (if log[|log| - 1].call.Some? then 1 else 0)
  }

  /** Every dispatch falls within the window that the first one opened. */
  ghost predicate Within(log: seq<Dispatched>) {
    forall k :: 0 <= k < |log| ==> log[k].at < log[0].at + 60
  }

  /** Only the frame itself is dispatched, and the handler gets it from its sender. */
  ghost predicate Genuine(j: Job, log: seq<Dispatched>) {
    forall k :: 0 <= k < |log| ==>
      log[k].payload == App(j) && (log[k].call.Some? ==> log[k].call.value == Call(j.sender, j.data))
  }

  /** What the cache remembers of the message, against the log. */
  ghost predicate Remembered(key: (PeerId, MsgId), direct: map<(PeerId, MsgId), Time>, log: seq<Dispatched>, now: Time) {
    if log == [] then key !in direct
    else
      && log[0].at <= now && log[0].call.Some?
      && (Within(log) ==>
            && Calls(log) == 1
            && if key in direct then direct[key] == log[0].at else log[0].at + DEDUP_TTL <= now)
      && (!Within(log) ==> Calls(log) >= 2)
  }

  /** Checking the message itself. */
  lemma RememberSelf(key: (PeerId, MsgId), direct: map<(PeerId, MsgId), Time>, log: seq<Dispatched>, d: Dispatched)
    requires Remembered(key, direct, log, d.at)
    requires d.call.Some? <==> !Dedup.IsDuplicate(direct, key, d.at, DEDUP_TTL)
    ensures Remembered(key, Dedup.Checked(direct, key, d.at, DEDUP_TTL), log + [d], d.at)
  {
  }

  lemma RememberOtherDispatch(j: Job, node: NodeState, log: seq<Dispatched>, now: Time, src: PeerId, m: Wire.Message)
    requires Remembered((j.sender, j.id), node.direct, log, now)
    requires !(src == j.sender && m.id == j.id && m.frame.Direct?)
    ensures Remembered((j.sender, j.id), Dispatch(j.crypto, j.receiver, true, node, src, m, now).node.direct, log, now)
  {
  }

  lemma RememberDispatch(j: Job, node: NodeState, log: seq<Dispatched>, now: Time, i: nat)
    requires Remembered((j.sender, j.id), node.direct, log, now) && Genuine(j, log)
    ensures var (node', call) := Handled(j, node, App(j), now);
            var log' := log + [Dispatched(i, now, App(j), call)];
            Remembered((j.sender, j.id), node'.direct, log', now) && Genuine(j, log')
  {
    hide Remembered, Dedup.Checked, Dedup.IsDuplicate, App, Wire.Parse;
    assert Wire.Parse(App(j)) == Some(Wire.Message(j.id, Wire.Direct(j.data))) by { AppParses(j); }
    var (_, call) := Handled(j, node, App(j), now);
    RememberSelf((j.sender, j.id), node.direct, log, Dispatched(i, now, App(j), call));
  }

  lemma AppParses(j: Job)
    ensures Wire.Parse(App(j)) == Some(Wire.Message(j.id, Wire.Direct(j.data)))
  {
    Wire.ParseEncode(Wire.Message(j.id, Wire.Direct(j.data)));
  }
}
