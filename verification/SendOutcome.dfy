/**
 What a send's outcome says about the receiver's handler, in every interleaved run: it ran at
 most once exactly when all dispatches fell within the dedup window, and a success that read
 its address-exchange reply means it ran.
 */
module SendOutcome {
  import opened Types
  import opened Node
  import opened AtLeastOnce
  import KeyRegistry

  ghost predicate ServedIn(log: seq<Dispatched>, i: nat) {
    exists k :: 0 <= k < |log| && log[k].session == i
  }

  /** Before the frame is written only the address exchange is under way. */
  predicate Greeting(hello: Bytes, se: Session) {
    && |se.toServer| + |se.toClient| <= 1
    && (se.toServer != [] ==> se.toServer[0] == hello)
    && (se.server.First? ==> se.toClient == [])
    && (se.server.Serving? ==> se.toServer == [])
  }

  /** After the reply was read nothing but acknowledgements can come back. */
  ghost predicate Settled(app: Bytes, se: Session) {
    && !se.server.First?
    && (se.toServer != [] ==> se.toServer[0] == app)
    && forall k :: 0 <= k < |se.toClient| ==> se.toClient[k] == ACK
  }

  /** The server says two things: its addresses, and, once it has dispatched something, acknowledgements. */
  predicate Answer(reply: Bytes, served: bool, m: Bytes) {
    m == reply || (m == ACK && served)
  }

  ghost predicate Answers(reply: Bytes, served: bool, se: Session) {
    forall k :: 0 <= k < |se.toClient| ==> Answer(reply, served, se.toClient[k])
  }

  /** Towards the server go application frames, after at most one address exchange. */
  ghost predicate Framed(hello: Bytes, app: Bytes, se: Session) {
    forall k :: 0 <= k < |se.toServer| ==>
      se.toServer[k] == app || (k == 0 && se.toServer[k] == hello && !se.server.Serving?)
  }

  ghost predicate SessionOk(hello: Bytes, app: Bytes, reply: Bytes, served: bool, se: Session) {
    && Framed(hello, app, se) && Answers(reply, served, se)
    && match se.client
       case AwaitReply(_) => Greeting(hello, se)
       case AwaitAck(replied, _) => replied ==> Settled(app, se)
       case Done(ack, replied) =>
         && (replied ==> Settled(app, se))
         && (ack.Some? ==> Answer(reply, served, ack.value) && (replied ==> ack.value == ACK))
  }

  lemma WrittenOk(j: Job, se: Session, replied: bool, sent: bool, now: Time, served: bool)
    requires SessionOk(Hello(j), App(j), Reply(j), served, se) && se.client.AwaitReply?
    requires replied ==> se.toClient != []
    ensures var se' := if replied then se.(toClient := se.toClient[1..]) else se;
            SessionOk(Hello(j), App(j), Reply(j), served, Written(j, se', replied, sent, now))
  {
    hide Hello, App, Reply;
  }

  lemma ServedOk(j: Job, se: Session, served: bool)
    requires NewId(j.id) && SessionOk(Hello(j), App(j), Reply(j), served, se) && !se.server.Closed? && se.toServer != []
    ensures SessionOk(Hello(j), App(j), Reply(j), served || Dispatches(se), Served(j, se))
    ensures Dispatches(se) ==> se.toServer[0] == App(j)
  {
  }

  lemma LostOk(j: Job, se: Session, served: bool, k: nat)
    requires SessionOk(Hello(j), App(j), Reply(j), served, se)
    ensures k < |se.toServer| ==> SessionOk(Hello(j), App(j), Reply(j), served, se.(toServer := Without(se.toServer, k)))
    ensures k < |se.toClient| ==> SessionOk(Hello(j), App(j), Reply(j), served, se.(toClient := Without(se.toClient, k)))
    ensures SessionOk(Hello(j), App(j), Reply(j), served, se.(server := Closed))
  {
    hide Hello, App, Reply;
  }

  lemma AckOk(j: Job, se: Session, served: bool)
    requires SessionOk(Hello(j), App(j), Reply(j), served, se) && se.client.AwaitAck?
    ensures SessionOk(Hello(j), App(j), Reply(j), served, se.(client := Done(None, se.client.replied)))
    ensures se.toClient != [] ==> SessionOk(Hello(j), App(j), Reply(j), served, Acked(se))
  {
    hide Hello, App, Reply;
  }

  lemma NewOk(j: Job, pass: nat, now: Time, served: bool)
    ensures SessionOk(Hello(j), App(j), Reply(j), served, Opened(j, pass, now))
    ensures SessionOk(Hello(j), App(j), Reply(j), served, Refused(pass, now))
  {
    hide Hello, App, Reply;
  }

  // ---- all sessions ------------------------------------------------------------

  ghost predicate SessionsOk(j: Job, sessions: seq<Session>, log: seq<Dispatched>) {
    forall i :: 0 <= i < |sessions| ==> SessionOk(Hello(j), App(j), Reply(j), ServedIn(log, i), sessions[i])
  }

  lemma MoreServed(j: Job, log: seq<Dispatched>, d: Dispatched, i: nat, se: Session)
    requires SessionOk(Hello(j), App(j), Reply(j), ServedIn(log, i), se)
    ensures SessionOk(Hello(j), App(j), Reply(j), ServedIn(log + [d], i), se)
    ensures ServedIn(log + [d], i) <==> ServedIn(log, i) || d.session == i
  {
    hide Hello, App, Framed, Greeting;
    var log' := log + [d];
    assert log'[|log|] == d;
    if ServedIn(log, i) {
      var k :| 0 <= k < |log| && log[k].session == i;
      assert log'[k].session == i;
    }
  }

  lemma SessionChanged(j: Job, sessions: seq<Session>, log: seq<Dispatched>, i: nat, se: Session)
    requires SessionsOk(j, sessions, log) && i < |sessions| && SessionOk(Hello(j), App(j), Reply(j), ServedIn(log, i), se)
    ensures SessionsOk(j, sessions[i := se], log)
  {
    hide SessionOk, ServedIn, Hello, App, Reply;
  }

  lemma SessionAdded(j: Job, sessions: seq<Session>, log: seq<Dispatched>, se: Session)
    requires SessionsOk(j, sessions, log) && SessionOk(Hello(j), App(j), Reply(j), ServedIn(log, |sessions|), se)
    ensures SessionsOk(j, sessions + [se], log)
  {
    hide SessionOk, ServedIn, Hello, App, Reply;
    var more := sessions + [se];
    forall i | 0 <= i < |more| ensures SessionOk(Hello(j), App(j), Reply(j), ServedIn(log, i), more[i]) {
      if i < |sessions| { assert more[i] == sessions[i]; }
    }
  }

  lemma DispatchLogged(j: Job, sessions: seq<Session>, log: seq<Dispatched>, d: Dispatched)
    requires SessionsOk(j, sessions, log)
    ensures SessionsOk(j, sessions, log + [d])
  {
    forall i | 0 <= i < |sessions| ensures SessionOk(Hello(j), App(j), Reply(j), ServedIn(log + [d], i), sessions[i]) {
      MoreServed(j, log, d, i, sessions[i]);
    }
  }

  lemma ServeKeepsSessions(j: Job, s: State, i: nat)
    requires NewId(j.id) && SessionsOk(j, s.sessions, s.log) && Enabled(j, s, Serve(i))
    ensures var s' := Apply(j, s, Serve(i)); SessionsOk(j, s'.sessions, s'.log)
  {
    hide SessionOk, ServedIn, Handled, Served, SessionsOk;
    var se := s.sessions[i];
    assert SessionOk(Hello(j), App(j), Reply(j), ServedIn(s.log, i), se) by { SessionAt(j, s, i); }
    ServedOk(j, se, ServedIn(s.log, i));
    if Dispatches(se) {
      var (_, call) := Handled(j, s.node, se.toServer[0], s.now);
      var d := Dispatched(i, s.now, se.toServer[0], call);
      DispatchLogged(j, s.sessions, s.log, d);
      MoreServed(j, s.log, d, i, se);
      SessionChanged(j, s.sessions, s.log + [d], i, Served(j, se));
    } else {
      SessionChanged(j, s.sessions, s.log, i, Served(j, se));
    }
  }

  lemma SessionAt(j: Job, s: State, i: nat)
    requires SessionsOk(j, s.sessions, s.log) && i < |s.sessions|
    ensures SessionOk(Hello(j), App(j), Reply(j), ServedIn(s.log, i), s.sessions[i])
  {
  }

  lemma NewTryKeepsSessions(j: Job, s: State, step: Step)
    requires SessionsOk(j, s.sessions, s.log) && Enabled(j, s, step) && (step.Connect? || step.NoConnection?)
    ensures var s' := Apply(j, s, step); SessionsOk(j, s'.sessions, s'.log)
  {
    hide SessionOk, ServedIn, SessionsOk, Opened, Refused;
    NewOk(j, step.pass, s.now, ServedIn(s.log, |s.sessions|));
    SessionAdded(j, s.sessions, s.log, if step.Connect? then Opened(j, step.pass, s.now) else Refused(step.pass, s.now));
  }

  lemma WriteKeepsSessions(j: Job, s: State, step: Step)
    requires SessionsOk(j, s.sessions, s.log) && Enabled(j, s, step) && (step.ReadReply? || step.NoReply?)
    ensures var s' := Apply(j, s, step); SessionsOk(j, s'.sessions, s'.log)
  {
    hide SessionOk, ServedIn, SessionsOk, Written;
    var n, se := |s.sessions| - 1, Last(s);
    SessionAt(j, s, n);
    WrittenOk(j, se, step.ReadReply?, step.sent, s.now, ServedIn(s.log, n));
    var se' := if step.ReadReply? then se.(toClient := se.toClient[1..]) else se;
    SessionChanged(j, s.sessions, s.log, n, Written(j, se', step.ReadReply?, step.sent, s.now));
  }

  lemma AckKeepsSessions(j: Job, s: State, step: Step)
    requires SessionsOk(j, s.sessions, s.log) && Enabled(j, s, step) && (step.ReadAck? || step.NoAck?)
    ensures var s' := Apply(j, s, step); SessionsOk(j, s'.sessions, s'.log)
  {
    hide SessionOk, ServedIn, SessionsOk;
    var n, se := |s.sessions| - 1, Last(s);
    SessionAt(j, s, n);
    AckOk(j, se, ServedIn(s.log, n));
    SessionChanged(j, s.sessions, s.log, n, if step.ReadAck? then Acked(se) else se.(client := Done(None, se.client.replied)));
  }

  lemma StepKeepsSessions(j: Job, s: State, step: Step)
    requires NewId(j.id) && SessionsOk(j, s.sessions, s.log) && Enabled(j, s, step)
    ensures var s' := Apply(j, s, step); SessionsOk(j, s'.sessions, s'.log)
  {
    hide SessionOk, ServedIn, Handled, Served, SessionsOk, Written, Opened, Refused, Without;
    match step
    case Serve(i) => ServeKeepsSessions(j, s, i);
    case LoseToServer(i, k) =>
      SessionAt(j, s, i);
      LostOk(j, s.sessions[i], ServedIn(s.log, i), k);
      SessionChanged(j, s.sessions, s.log, i, s.sessions[i].(toServer := Without(s.sessions[i].toServer, k)));
    case LoseToClient(i, k) =>
      SessionAt(j, s, i);
      LostOk(j, s.sessions[i], ServedIn(s.log, i), k);
      SessionChanged(j, s.sessions, s.log, i, s.sessions[i].(toClient := Without(s.sessions[i].toClient, k)));
    case Break(i) =>
      SessionAt(j, s, i);
      LostOk(j, s.sessions[i], ServedIn(s.log, i), 0);
      SessionChanged(j, s.sessions, s.log, i, s.sessions[i].(server := Closed));
    case Other(_, _) =>
    case GiveUp =>
    case Tick(_) =>
    case Connect(_) => NewTryKeepsSessions(j, s, step);
    case NoConnection(_) => NewTryKeepsSessions(j, s, step);
    case ReadReply(_) => WriteKeepsSessions(j, s, step);
    case NoReply(_, _) => WriteKeepsSessions(j, s, step);
    case _ => AckKeepsSessions(j, s, step);
  }

  // ---- the log, the clock and the result ---------------------------------------

  ghost predicate LogOk(j: Job, s: State) {
    Remembered((j.sender, j.id), s.node.direct, s.log, s.now) && Genuine(j, s.log)
  }

  lemma StepKeepsLog(j: Job, s: State, step: Step)
    requires NewId(j.id) && SessionsOk(j, s.sessions, s.log) && LogOk(j, s) && Enabled(j, s, step)
    ensures LogOk(j, Apply(j, s, step))
  {
    match step
    case Serve(i) =>
      hide SessionOk, ServedIn, Handled, Served, SessionsOk, Remembered, Genuine;
      SessionAt(j, s, i);
      ServedOk(j, s.sessions[i], ServedIn(s.log, i));
      if Dispatches(s.sessions[i]) { RememberDispatch(j, s.node, s.log, s.now, i); }
    case Other(src, m) =>
      hide SessionOk, SessionsOk, Remembered, Genuine, Dispatch;
      RememberOtherDispatch(j, s.node, s.log, s.now, src, m);
    case _ =>
      hide SessionOk, SessionsOk, Genuine, Written, Served, Within;
  }

  /** Tries follow one another in time and in passes. */
  ghost predicate TriesOk(sessions: seq<Session>, now: Time) {
    && (forall i :: 0 <= i < |sessions| ==> sessions[i].began <= now && sessions[i].pass < PASSES)
    && (sessions != [] ==> sessions[0].pass == 0)
    && forall i :: 0 < i < |sessions| ==>
         && sessions[i - 1].began <= sessions[i].began
         && sessions[i - 1].pass <= sessions[i].pass <= sessions[i - 1].pass + 1
  }

  /** A session's frame is dispatched after the session began. */
  ghost predicate DispatchesOk(sessions: seq<Session>, log: seq<Dispatched>) {
    forall k :: 0 <= k < |log| ==> log[k].session < |sessions| && sessions[log[k].session].began <= log[k].at
  }

  ghost predicate ResultOk(s: State) {
    s.result == Some(true) ==> s.sessions != [] && Last(s).client.Done? && Last(s).client.ack.Some?
  }

  ghost predicate TimesOk(s: State) {
    TriesOk(s.sessions, s.now) && DispatchesOk(s.sessions, s.log)
  }

  lemma SameTries(sessions: seq<Session>, i: nat, se: Session, now: Time, log: seq<Dispatched>)
    requires TriesOk(sessions, now) && DispatchesOk(sessions, log) && i < |sessions|
    requires se.began == sessions[i].began && se.pass == sessions[i].pass
    ensures TriesOk(sessions[i := se], now) && DispatchesOk(sessions[i := se], log)
  {
  }

  lemma NextTry(sessions: seq<Session>, se: Session, now: Time, log: seq<Dispatched>)
    requires TriesOk(sessions, now) && DispatchesOk(sessions, log) && se.began == now && se.pass < PASSES
    requires if sessions == [] then se.pass == 0
             else sessions[|sessions| - 1].pass <= se.pass <= sessions[|sessions| - 1].pass + 1
    ensures TriesOk(sessions + [se], now) && DispatchesOk(sessions + [se], log)
  {
    var more, n := sessions + [se], |sessions|;
    assert forall i :: 0 <= i < n ==> more[i] == sessions[i];
    forall i | 0 < i < |more|
      ensures more[i - 1].began <= more[i].began && more[i - 1].pass <= more[i].pass <= more[i - 1].pass + 1
    {
      if i < n { assert more[i] == sessions[i] && more[i - 1] == sessions[i - 1]; } else { assert more[i - 1] == sessions[n - 1]; }
    }
  }

  lemma StepKeepsTimes(j: Job, s: State, step: Step)
    requires TimesOk(s) && Enabled(j, s, step)
    ensures TimesOk(Apply(j, s, step))
  {
    hide Hello, App, Reply, Without, Dispatches, Handled, Dispatch, TriesOk, DispatchesOk;
    var s' := Apply(j, s, step);
    match step
    case Connect(pass) => NextTry(s.sessions, Opened(j, pass, s.now), s.now, s.log);
    case NoConnection(pass) => NextTry(s.sessions, Refused(pass, s.now), s.now, s.log);
    case Serve(i) => ServeKeepsTimes(j, s, i);
    case LoseToServer(i, k) => SameTries(s.sessions, i, s'.sessions[i], s.now, s.log);
    case LoseToClient(i, k) => SameTries(s.sessions, i, s'.sessions[i], s.now, s.log);
    case Break(i) => SameTries(s.sessions, i, s'.sessions[i], s.now, s.log);
    case Other(_, _) =>
    case GiveUp =>
    case Tick(_) => LaterTries(s.sessions, s.now, s'.now);
    case _ => SameTries(s.sessions, |s.sessions| - 1, Last(s'), s.now, s.log);
  }

  lemma LaterTries(sessions: seq<Session>, now: Time, later: Time)
    requires TriesOk(sessions, now) && now <= later
    ensures TriesOk(sessions, later)
  {
  }

  lemma ServeKeepsTimes(j: Job, s: State, i: nat)
    requires TimesOk(s) && Enabled(j, s, Serve(i))
    ensures TimesOk(Apply(j, s, Serve(i)))
  {
    hide Reply, Handled, TriesOk, DispatchesOk, IsControl;
    var se := Served(j, s.sessions[i]);
    SameTries(s.sessions, i, se, s.now, s.log);
    if Dispatches(s.sessions[i]) {
      var (_, call) := Handled(j, s.node, s.sessions[i].toServer[0], s.now);
      OneMoreDispatch(s.sessions[i := se], s.log, s.now, Dispatched(i, s.now, s.sessions[i].toServer[0], call));
    }
  }

  lemma OneMoreDispatch(sessions: seq<Session>, log: seq<Dispatched>, now: Time, d: Dispatched)
    requires TriesOk(sessions, now) && DispatchesOk(sessions, log) && d.session < |sessions| && d.at == now
    ensures DispatchesOk(sessions, log + [d])
  {
  }

  lemma StepKeepsResult(j: Job, s: State, step: Step)
    requires ResultOk(s) && Enabled(j, s, step)
    ensures ResultOk(Apply(j, s, step))
  {
    hide Hello, App, Reply, Without, Dispatches, Handled, Dispatch;
  }

  ghost predicate Invariant(j: Job, s: State) {
    SessionsOk(j, s.sessions, s.log) && LogOk(j, s) && TimesOk(s) && ResultOk(s)
  }

  lemma {:induction false} RunKeeps(j: Job, s: State, steps: seq<Step>)
    requires NewId(j.id) && CanRun(j, s, steps) && Invariant(j, s)
    ensures Invariant(j, Run(j, s, steps))
    decreases steps
  {
    hide SessionsOk, LogOk, TimesOk, ResultOk, Apply, Enabled;
    if steps != [] {
      StepKeepsSessions(j, s, steps[0]);
      StepKeepsLog(j, s, steps[0]);
      StepKeepsTimes(j, s, steps[0]);
      StepKeepsResult(j, s, steps[0]);
      RunKeeps(j, Apply(j, s, steps[0]), steps[1..]);
    }
  }

  lemma InvariantStart(j: Job, s: State)
    requires Initial(j, s)
    ensures Invariant(j, s)
  {
  }

  // ---- the outcome -------------------------------------------------------------

  /** The send reported success, having taken `m` for the acknowledgement. */
  predicate Took(s: State, m: Bytes) {
    s.result == Some(true) && s.sessions != [] && Last(s).client.Done? && Last(s).client.ack == Some(m)
  }

  /** The send reported success, on a try that did or did not read its address-exchange reply. */
  predicate Succeeded(s: State, replied: bool) {
    && s.result == Some(true) && s.sessions != []
    && Last(s).client.Done? && Last(s).client.ack.Some? && Last(s).client.replied == replied
  }

  lemma InvariantMeans(j: Job, s: State)
    requires Invariant(j, s)
    ensures Calls(s.log) <= 1 <==> Within(s.log)
    ensures s.log != [] ==> Calls(s.log) >= 1
    ensures s.result == Some(true) ==> Took(s, ACK) || Took(s, Reply(j))
    ensures Succeeded(s, true) ==> Took(s, ACK)
    ensures Took(s, ACK) ==> s.log != []
    ensures Genuine(j, s.log)
  {
    hide Genuine, TimesOk, Framed, Greeting, Settled, Answers, Hello, App;
    assert Reply(j) != ACK;
    hide Reply;
    if s.result == Some(true) { SessionAt(j, s, |s.sessions| - 1); }
  }

  /**
   In every run the handler ran at most once exactly when all dispatches of the message fell within
   60 s of the first; it ran at least once as soon as there was one; and it was always given the data
   sent. A success took either a true acknowledgement or an address-exchange reply; the former implies
   a dispatch, and it is always the former if the try had read its reply before. So within the window
   such a success means exactly once, and failure at most once, also while late copies still arrive.
   */
  lemma OutcomeIsTrue(j: Job, s: State, steps: seq<Step>)
    requires Initial(j, s) && CanRun(j, s, steps)
    ensures var s' := Run(j, s, steps);
            && (Calls(s'.log) <= 1 <==> Within(s'.log))
            && (s'.log != [] ==> Calls(s'.log) >= 1)
            && Genuine(j, s'.log)
            && (s'.result == Some(true) ==> Took(s', ACK) || Took(s', Reply(j)))
            && (Succeeded(s', true) ==> Took(s', ACK))
            && (Took(s', ACK) ==> Calls(s'.log) >= 1)
            && (Took(s', ACK) && Within(s'.log) ==> Calls(s'.log) == 1)
  {
    hide Run, CanRun, Genuine, Invariant, Within, Succeeded, Took, Calls;
    InvariantStart(j, s);
    RunKeeps(j, s, steps);
    InvariantMeans(j, Run(j, s, steps));
  }

  /** Whether success implies delivery, for tries that did or did not read a reply in time. */
  ghost predicate SuccessMeansDelivered(replied: bool) {
    forall j: Job, s: State, steps: seq<Step> :: Initial(j, s) && CanRun(j, s, steps) ==>
      Succeeded(Run(j, s, steps), replied) ==> Calls(Run(j, s, steps).log) >= 1
  }

  /** The reply comes only after the wait for it timed out, and is taken for the acknowledgement. */
  function LateReply(): seq<Step> {
    [Connect(0), Tick(ADDR_EXCHANGE_TIMEOUT), NoReply(false, true), Serve(0), ReadAck]
  }

  lemma RunOne(j: Job, s: State, step: Step, rest: seq<Step>)
    requires Enabled(j, s, step) && CanRun(j, Apply(j, s, step), rest)
    ensures CanRun(j, s, [step] + rest) && Run(j, s, [step] + rest) == Run(j, Apply(j, s, step), rest)
  {
    hide Apply, Enabled;
    assert ([step] + rest)[1..] == rest;
  }

  lemma TwoSteps(j: Job, s: State, a: Step, b: Step)
    requires Enabled(j, s, a) && Enabled(j, Apply(j, s, a), b)
    ensures CanRun(j, s, [a, b]) && Run(j, s, [a, b]) == Apply(j, Apply(j, s, a), b)
  {
    hide Apply, Enabled;
    var m := Apply(j, s, a);
    RunOne(j, m, b, []);
    assert [b] + [] == [b] && [a] + [b] == [a, b];
    RunOne(j, s, a, [b]);
  }

  /** The receiver answers the address exchange of the only session. */
  lemma ServesHello(j: Job, s: State, se: Session)
    requires NewId(j.id) && s.sessions == [se] && se.server.First? && se.toServer != [] && se.toServer[0] == Hello(j)
    requires se.toClient == []
    ensures Enabled(j, s, Serve(0))
    ensures Apply(j, s, Serve(0))
         == s.(sessions := [se.(server := Serving, toServer := se.toServer[1..], toClient := [Reply(j)])])
  {
    FramesDoNotMix(j);
    hide Hello, App, Reply, IsControl;
    assert [] + [Reply(j)] == [Reply(j)];
    assert [se][0 := Served(j, se)] == [Served(j, se)];
  }

  /** The wait for the reply times out and the frame is written all the same. */
  lemma TimedOut(j: Job, s: State)
    requires Initial(j, s)
    ensures var steps := [Connect(0), Tick(ADDR_EXCHANGE_TIMEOUT), NoReply(false, true)];
            && CanRun(j, s, steps)
            && var s' := Run(j, s, steps);
               s'.log == [] && s'.result.None? &&
               s'.sessions == [Session(0, s.now, AwaitAck(false, s'.now), First, [Hello(j), App(j)], [])]
  {
    hide Hello, App, Reply, Run, CanRun;
    var s1 := Apply(j, s, Connect(0));
    var s2 := Apply(j, s1, Tick(ADDR_EXCHANGE_TIMEOUT));
    assert s2.sessions == [Opened(j, 0, s.now)];
    assert [Hello(j)] + [App(j)] == [Hello(j), App(j)];
    var s3 := Apply(j, s2, NoReply(false, true));
    assert s3.sessions == [Session(0, s.now, AwaitAck(false, s2.now), First, [Hello(j), App(j)], [])];
    TwoSteps(j, s1, Tick(ADDR_EXCHANGE_TIMEOUT), NoReply(false, true));
    RunOne(j, s, Connect(0), [Tick(ADDR_EXCHANGE_TIMEOUT), NoReply(false, true)]);
    assert [Connect(0)] + [Tick(ADDR_EXCHANGE_TIMEOUT), NoReply(false, true)]
        == [Connect(0), Tick(ADDR_EXCHANGE_TIMEOUT), NoReply(false, true)];
  }

  lemma LateReplyUndelivered(j: Job, s: State)
    requires Initial(j, s)
    ensures CanRun(j, s, LateReply())
    ensures Succeeded(Run(j, s, LateReply()), false) && Took(Run(j, s, LateReply()), Reply(j))
    ensures Run(j, s, LateReply()).log == []
  {
    var first := [Connect(0), Tick(ADDR_EXCHANGE_TIMEOUT), NoReply(false, true)];
    TimedOut(j, s);
    var s3 := Run(j, s, first);
    ReplyForAck(j, s3);
    RunBoth(j, s, first, [Serve(0), ReadAck]);
    assert LateReply() == first + [Serve(0), ReadAck];
  }

  lemma ReplyForAck(j: Job, s: State)
    requires NewId(j.id) && s.log == [] && s.result.None? && |s.sessions| == 1
    requires s.sessions[0].client.AwaitAck? && !s.sessions[0].client.replied && s.sessions[0].server.First?
    requires s.sessions[0].toServer == [Hello(j), App(j)] && s.sessions[0].toClient == []
    ensures CanRun(j, s, [Serve(0), ReadAck])
    ensures var s' := Run(j, s, [Serve(0), ReadAck]); Succeeded(s', false) && Took(s', Reply(j)) && s'.log == []
  {
    hide Hello, App, Reply, Run, CanRun, Served;
    ServesHello(j, s, s.sessions[0]);
    TwoSteps(j, s, Serve(0), ReadAck);
  }

  lemma Greeted(j: Job, s: State)
    requires Initial(j, s)
    ensures var s' := s.(sessions := [Session(0, s.now, AwaitReply(s.now), Serving, [], [Reply(j)])]);
            CanRun(j, s, [Connect(0), Serve(0)]) && Run(j, s, [Connect(0), Serve(0)]) == s'
  {
    hide Hello, App, Reply, Run, CanRun, Served;
    var s1 := Apply(j, s, Connect(0));
    assert s1.sessions == [Opened(j, 0, s.now)] && [Hello(j)][1..] == [];
    ServesHello(j, s1, Opened(j, 0, s.now));
    TwoSteps(j, s, Connect(0), Serve(0));
  }

  lemma WroteFrame(j: Job, s: State, since: Time)
    requires s.sessions == [Session(0, since, AwaitReply(since), Serving, [], [Reply(j)])]
    ensures var s' := s.(sessions := [Session(0, since, AwaitAck(true, s.now), Serving, [App(j)], [])]);
            CanRun(j, s, [ReadReply(true)]) && Run(j, s, [ReadReply(true)]) == s'
  {
    hide App, Reply;
    assert [Reply(j)][1..] == [] && [] + [App(j)] == [App(j)];
    var s' := Apply(j, s, ReadReply(true));
    assert s'.sessions == [Session(0, since, AwaitAck(true, s.now), Serving, [App(j)], [])];
    RunOne(j, s, ReadReply(true), []);
  }

  /** The address exchange of an undisturbed try. */
  lemma Exchanged(j: Job, s: State)
    requires Initial(j, s)
    ensures var steps := [Connect(0), Serve(0), ReadReply(true)];
            && CanRun(j, s, steps)
            && Run(j, s, steps) == s.(sessions := [Session(0, s.now, AwaitAck(true, s.now), Serving, [App(j)], [])])
  {
    hide Run, CanRun, App, Reply;
    Greeted(j, s);
    WroteFrame(j, Run(j, s, [Connect(0), Serve(0)]), s.now);
    RunBoth(j, s, [Connect(0), Serve(0)], [ReadReply(true)]);
    assert [Connect(0), Serve(0)] + [ReadReply(true)] == [Connect(0), Serve(0), ReadReply(true)];
  }

  /** The frame is dispatched and acknowledged. */
  lemma Acknowledged(j: Job, s: State, since: Time)
    requires s.log == [] && s.result.None? && (j.sender, j.id) !in s.node.direct
    requires s.sessions == [Session(0, since, AwaitAck(true, since), Serving, [App(j)], [])]
    ensures CanRun(j, s, [Serve(0), ReadAck])
    ensures var s' := Run(j, s, [Serve(0), ReadAck]);
            Took(s', ACK) && Succeeded(s', true) && |s'.log| == 1 && s'.log[0].call == Some(Call(j.sender, j.data))
  {
    AppParses(j);
    hide Hello, App, Reply, IsControl, Run, CanRun;
    var s1 := Apply(j, s, Serve(0));
    assert [App(j)][1..] == [] && [] + [ACK] == [ACK];
    assert s1.sessions == [Session(0, since, AwaitAck(true, since), Serving, [], [ACK])];
    assert |s1.log| == 1 && s1.log[0].call == Some(Call(j.sender, j.data));
    TwoSteps(j, s, Serve(0), ReadAck);
  }

  /** A try that nothing disturbs succeeds, and the handler has run once with the data sent. */
  lemma UndisturbedTryDelivers(j: Job, s: State)
    requires Initial(j, s)
    ensures var steps := [Connect(0), Serve(0), ReadReply(true)] + [Serve(0), ReadAck];
            && CanRun(j, s, steps)
            && var s' := Run(j, s, steps);
               Took(s', ACK) && Succeeded(s', true) && |s'.log| == 1 && s'.log[0].call == Some(Call(j.sender, j.data))
  {
    hide Run, CanRun, Succeeded, Took, App;
    Exchanged(j, s);
    var s3 := Run(j, s, [Connect(0), Serve(0), ReadReply(true)]);
    Acknowledged(j, s3, s.now);
    RunBoth(j, s, [Connect(0), Serve(0), ReadReply(true)], [Serve(0), ReadAck]);
  }

  function NewNode(): NodeState {
    NodeState(map[], map[], KeyRegistry.Empty(None))
  }

  /** A sender that only knows whether it read its reply in time can rely on success exactly if it did. */
  lemma SuccessNeedsReply(replied: bool)
    ensures SuccessMeansDelivered(replied) <==> replied
  {
    if replied {
      forall j: Job, s: State, steps: seq<Step> | Initial(j, s) && CanRun(j, s, steps)
        ensures Succeeded(Run(j, s, steps), replied) ==> Calls(Run(j, s, steps).log) >= 1
      {
        OutcomeIsTrue(j, s, steps);
      }
    } else {
      var zero := PeerId(seq(32, _ => 0));
      var j := Job(zero, zero, Crypto(_ => zero, (_, _, _) => None), MsgId([0x80, 0, 0, 0, 0, 0, 0, 0]), [], [], []);
      var s := State(0, NewNode(), [], [], None);
      LateReplyUndelivered(j, s);
      assert Calls(Run(j, s, LateReply()).log) == 0;
    }
  }

  /** In every run, a success of job `j` that took `m` for the acknowledgement means the handler ran. */
  ghost predicate Reliable(j: Job, m: Bytes) {
    forall s: State, steps: seq<Step> :: Initial(j, s) && CanRun(j, s, steps) ==>
      Took(Run(j, s, steps), m) ==> Calls(Run(j, s, steps).log) >= 1
  }

  /**
   For every job: the message taken for the acknowledgement can be relied on if and only if it is not
   the receiver's address-exchange reply; among the messages that can be taken, if and only if it is
   not a control frame.
   */
  lemma ReliableExactly(j: Job, m: Bytes)
    requires NewId(j.id)
    ensures Reliable(j, m) <==> m != Reply(j)
    ensures m == ACK || m == Reply(j) ==> (Reliable(j, m) <==> !IsControl(m))
  {
    FramesDoNotMix(j);
    hide Reply, Run, CanRun, Took, Calls;
    if m == Reply(j) {
      var s := State(0, NewNode(), [], [], None);
      LateReplyUndelivered(j, s);
      NoCalls();
    } else {
      forall s: State, steps: seq<Step> | Initial(j, s) && CanRun(j, s, steps)
        ensures Took(Run(j, s, steps), m) ==> Calls(Run(j, s, steps).log) >= 1
      {
        OutcomeIsTrue(j, s, steps);
        TookOne(Run(j, s, steps), m);
      }
    }
  }

  lemma NoCalls()
    ensures Calls([]) == 0
  {
  }

  lemma TookOne(s: State, m: Bytes)
    ensures forall n :: Took(s, m) && Took(s, n) ==> m == n
    ensures Took(s, m) ==> s.result == Some(true)
  {
  }

  // ---- when the window is kept -------------------------------------------------

  function Tries(sessions: seq<Session>, pass: nat): nat {
    if sessions == [] then 0
    else Tries(sessions[..|sessions| - 1], pass) + (if sessions[|sessions| - 1].pass == pass then 1 else 0)
  }

  /**
   At most `c` candidates a pass, each try and what it leads to at the receiver done within `d`
   seconds, and nothing between tries but the backoff between passes.
   */
  ghost predicate Timely(s: State, c: nat, d: nat) {
    && (forall p :: 0 <= p < PASSES ==> Tries(s.sessions, p) <= c)
    && (forall i :: 0 < i < |s.sessions| ==>
          var before, next := s.sessions[i - 1], s.sessions[i];
          next.began <= before.began + d + (if next.pass == before.pass then 0 else BACKOFF))
    && (forall k :: 0 <= k < |s.log| && s.log[k].session < |s.sessions| ==>
          s.log[k].at <= s.sessions[s.log[k].session].began + d)
  }

  lemma {:induction false} TriesAdd(sessions: seq<Session>)
    requires forall i :: 0 <= i < |sessions| ==> sessions[i].pass < PASSES
    ensures |sessions| == Tries(sessions, 0) + Tries(sessions, 1) + Tries(sessions, 2)
  {
    if sessions != [] { TriesAdd(sessions[..|sessions| - 1]); }
  }

  lemma {:induction false} BeganBy(s: State, c: nat, d: nat, i: nat)
    requires TriesOk(s.sessions, s.now) && Timely(s, c, d) && i < |s.sessions|
    ensures s.sessions[i].began <= s.sessions[0].began + i * d + s.sessions[i].pass
    ensures s.sessions[0].began <= s.sessions[i].began
  {
    if i > 0 {
      BeganBy(s, c, d, i - 1);
      assert (i - 1) * d + d == i * d;
    }
  }

  lemma DispatchFacts(s: State, c: nat, d: nat, k: nat)
    requires TimesOk(s) && Timely(s, c, d) && k < |s.log|
    ensures var i := s.log[k].session;
            && i < |s.sessions| <= PASSES * c && s.sessions[i].pass < PASSES
            && s.sessions[i].began <= s.log[k].at <= s.sessions[i].began + d
  {
    TriesAdd(s.sessions);
  }

  lemma DispatchedBy(s: State, c: nat, d: nat, k: nat)
    requires TimesOk(s) && Timely(s, c, d) && k < |s.log|
    ensures s.sessions != []
    ensures s.sessions[0].began <= s.log[k].at <= s.sessions[0].began + PASSES * c * d + (PASSES - 1) * BACKOFF
  {
    hide Timely, DispatchesOk, TriesOk;
    DispatchFacts(s, c, d, k);
    var i := s.log[k].session;
    BeganBy(s, c, d, i);
    Spent(i, PASSES * c, d);
  }

  lemma TimelyIsWithin(s: State, c: nat, d: nat)
    requires TimesOk(s) && Timely(s, c, d) && PASSES * c * d + (PASSES - 1) * BACKOFF < DEDUP_TTL
    ensures Within(s.log)
  {
    hide TimesOk, Timely;
    forall k | 0 <= k < |s.log| ensures s.log[k].at < s.log[0].at + DEDUP_TTL {
      DispatchedBy(s, c, d, k);
      DispatchedBy(s, c, d, 0);
    }
  }

  lemma Spent(i: nat, n: nat, d: nat)
    requires i < n
    ensures i * d + d <= n * d
  {
    assert i * d + d == (i + 1) * d;
  }

  /** With few enough candidates and fast enough tries, a true acknowledgement means exactly once, and every outcome at most once. */
  lemma TimelyOutcome(j: Job, s: State, steps: seq<Step>, c: nat, d: nat)
    requires Initial(j, s) && CanRun(j, s, steps) && Timely(Run(j, s, steps), c, d)
    requires 3 * c * d + 2 < 60
    ensures var s' := Run(j, s, steps); Calls(s'.log) <= 1 && (Took(s', ACK) ==> Calls(s'.log) == 1)
  {
    hide Run, CanRun, SessionsOk, LogOk, TimesOk, Timely, Within, Took, Calls;
    InvariantStart(j, s);
    RunKeeps(j, s, steps);
    TimelyIsWithin(Run(j, s, steps), c, d);
    OutcomeIsTrue(j, s, steps);
  }
}
