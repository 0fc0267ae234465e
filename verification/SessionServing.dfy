/**
 The receiver's half of a session, twice: as the node object serves it from beginning to end, and as
 the interleaved model serves it message by message. Both leave the same node behind, call the handler
 the same times with the same data, and answer the same.
 */
module SessionServing {
  import opened Types
  import opened Node
  import opened AtLeastOnce
  import Wire

  /** The arrival times do not run backwards from `now`. */
  ghost predicate Timed(arrivals: seq<(Bytes, Time)>, now: Time) {
    arrivals != [] ==> now <= arrivals[0].1 && Timed(arrivals[1..], arrivals[0].1)
  }

  /** The messages on their way to the receiver are those of `arrivals`. */
  ghost predicate Queued(se: Session, arrivals: seq<(Bytes, Time)>) {
    |se.toServer| == |arrivals| && forall k :: 0 <= k < |arrivals| ==> se.toServer[k] == arrivals[k].0
  }

  /** Session `i` is served at the times of arrival. */
  ghost function ServeSteps(i: nat, arrivals: seq<(Bytes, Time)>, now: Time): seq<Step>
    requires Timed(arrivals, now)
  {
    if arrivals == [] then []
    else [Tick(arrivals[0].1 - now), Serve(i)] + ServeSteps(i, arrivals[1..], arrivals[0].1)
  }

  function Acks(n: nat): seq<Bytes> {
    seq(n, _ => ACK)
  }

  function CallsOf(log: seq<Dispatched>): seq<Call> {
    if log == [] then [] else ToSeq(log[0].call) + CallsOf(log[1..])
  }

  function Absorbed(j: Job, peers: seq<PeerId>, w: Work, arrivals: seq<(Bytes, Time)>): Work {
    AbsorbAll(j.crypto, j.receiver, true, peers, w, j.sender, arrivals)
  }

  lemma HandledIsAbsorb(j: Job, peers: seq<PeerId>, w: Work, a: (Bytes, Time))
    ensures var w' := Absorb(j.crypto, j.receiver, true, peers, w, j.sender, a);
            var (node, call) := Handled(j, w.node, a.0, a.1);
            w'.node == node && w'.calls == w.calls + ToSeq(call)
  {
    hide Dispatch, Wire.Parse;
    assert w.calls + [] == w.calls;
  }

  /** The next message dispatched and acknowledged at its time of arrival. */
  ghost function AfterOne(j: Job, s: State, i: nat, a: (Bytes, Time)): State
    requires i < |s.sessions| && s.sessions[i].toServer != []
  {
    var se := s.sessions[i];
    var (node, call) := Handled(j, s.node, a.0, a.1);
    s.(now := a.1, node := node, log := s.log + [Dispatched(i, a.1, a.0, call)],
       sessions := s.sessions[i := se.(server := Serving, toServer := se.toServer[1..], toClient := se.toClient + [ACK])])
  }

  /** Some time passes, and the receiver dispatches the next message. */
  lemma ServesOne(j: Job, s: State, i: nat, a: (Bytes, Time))
    requires i < |s.sessions| && !s.sessions[i].server.Closed? && s.sessions[i].toServer != []
    requires s.sessions[i].toServer[0] == a.0 && s.now <= a.1 && Dispatches(s.sessions[i])
    ensures var steps := [Tick(a.1 - s.now), Serve(i)];
            CanRun(j, s, steps) && Run(j, s, steps) == AfterOne(j, s, i, a)
  {
    hide Handled, IsControl;
    var s1 := Apply(j, s, Tick(a.1 - s.now));
    var s2 := Apply(j, s1, Serve(i));
    assert [Tick(a.1 - s.now), Serve(i)][1..] == [Serve(i)] && [Serve(i)][1..] == [];
    assert CanRun(j, s2, []) && CanRun(j, s1, [Serve(i)]);
    assert Run(j, s1, [Serve(i)]) == Run(j, s2, []) == s2;
  }

  lemma AfterOneQueued(j: Job, s: State, i: nat, arrivals: seq<(Bytes, Time)>)
    requires i < |s.sessions| && arrivals != [] && Queued(s.sessions[i], arrivals)
    ensures var s1 := AfterOne(j, s, i, arrivals[0]);
            && i < |s1.sessions| && s1.now == arrivals[0].1 && s1.node == Handled(j, s.node, arrivals[0].0, arrivals[0].1).0
            && s1.sessions[i].server == Serving && Queued(s1.sessions[i], arrivals[1..])
  {
    hide Handled;
  }

  /** What serving `arrivals` on session `i` makes of state `s`. */
  ghost predicate ServedAs(j: Job, s: State, s': State, i: nat, arrivals: seq<(Bytes, Time)>, peers: seq<PeerId>, w: Work)
    requires i < |s.sessions|
  {
    var se, n := s.sessions[i], |arrivals|;
    && s'.node == Absorbed(j, peers, w, arrivals).node
    && s'.sessions == s.sessions[i := se.(server := if n == 0 then se.server else Serving,
                                          toServer := [], toClient := se.toClient + Acks(n))]
    && |s'.log| == |s.log| + n && s'.log[..|s.log|] == s.log
    && Absorbed(j, peers, w, arrivals).calls == w.calls + CallsOf(s'.log[|s.log|..])
  }

  lemma ServesNone(j: Job, s: State, i: nat, peers: seq<PeerId>, w: Work)
    requires i < |s.sessions| && s.sessions[i].toServer == [] && w.node == s.node
    ensures CanRun(j, s, []) && ServedAs(j, s, Run(j, s, []), i, [], peers, w)
  {
    var se := s.sessions[i];
    assert se.toClient + Acks(0) == se.toClient && s.sessions[i := se] == s.sessions;
    assert s.log[|s.log|..] == [] && w.calls + [] == w.calls;
  }

  /** All messages are dispatched, in order, each with one acknowledgement. */
  lemma {:induction false} ServesAll(j: Job, s: State, i: nat, arrivals: seq<(Bytes, Time)>, peers: seq<PeerId>, w: Work)
    requires i < |s.sessions| && !s.sessions[i].server.Closed? && Queued(s.sessions[i], arrivals) && Timed(arrivals, s.now)
    requires s.sessions[i].server.First? && arrivals != [] ==> !IsControl(arrivals[0].0)
    requires w.node == s.node
    ensures var steps := ServeSteps(i, arrivals, s.now);
            CanRun(j, s, steps) && ServedAs(j, s, Run(j, s, steps), i, arrivals, peers, w)
    decreases |arrivals|
  {
    hide Handled, IsControl, Run, CanRun, Apply, Enabled, AbsorbAll, Absorb, ServedAs;
    if arrivals == [] {
      ServesNone(j, s, i, peers, w);
    } else {
      var a, rest := arrivals[0], arrivals[1..];
      var first := [Tick(a.1 - s.now), Serve(i)];
      ServesOne(j, s, i, a);
      AfterOneQueued(j, s, i, arrivals);
      var s1 := AfterOne(j, s, i, a);
      hide Queued, AfterOne;
      HandledIsAbsorb(j, peers, w, a);
      var w1 := Absorb(j.crypto, j.receiver, true, peers, w, j.sender, a);
      ServesAll(j, s1, i, rest, peers, w1);
      RunBoth(j, s, first, ServeSteps(i, rest, a.1));
      AbsorbFirst(j.crypto, j.receiver, true, peers, w, j.sender, arrivals);
      ServedMore(j, s, Run(j, s1, ServeSteps(i, rest, a.1)), i, arrivals, peers, w, w1);
    }
  }

  lemma ServedMore(j: Job, s: State, s': State, i: nat, arrivals: seq<(Bytes, Time)>, peers: seq<PeerId>, w: Work, w1: Work)
    requires i < |s.sessions| && arrivals != [] && s.sessions[i].toServer != []
    requires w1.calls == w.calls + ToSeq(Handled(j, s.node, arrivals[0].0, arrivals[0].1).1)
    requires ServedAs(j, AfterOne(j, s, i, arrivals[0]), s', i, arrivals[1..], peers, w1)
    requires Absorbed(j, peers, w, arrivals) == Absorbed(j, peers, w1, arrivals[1..])
    ensures ServedAs(j, s, s', i, arrivals, peers, w)
  {
    hide Handled, Absorbed;
    var n, k, s1 := |arrivals| - 1, |s.log|, AfterOne(j, s, i, arrivals[0]);
    assert [ACK] + Acks(n) == Acks(n + 1);
    assert s.sessions[i].toClient + [ACK] + Acks(n) == s.sessions[i].toClient + Acks(n + 1);
    var logged := s'.log[k..];
    assert s'.log[..k + 1][k] == s'.log[k] && s1.log[..k] == s.log;
    assert s'.log[..k] == s'.log[..k + 1][..k];
    assert logged[0] == s1.log[k] && logged[1..] == s'.log[k + 1..];
    var call := Handled(j, s.node, arrivals[0].0, arrivals[0].1).1;
    assert w.calls + ToSeq(call) + CallsOf(logged[1..]) == w.calls + (ToSeq(call) + CallsOf(logged[1..]));
  }

  // ---- the whole session -------------------------------------------------------

  /** The receiver answers a leading control frame. */
  lemma AnswersControl(j: Job, s: State, i: nat, a: (Bytes, Time))
    requires i < |s.sessions| && s.sessions[i].server.First? && s.sessions[i].toServer != []
    requires s.sessions[i].toServer[0] == a.0 && s.now <= a.1 && IsControl(a.0)
    ensures var steps := [Tick(a.1 - s.now), Serve(i)];
            var se := s.sessions[i];
            && CanRun(j, s, steps)
            && Run(j, s, steps) == s.(now := a.1, sessions := s.sessions[i :=
                 se.(server := Serving, toServer := se.toServer[1..], toClient := se.toClient + [Reply(j)])])
  {
    hide Reply, IsControl;
    var s1 := Apply(j, s, Tick(a.1 - s.now));
    var s2 := Apply(j, s1, Serve(i));
    assert [Tick(a.1 - s.now), Serve(i)][1..] == [Serve(i)] && [Serve(i)][1..] == [];
    assert CanRun(j, s2, []) && CanRun(j, s1, [Serve(i)]);
    assert Run(j, s1, [Serve(i)]) == Run(j, s2, []) == s2;
  }

  /** What the session comes to: the node, the calls and the answers of `HandleIncoming`. */
  ghost predicate AsHandled(j: Job, s: State, s': State, i: nat, arrivals: seq<(Bytes, Time)>, peers: seq<PeerId>, w: Work) {
    var control := arrivals != [] && IsControl(arrivals[0].0);
    var rest := if control then arrivals[1..] else arrivals;
    && i < |s.sessions| == |s'.sessions| && |s.log| <= |s'.log|
    && s'.node == Absorbed(j, peers, w, rest).node
    && Absorbed(j, peers, w, rest).calls == w.calls + CallsOf(s'.log[|s.log|..])
    && s'.sessions[i].toClient == s.sessions[i].toClient + (if control then [Reply(j)] else []) + Acks(|rest|)
  }

  lemma ControlHandled(j: Job, s: State, i: nat, arrivals: seq<(Bytes, Time)>, peers: seq<PeerId>, w: Work)
    requires i < |s.sessions| && s.sessions[i].server.First? && Queued(s.sessions[i], arrivals) && Timed(arrivals, s.now)
    requires w.node == s.node && arrivals != [] && IsControl(arrivals[0].0)
    ensures var steps := ServeSteps(i, arrivals, s.now);
            CanRun(j, s, steps) && AsHandled(j, s, Run(j, s, steps), i, arrivals, peers, w)
  {
    hide Reply, IsControl, Run, CanRun, Apply, Enabled, Absorbed;
    var a, rest := arrivals[0], arrivals[1..];
    var first := [Tick(a.1 - s.now), Serve(i)];
    AnswersControl(j, s, i, a);
    var s1 := Run(j, s, first);
    ServesAll(j, s1, i, rest, peers, w);
    RunBoth(j, s, first, ServeSteps(i, rest, a.1));
  }

  /**
   A new session served message by message: the node, the handler calls, the reply and the number of
   acknowledgements are those of the node object's `HandleIncoming` on the same arrivals.
   */
  lemma SessionAsHandled(j: Job, s: State, i: nat, arrivals: seq<(Bytes, Time)>, peers: seq<PeerId>, w: Work)
    requires i < |s.sessions| && s.sessions[i].server.First? && Queued(s.sessions[i], arrivals) && Timed(arrivals, s.now)
    requires w.node == s.node
    ensures var steps := ServeSteps(i, arrivals, s.now);
            CanRun(j, s, steps) && AsHandled(j, s, Run(j, s, steps), i, arrivals, peers, w)
  {
    hide Reply, IsControl, Run, CanRun, Apply, Enabled, Absorbed;
    if arrivals != [] && IsControl(arrivals[0].0) {
      ControlHandled(j, s, i, arrivals, peers, w);
    } else {
      ServesAll(j, s, i, arrivals, peers, w);
      assert s.sessions[i].toClient + [] == s.sessions[i].toClient;
    }
  }
}
