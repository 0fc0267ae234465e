/**
 The two halves of the bundle layer together: a list of sends on one layer puts bundles on the link,
 any arrivals drawn from them are received by another, and what comes out is what went in.
 */
module BundleEndToEnd {
  import opened Types
  import opened Bundle
  import opened Reassembly
  import opened BundleLayer

  /** A message to send, and how many bundles the link takes for it before it fails. */
  datatype Send = Send(payload: Bytes, accepts: nat)

  // ---- the sending side --------------------------------------------------------

  /** What the link takes of message number `n`. */
  function Taken(base: nat, mtu: nat, n: nat, s: Send): seq<Bundle> {
    match Frames(base, mtu, n, s.payload)
    case None => []
    case Some(frames) => if |frames| <= s.accepts then frames else frames[..s.accepts]
  }

  /** What a fresh layer puts on the link for a list of sends, numbered from 0. */
  function Wire(base: nat, mtu: nat, sends: seq<Send>): seq<Bundle> {
    if sends == [] then []
    else
      var n := |sends| - 1;
      Wire(base, mtu, sends[..n]) + Taken(base, mtu, n, sends[n])
  }

  /** The messages of a list of sends, with the chunk size each was cut with. */
  function SentBy(base: nat, mtu: nat, sends: seq<Send>): map<nat, Sent> {
    map n | 0 <= n < |sends| ::
      Sent(sends[n].payload,
           if FitsWhole(base, mtu, n, sends[n].payload) then 0 else MaxPayload(base, mtu, n, |sends[n].payload|))
  }

  method SendAll(layer: BundleLayer, sends: seq<Send>)
    requires layer.seqno == 0 && layer.wire == [] && |sends| < SEQ_LIMIT
    modifies layer
    ensures layer.wire == Wire(layer.base, layer.mtu, sends)
  {
    var i := 0;
    while i < |sends|
      invariant 0 <= i <= |sends| && layer.seqno == i
      invariant layer.wire == Wire(layer.base, layer.mtu, sends[..i])
    {
      hide Frames, Wire;
      WireNext(layer.base, layer.mtu, sends, i);
      assert layer.wire + [] == layer.wire;
      var _ := layer.SendBytes(sends[i].payload, sends[i].accepts);
      i := i + 1;
    }
    assert sends[..i] == sends;
  }

  lemma WireNext(base: nat, mtu: nat, sends: seq<Send>, i: nat)
    requires i < |sends|
    ensures Wire(base, mtu, sends[..i + 1]) == Wire(base, mtu, sends[..i]) + Taken(base, mtu, i, sends[i])
  {
    hide Taken;
    assert sends[..i + 1][..i] == sends[..i];
  }

  /** Every frame of a message carries its number and is one of the bundles the receiver counts on. */
  lemma FrameGenuine(base: nat, mtu: nat, n: nat, payload: Bytes, sent: map<nat, Sent>, b: Bundle)
    requires Frames(base, mtu, n, payload).Some? && b in Frames(base, mtu, n, payload).value
    requires n in sent
    requires sent[n] == Sent(payload, if FitsWhole(base, mtu, n, payload) then 0 else MaxPayload(base, mtu, n, |payload|))
    ensures b.seqno == n && Genuine(sent, b)
  {
    hide FitsWhole, MaxPayload;
    if b.Fragment? {
      FragmentsAre(n, payload, sent[n].max, 0, b);
    } else if !FitsWhole(base, mtu, n, payload) {
      FragmentsCover(n, payload, sent[n].max, 0);
    }
  }

  lemma {:induction false} WireGenuine(base: nat, mtu: nat, sends: seq<Send>, k: nat, b: Bundle)
    requires k <= |sends| && b in Wire(base, mtu, sends[..k])
    ensures b.seqno < k && Genuine(SentBy(base, mtu, sends), b) && b in Taken(base, mtu, b.seqno, sends[b.seqno])
  {
    var n := k - 1;
    WireNext(base, mtu, sends, n);
    if b in Wire(base, mtu, sends[..n]) {
      WireGenuine(base, mtu, sends, n, b);
    } else {
      assert b in Taken(base, mtu, n, sends[n]);
      FrameGenuine(base, mtu, n, sends[n].payload, SentBy(base, mtu, sends), b);
    }
  }

  lemma {:induction false} TakenOnWire(base: nat, mtu: nat, sends: seq<Send>, k: nat, n: nat, b: Bundle)
    requires n < k <= |sends| && b in Taken(base, mtu, n, sends[n])
    ensures b in Wire(base, mtu, sends[..k])
  {
    hide Taken, Wire;
    WireNext(base, mtu, sends, k - 1);
    if n < k - 1 { TakenOnWire(base, mtu, sends, k - 1, n, b); }
  }

  /** Every arrival is a bundle that the sends put on the link. */
  ghost predicate Drawn(base: nat, mtu: nat, sends: seq<Send>, bs: seq<Bundle>) {
    forall i :: 0 <= i < |bs| ==> bs[i] in Wire(base, mtu, sends)
  }

  lemma DrawnGenuine(base: nat, mtu: nat, sends: seq<Send>, bs: seq<Bundle>)
    requires Drawn(base, mtu, sends, bs)
    ensures AllGenuine(SentBy(base, mtu, sends), bs)
    ensures forall i :: 0 <= i < |bs| ==> bs[i].seqno < |sends| && bs[i] in Taken(base, mtu, bs[i].seqno, sends[bs[i].seqno])
  {
    hide Genuine, SentBy;
    assert sends[..|sends|] == sends;
    forall i | 0 <= i < |bs|
      ensures Genuine(SentBy(base, mtu, sends), bs[i])
      ensures bs[i].seqno < |sends| && bs[i] in Taken(base, mtu, bs[i].seqno, sends[bs[i].seqno])
    {
      WireGenuine(base, mtu, sends, |sends|, bs[i]);
    }
  }

  // ---- the receiving side ------------------------------------------------------

  /** The messages that arrivals from `i` on hand up, each with its number, in order. */
  ghost function Outputs(bs: seq<Bundle>, i: nat): seq<(nat, Bytes)>
    requires i <= |bs|
    decreases |bs| - i
  {
    if i == |bs| then []
    else (if Output(bs, i).Some? then [(bs[i].seqno, Output(bs, i).value)] else []) + Outputs(bs, i + 1)
  }

  ghost function Payloads(out: seq<(nat, Bytes)>): seq<Bytes> {
    if out == [] then [] else [out[0].1] + Payloads(out[1..])
  }

  /** What receives return one after the other until one returns no message. */
  function Receipts(pending: map<nat, Pending>, inbox: seq<Arrival>): seq<Bytes>
    decreases |inbox|
  {
    if inbox == [] || inbox[0].Undecodable? then []
    else
      (if Handed(pending, inbox[0].b).Some? then [Handed(pending, inbox[0].b).value] else [])
      + Receipts(Kept(pending, inbox[0].b), inbox[1..])
  }

  /** A receive returns the next receipt and leaves the rest. */
  lemma {:induction false} ReceiptNext(pending: map<nat, Pending>, inbox: seq<Arrival>)
    ensures Consumed(pending, inbox) <= |inbox|
    ensures var (pending', r) := Result(pending, inbox);
            Receipts(pending, inbox) ==
              if r.Message? then [r.payload] + Receipts(pending', inbox[Consumed(pending, inbox)..]) else []
    ensures Result(pending, inbox).1.Message? ==> Consumed(pending, inbox) > 0
    decreases |inbox|
  {
    hide Handed, Kept;
    if inbox != [] && inbox[0].Good? {
      var b, rest := inbox[0].b, inbox[1..];
      if Handed(pending, b).None? {
        ReceiptNext(Kept(pending, b), rest);
        assert [] + Receipts(Kept(pending, b), rest) == Receipts(Kept(pending, b), rest);
      }
    }
  }

  /** Receives until the link closes or yields something that does not decode. */
  method ReceiveAll(layer: BundleLayer) returns (messages: seq<Bytes>)
    modifies layer
    ensures messages == Receipts(old(layer.pending), old(layer.inbox))
  {
    messages := [];
    while true
      invariant messages + Receipts(layer.pending, layer.inbox) == Receipts(old(layer.pending), old(layer.inbox))
      decreases |layer.inbox|
    {
      ghost var pending, inbox := layer.pending, layer.inbox;
      ReceiptNext(pending, inbox);
      var r := layer.RecvBytes();
      if !r.Message? {
        assert messages + [] == messages;
        return;
      }
      assert messages + ([r.payload] + Receipts(layer.pending, layer.inbox))
          == messages + [r.payload] + Receipts(layer.pending, layer.inbox);
      messages := messages + [r.payload];
    }
  }

  /** The receipts over decodable arrivals are what the arrivals hand up. */
  lemma {:induction false} ReceiptsAreOutputs(bs: seq<Bundle>, i: nat, inbox: seq<Arrival>)
    requires Delivers(inbox, bs, i)
    ensures Receipts(Collected(bs[..i]), inbox) == Payloads(Outputs(bs, i))
    decreases |inbox|
  {
    hide Handed, Kept, Collected, Output;
    if inbox != [] {
      var rest := inbox[1..];
      assert inbox[0] == Good(bs[i + 0]);
      CollectedNext(bs, i);
      assert Delivers(rest, bs, i + 1);
      ReceiptsAreOutputs(bs, i + 1, rest);
      if Output(bs, i).Some? {
        var out := [(bs[i].seqno, Output(bs, i).value)] + Outputs(bs, i + 1);
        assert out[1..] == Outputs(bs, i + 1);
      } else {
        assert [] + Outputs(bs, i + 1) == Outputs(bs, i + 1);
      }
    }
  }

  // ---- end to end --------------------------------------------------------------

  lemma {:induction false} OutputsFrom(bs: seq<Bundle>, i: nat, x: (nat, Bytes))
    requires i <= |bs| && x in Outputs(bs, i)
    ensures exists k :: i <= k < |bs| && bs[k].seqno == x.0 && Output(bs, k) == Some(x.1)
    decreases |bs| - i
  {
    hide Output;
    if i < |bs| && !(Output(bs, i).Some? && x == (bs[i].seqno, Output(bs, i).value)) {
      OutputsFrom(bs, i + 1, x);
    }
  }

  /**
   Whatever the sends, the link failures and the order, interleaving and repetition of arrivals, each
   message received is the payload that was sent under its number.
   */
  lemma ReceivedAsSent(base: nat, mtu: nat, sends: seq<Send>, bs: seq<Bundle>, inbox: seq<Arrival>)
    requires Drawn(base, mtu, sends, bs) && Delivers(inbox, bs, 0)
    ensures Receipts(map[], inbox) == Payloads(Outputs(bs, 0))
    ensures forall x :: x in Outputs(bs, 0) ==> x.0 < |sends| && x.1 == sends[x.0].payload
  {
    hide Output;
    assert bs[..0] == [] && Collected([]) == map[];
    ReceiptsAreOutputs(bs, 0, inbox);
    DrawnGenuine(base, mtu, sends, bs);
    forall x | x in Outputs(bs, 0) ensures x.0 < |sends| && x.1 == sends[x.0].payload {
      OutputsFrom(bs, 0, x);
      var k :| 0 <= k < |bs| && bs[k].seqno == x.0 && Output(bs, k) == Some(x.1);
      OnlyWhatWasSent(SentBy(base, mtu, sends), bs, k);
    }
  }

  lemma {:induction false} CountOutput(bs: seq<Bundle>, i: nat, k: nat, x: (nat, Bytes))
    requires i <= |bs| && k < |bs| && bs[k].seqno == x.0 && Output(bs, k) == Some(x.1)
    requires forall j :: 0 <= j < |bs| && j != k && bs[j].seqno == x.0 ==> Output(bs, j).None?
    ensures multiset(Outputs(bs, i))[x] == if i <= k then 1 else 0
    decreases |bs| - i
  {
    hide Output;
    if i < |bs| {
      CountOutput(bs, i + 1, k, x);
      var first := if Output(bs, i).Some? then [(bs[i].seqno, Output(bs, i).value)] else [];
      assert multiset(first + Outputs(bs, i + 1)) == multiset(first) + multiset(Outputs(bs, i + 1));
      assert multiset(first)[x] == if i == k then 1 else 0;
    }
  }

  /** The link took message `n` completely. */
  predicate Complete(base: nat, mtu: nat, n: nat, s: Send) {
    var frames := Frames(base, mtu, n, s.payload);
    frames.Some? && |frames.value| <= s.accepts
  }

  /** The same from sizes: the message fits whole and one bundle is taken, or the chunks taken can hold it. */
  lemma CompleteBySize(base: nat, mtu: nat, n: nat, s: Send)
    ensures var whole := Size(base, Whole(n, s.payload));
            var empty := Size(base, Fragment(n, |s.payload|, |s.payload|, []));
            Complete(base, mtu, n, s) <==>
              if mtu == 0 || whole <= mtu then s.accepts >= 1 else empty < mtu && |s.payload| <= s.accepts * (mtu - empty)
  {
    hide Size;
    var max := MaxPayload(base, mtu, n, |s.payload|);
    if max > 0 { TakesAllIff(n, s.payload, max, s.accepts); }
  }

  /** The one arrival that hands up message `n`. */
  lemma HandedUpBy(base: nat, mtu: nat, sends: seq<Send>, bs: seq<Bundle>, n: nat) returns (k: nat)
    requires Drawn(base, mtu, sends, bs) && Distinct(bs) && n < |sends| && Complete(base, mtu, n, sends[n])
    requires forall b :: b in Wire(base, mtu, sends) ==> b in bs
    ensures k < |bs| && bs[k].seqno == n && Output(bs, k) == Some(sends[n].payload)
    ensures forall j :: 0 <= j < |bs| && j != k && bs[j].seqno == n ==> Output(bs, j).None?
  {
    DrawnGenuine(base, mtu, sends, bs);
    var sent, m := SentBy(base, mtu, sends), SentBy(base, mtu, sends)[n];
    assert sends[..|sends|] == sends;
    if m.max == 0 {
      k := WholeHandedUp(base, mtu, sends, bs, n);
    } else {
      AtLeastTwo(base, mtu, n, m.payload);
      forall o | IsOffset(|m.payload|, m.max, o) ensures FragmentAt(n, m, o) in bs {
        FragmentsAre(n, m.payload, m.max, 0, FragmentAt(n, m, o));
        TakenOnWire(base, mtu, sends, |sends|, n, FragmentAt(n, m, o));
      }
      k := HandedEventually(sent, bs, n);
      FragmentedOnce(sent, bs, n, k);
    }
  }

  lemma FragmentedOnce(sent: map<nat, Sent>, bs: seq<Bundle>, n: nat, k: nat)
    requires AllGenuine(sent, bs) && Distinct(bs) && n in sent && sent[n].max > 0
    requires k < |bs| && bs[k].seqno == n && Output(bs, k).Some?
    ensures forall j :: 0 <= j < |bs| && j != k && bs[j].seqno == n ==> Output(bs, j).None?
  {
    hide Output;
    forall j | 0 <= j < |bs| && j != k && bs[j].seqno == n ensures Output(bs, j).None? {
      assert Genuine(sent, bs[j]) && Genuine(sent, bs[k]);
      HandedOnce(sent, bs, k);
      if Output(bs, j).Some? { HandedOnce(sent, bs, j); }
    }
  }

  lemma WholeHandedUp(base: nat, mtu: nat, sends: seq<Send>, bs: seq<Bundle>, n: nat) returns (k: nat)
    requires Drawn(base, mtu, sends, bs) && Distinct(bs) && n < |sends| && Complete(base, mtu, n, sends[n])
    requires forall b :: b in Wire(base, mtu, sends) ==> b in bs
    requires SentBy(base, mtu, sends)[n].max == 0
    ensures k < |bs| && bs[k].seqno == n && Output(bs, k) == Some(sends[n].payload)
    ensures forall j :: 0 <= j < |bs| && j != k && bs[j].seqno == n ==> Output(bs, j).None?
  {
    DrawnGenuine(base, mtu, sends, bs);
    var b := Whole(n, sends[n].payload);
    assert sends[..|sends|] == sends;
    TakenOnWire(base, mtu, sends, |sends|, n, b);
    k :| 0 <= k < |bs| && bs[k] == b;
    forall j | 0 <= j < |bs| && bs[j].seqno == n ensures bs[j] == b {
      assert Genuine(SentBy(base, mtu, sends), bs[j]);
    }
  }

  /**
   If every bundle put on the link arrives, once and in any order, each message is received exactly once
   that fits whole, the link taking its bundle, or that fits in the chunks the link takes for it.
   */
  lemma EachReceivedOnce(base: nat, mtu: nat, sends: seq<Send>, bs: seq<Bundle>, n: nat)
    requires Drawn(base, mtu, sends, bs) && Distinct(bs) && n < |sends|
    requires forall b :: b in Wire(base, mtu, sends) ==> b in bs
    requires var s := sends[n];
             var whole := Size(base, Whole(n, s.payload));
             var empty := Size(base, Fragment(n, |s.payload|, |s.payload|, []));
             if mtu == 0 || whole <= mtu then s.accepts >= 1 else empty < mtu && |s.payload| <= s.accepts * (mtu - empty)
    ensures multiset(Outputs(bs, 0))[(n, sends[n].payload)] == 1
  {
    CompleteBySize(base, mtu, n, sends[n]);
    var k := HandedUpBy(base, mtu, sends, bs, n);
    CountOutput(bs, 0, k, (n, sends[n].payload));
  }
}
