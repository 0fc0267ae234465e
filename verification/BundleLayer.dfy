/**
 The bundle layer as the object that owns a connection: sending cuts messages into fragments,
 receiving collects them.
 */
module BundleLayer {
  import opened Types
  import opened Bundle
  import opened Reassembly

  datatype Outcome = Accepted | MtuTooSmall | LinkFailed

  /** What the link yields: a bundle, or bytes that do not decode to one. */
  datatype Arrival = Good(b: Bundle) | Undecodable

  datatype Received = Message(payload: Bytes) | Closed | BadBundle

  /** The arrivals up to and including the one that ends a receive. */
  function Consumed(pending: map<nat, Pending>, inbox: seq<Arrival>): nat
    decreases inbox
  {
    if inbox == [] then 0
    else if inbox[0].Undecodable? || Handed(pending, inbox[0].b).Some? then 1
    else 1 + Consumed(Kept(pending, inbox[0].b), inbox[1..])
  }

  function Result(pending: map<nat, Pending>, inbox: seq<Arrival>): (map<nat, Pending>, Received)
    decreases inbox
  {
    if inbox == [] then (pending, Closed)
    else if inbox[0].Undecodable? then (pending, BadBundle)
    else if Handed(pending, inbox[0].b).Some? then
      (Kept(pending, inbox[0].b), Message(Handed(pending, inbox[0].b).value))
    else Result(Kept(pending, inbox[0].b), inbox[1..])
  }

  /** `inbox` is the bundles `bs[i..]`, all decodable. */
  ghost predicate Delivers(inbox: seq<Arrival>, bs: seq<Bundle>, i: nat) {
    i + |inbox| == |bs| && forall k :: 0 <= k < |inbox| ==> inbox[k] == Good(bs[i + k])
  }

  /** `n` arrivals were read: all but the last handed nothing up, and the last handed up `r`, or there was none. */
  ghost predicate StopsAtFirst(bs: seq<Bundle>, i: nat, n: nat, r: Received) {
    && i + n <= |bs|
    && (forall k :: i <= k < i + n && k < |bs| && (r.Closed? || k < i + n - 1) ==> Output(bs, k).None?)
    && match r
       case Message(payload) => n > 0 && Output(bs, i + n - 1) == Some(payload)
       case Closed => i + n == |bs|
       case BadBundle => false
  }

  lemma CollectedNext(bs: seq<Bundle>, i: nat)
    requires i < |bs|
    ensures Collected(bs[..i + 1]) == Kept(Collected(bs[..i]), bs[i])
    ensures Output(bs, i) == Handed(Collected(bs[..i]), bs[i])
  {
    assert bs[..i + 1][..i] == bs[..i];
  }

  /** A receive over bundles `bs[i..]` stops at the first arrival that hands a message up and returns that message. */
  lemma {:induction false} ReceiveIsOutput(bs: seq<Bundle>, i: nat, inbox: seq<Arrival>)
    requires Delivers(inbox, bs, i)
    ensures var pending := Collected(bs[..i]);
            var n := Consumed(pending, inbox);
            StopsAtFirst(bs, i, n, Result(pending, inbox).1) && Result(pending, inbox).0 == Collected(bs[..i + n])
    decreases |inbox|
  {
    hide Kept, Handed, Collected, Output;
    if inbox != [] {
      var pending, rest := Collected(bs[..i]), inbox[1..];
      CollectedNext(bs, i);
      assert inbox[0] == Good(bs[i + 0]);
      if Output(bs, i).None? {
        assert Delivers(rest, bs, i + 1);
        ReceiveIsOutput(bs, i + 1, rest);
        assert Result(pending, inbox) == Result(Kept(pending, bs[i]), rest);
        assert Consumed(pending, inbox) == 1 + Consumed(Kept(pending, bs[i]), rest);
      }
    }
  }

  /** Bytes that do not decode end a receive that has handed nothing up before them; what was collected stays. */
  lemma {:induction false} UndecodableEnds(bs: seq<Bundle>, i: nat, inbox: seq<Arrival>)
    requires i <= |bs| && |bs| - i < |inbox| && inbox[|bs| - i].Undecodable?
    requires forall k :: 0 <= k < |bs| - i ==> inbox[k] == Good(bs[i + k])
    requires forall k :: i <= k < |bs| ==> Output(bs, k).None?
    ensures var pending := Collected(bs[..i]);
            Result(pending, inbox) == (Collected(bs), BadBundle) && Consumed(pending, inbox) == |bs| - i + 1
    decreases |inbox|
  {
    if i == |bs| {
      assert bs[..i] == bs;
    } else {
      hide Kept, Handed, Collected, Output;
      CollectedNext(bs, i);
      assert inbox[0] == Good(bs[i + 0]);
      forall k | 0 <= k < |bs| - (i + 1) ensures inbox[1..][k] == Good(bs[i + 1 + k]) {
        assert inbox[1..][k] == inbox[k + 1];
      }
      UndecodableEnds(bs, i + 1, inbox[1..]);
    }
  }

  /** Fragments of one message, contiguous from its start, that join to it. */
  ghost predicate AllOf(seqno: nat, payload: Bytes, bs: seq<Bundle>) {
    && Joined(bs) == payload
    && (forall i :: 0 <= i < |bs| ==> bs[i].Fragment? && bs[i].seqno == seqno && bs[i].total == |payload| && bs[i].chunk != [])
    && (bs != [] ==> bs[0].offset == 0)
    && (forall i :: 0 < i < |bs| ==> bs[i].offset == bs[i - 1].offset + |bs[i - 1].chunk|)
  }

  /** What goes out, from the sizes alone. */
  lemma FramesBySize(base: nat, mtu: nat, seqno: nat, payload: Bytes)
    ensures var whole, empty := Size(base, Whole(seqno, payload)), Size(base, Fragment(seqno, |payload|, |payload|, []));
            var frames := Frames(base, mtu, seqno, payload);
            && (frames.None? <==> 0 < mtu && mtu < whole && mtu <= empty)
            && (mtu == 0 || whole <= mtu ==> frames == Some([Whole(seqno, payload)]))
            && (0 < mtu && empty < mtu < whole ==> frames.Some? && AllOf(seqno, payload, frames.value))
  {
    hide Size;
    var max := MaxPayload(base, mtu, seqno, |payload|);
    if !FitsWhole(base, mtu, seqno, payload) && max > 0 {
      FragmentsCover(seqno, payload, max, 0);
      var bs := Fragments(seqno, payload, max, 0);
      forall i | 0 <= i < |bs| ensures bs[i].seqno == seqno && bs[i].total == |payload| {
        FragmentsAre(seqno, payload, max, 0, bs[i]);
      }
    }
  }

  class BundleLayer {
    const base: nat
    const mtu: nat
    var seqno: nat
    var wire: seq<Bundle>            // bundles the link has taken
    var inbox: seq<Arrival>          // what the link will still deliver before it closes
    var pending: map<nat, Pending>   // incomplete messages by sequence number

    constructor (base: nat, mtu: nat, inbox: seq<Arrival>)
      ensures this.base == base && this.mtu == mtu && seqno == 0 && wire == [] && this.inbox == inbox && pending == map[]
    {
      this.base, this.mtu, seqno, wire, this.inbox, pending := base, mtu, 0, [], inbox, map[];
    }

    /** Sends one message; the link takes the next `accepts` bundles and fails after that. */
    method SendBytes(bytes: Bytes, accepts: nat) returns (r: Outcome)
      requires seqno < SEQ_LIMIT
      modifies this`seqno, this`wire
      ensures seqno == (old(seqno) + 1) % SEQ_LIMIT
      ensures var frames := Frames(base, mtu, old(seqno), bytes);
              if frames.None? then r == MtuTooSmall && wire == old(wire)
              else if |frames.value| <= accepts then r == Accepted && wire == old(wire) + frames.value
              else r == LinkFailed && wire == old(wire) + frames.value[..accepts]
      ensures var whole, empty := Size(base, Whole(old(seqno), bytes)), Size(base, Fragment(old(seqno), |bytes|, |bytes|, []));
              && (r == MtuTooSmall <==> 0 < mtu && mtu < whole && mtu <= empty)
              && (mtu == 0 || whole <= mtu ==> wire == old(wire) + (if accepts == 0 then [] else [Whole(old(seqno), bytes)]))
              && (0 < mtu && empty < mtu < whole && r == Accepted ==>
                    exists frames :: wire == old(wire) + frames && AllOf(old(seqno), bytes, frames))
    {
      FramesBySize(base, mtu, seqno, bytes);
      var n := seqno;
      seqno := (seqno + 1) % SEQ_LIMIT;
      var whole := Whole(n, bytes);
      hide Size, Head;
      if mtu == 0 || Size(base, whole) <= mtu {
        if accepts == 0 {
          assert wire == wire + [whole][..0];
          return LinkFailed;
        }
        wire := wire + [whole];
        return Accepted;
      }
      var overhead := Size(base, Fragment(n, |bytes|, |bytes|, []));
      var max := if mtu < overhead then 0 else mtu - overhead;
      if max == 0 {
        return MtuTooSmall;
      }
      r := SendFragments(n, bytes, max, accepts);
    }

    /** The sending loop: chunk after chunk until the message is out or the link fails. */
    method SendFragments(n: nat, bytes: Bytes, max: nat, accepts: nat) returns (r: Outcome)
      requires max > 0
      modifies this`wire
      ensures var frames := Fragments(n, bytes, max, 0);
              if |frames| <= accepts then r == Accepted && wire == old(wire) + frames
              else r == LinkFailed && wire == old(wire) + frames[..accepts]
    {
      hide Fragments;
      ghost var frames := Fragments(n, bytes, max, 0);
      ghost var done: seq<Bundle> := [];
      var offset, taken := 0, 0;
      assert frames == done + frames;
      while offset < |bytes|
        invariant 0 <= offset <= |bytes| && |done| == taken <= accepts
        invariant frames == done + Fragments(n, bytes, max, offset)
        invariant wire == old(wire) + done
        decreases |bytes| - offset
      {
        var end := if offset + max < |bytes| then offset + max else |bytes|;
        var b := Fragment(n, offset, |bytes|, bytes[offset..end]);
        FragmentsNext(n, bytes, max, offset);
        if taken == accepts {
          assert frames[..accepts] == done;
          return LinkFailed;
        }
        ghost var rest := Fragments(n, bytes, max, end);
        assert done + ([b] + rest) == done + [b] + rest;
        wire, done := wire + [b], done + [b];
        offset, taken := end, taken + 1;
      }
      FragmentsDone(n, bytes, max);
      assert done + [] == done;
      return Accepted;
    }

    method ReceivedLen(p: Pending) returns (n: nat)
      ensures n == Length(p.pieces)
    {
      n := 0;
      var i := 0;
      while i < |p.pieces|
        invariant 0 <= i <= |p.pieces|
        invariant Length(p.pieces) == n + Length(p.pieces[i..])
      {
        assert p.pieces[i..][1..] == p.pieces[i + 1..];
        n := n + |p.pieces[i].chunk|;
        i := i + 1;
      }
    }

    method Reassemble(p: Pending) returns (data: Bytes)
      ensures data == Join(p.pieces)
    {
      data := [];
      var i := 0;
      while i < |p.pieces|
        invariant 0 <= i <= |p.pieces|
        invariant Join(p.pieces) == data + Join(p.pieces[i..])
      {
        assert p.pieces[i..][1..] == p.pieces[i + 1..];
        data := data + p.pieces[i].chunk;
        i := i + 1;
      }
    }

    /** Reads bundles until one completes a message, does not decode, or the link closes. */
    method RecvBytes() returns (r: Received)
      modifies this`inbox, this`pending
      ensures (pending, r) == Result(old(pending), old(inbox))
      ensures Consumed(old(pending), old(inbox)) <= |old(inbox)|
      ensures inbox == old(inbox)[Consumed(old(pending), old(inbox))..]
    {
      ghost var read := 0;
      while true
        invariant read <= |old(inbox)| && inbox == old(inbox)[read..]
        invariant Result(pending, inbox) == Result(old(pending), old(inbox))
        invariant read + Consumed(pending, inbox) == Consumed(old(pending), old(inbox))
        decreases |inbox|
      {
        if inbox == [] {
          return Closed;
        }
        var arrival := inbox[0];
        inbox, read := inbox[1..], read + 1;
        if arrival.Undecodable? {
          return BadBundle;
        }
        var b := arrival.b;
        if b.Whole? {
          return Message(b.payload);
        }
        var entry := if b.seqno in pending then pending[b.seqno] else Pending(b.total, []);
        entry := entry.(pieces := Put(entry.pieces, b.offset, b.chunk));
        var have := ReceivedLen(entry);
        if have >= entry.total {
          pending := pending - {b.seqno};
          var data := Reassemble(entry);
          return Message(data);
        }
        pending := pending[b.seqno := entry];
      }
    }
  }
}
