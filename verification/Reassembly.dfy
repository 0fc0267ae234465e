/**
 Collecting fragments. Per sequence number the receiver keeps the chunks it has, ordered by
 offset, and hands the message up once their lengths add up to the total. Under any arrival
 order, interleaving and repetition what it hands up is what was sent; and the length test
 agrees with every offset being present.
 */
module Reassembly {
  import opened Types
  import opened Bundle

  datatype Piece = Piece(offset: nat, chunk: Bytes)

  /** The chunks received so far under one sequence number, in offset order. */
  datatype Pending = Pending(total: nat, pieces: seq<Piece>)

  function Put(pieces: seq<Piece>, offset: nat, chunk: Bytes): seq<Piece> {
    if pieces == [] || offset < pieces[0].offset then [Piece(offset, chunk)] + pieces
    else if offset == pieces[0].offset then [Piece(offset, chunk)] + pieces[1..]
    else [pieces[0]] + Put(pieces[1..], offset, chunk)
  }

  function Length(pieces: seq<Piece>): nat {
    if pieces == [] then 0 else |pieces[0].chunk| + Length(pieces[1..])
  }

  function Join(pieces: seq<Piece>): Bytes {
    if pieces == [] then [] else pieces[0].chunk + Join(pieces[1..])
  }

  /** The entry a fragment goes into, with the fragment added. */
  function Filled(pending: map<nat, Pending>, b: Bundle): Pending
    requires b.Fragment?
  {
    var entry := if b.seqno in pending then pending[b.seqno] else Pending(b.total, []);
    entry.(pieces := Put(entry.pieces, b.offset, b.chunk))
  }

  predicate IsComplete(p: Pending) {
    Length(p.pieces) >= p.total
  }

  /** What one arriving bundle does to the incomplete messages. */
  function Kept(pending: map<nat, Pending>, b: Bundle): map<nat, Pending> {
    if b.Whole? then pending
    else
      var entry := Filled(pending, b);
      if IsComplete(entry) then pending - {b.seqno} else pending[b.seqno := entry]
  }

  /** The message handed up when `b` arrives, if any. */
  function Handed(pending: map<nat, Pending>, b: Bundle): Option<Bytes> {
    if b.Whole? then Some(b.payload)
    else
      var entry := Filled(pending, b);
      if IsComplete(entry) then Some(Join(entry.pieces)) else None
  }

  /** The incomplete messages after a sequence of arrivals. */
  function Collected(bs: seq<Bundle>): map<nat, Pending> {
    if bs == [] then map[] else Kept(Collected(bs[..|bs| - 1]), bs[|bs| - 1])
  }

  /** What arrival `k` hands up. */
  function Output(bs: seq<Bundle>, k: nat): Option<Bytes>
    requires k < |bs|
  {
    Handed(Collected(bs[..k]), bs[k])
  }

  // ---- what was sent -----------------------------------------------------------

  /** A message and the chunk size it was cut with; 0 for a message sent whole. */
  datatype Sent = Sent(payload: Bytes, max: nat)

  /** `b` is one of the bundles sent for the message under its sequence number. */
  ghost predicate Genuine(sent: map<nat, Sent>, b: Bundle) {
    && b.seqno in sent
    && var m := sent[b.seqno];
       && (b.Whole? ==> m.max == 0 && b.payload == m.payload)
       && (b.Fragment? ==> m.max > 0 && b in Fragments(b.seqno, m.payload, m.max, 0))
  }

  ghost predicate AllGenuine(sent: map<nat, Sent>, bs: seq<Bundle>) {
    forall i :: 0 <= i < |bs| ==> Genuine(sent, bs[i])
  }

  /** Ascending chunks of `m`, none before `low`. */
  ghost predicate Tiles(pieces: seq<Piece>, m: Sent, low: nat)
    requires m.max > 0
  {
    pieces != [] ==>
      && low <= pieces[0].offset && IsOffset(|m.payload|, m.max, pieces[0].offset)
      && pieces[0].chunk == Chunk(m.payload, m.max, pieces[0].offset)
      && Tiles(pieces[1..], m, pieces[0].offset + m.max)
  }

  function Left(total: nat, low: nat): nat {
    if low < total then total - low else 0
  }

  ghost predicate HasOffset(pieces: seq<Piece>, o: nat) {
    exists i :: 0 <= i < |pieces| && pieces[i].offset == o
  }

  lemma HasOffsetCons(pieces: seq<Piece>, o: nat)
    requires pieces != []
    ensures HasOffset(pieces, o) <==> pieces[0].offset == o || HasOffset(pieces[1..], o)
  {
  }

  /** Chunks from `low` on never add up to more than what is left there. */
  lemma {:induction false} LengthBounded(pieces: seq<Piece>, m: Sent, low: nat)
    requires m.max > 0 && OnGrid(m.max, low) && Tiles(pieces, m, low)
    ensures Length(pieces) <= Left(|m.payload|, low)
    ensures pieces != [] && low < pieces[0].offset ==> Length(pieces) < Left(|m.payload|, low)
  {
    if pieces != [] {
      LengthBounded(pieces[1..], m, pieces[0].offset + m.max);
    }
  }

  function Rest(payload: Bytes, low: nat): Bytes {
    if low < |payload| then payload[low..] else []
  }

  /** A chunk and what follows it. */
  lemma ChunkThen(payload: Bytes, max: nat, low: nat)
    requires max > 0 && low < |payload|
    ensures Rest(payload, low) == Chunk(payload, max, low) + Rest(payload, low + max)
  {
  }

  /** If they add up to the rest of the payload, the first chunk is the next one and the others add up to what follows. */
  lemma FirstOfComplete(pieces: seq<Piece>, m: Sent, low: nat)
    requires m.max > 0 && OnGrid(m.max, low) && Tiles(pieces, m, low) && pieces != []
    requires Length(pieces) >= Left(|m.payload|, low)
    ensures low < |m.payload| && pieces[0] == Piece(low, Chunk(m.payload, m.max, low))
    ensures OnGrid(m.max, low + m.max) && Tiles(pieces[1..], m, low + m.max)
    ensures Length(pieces[1..]) >= Left(|m.payload|, low + m.max)
  {
    LengthBounded(pieces, m, low);
    LengthBounded(pieces[1..], m, pieces[0].offset + m.max);
  }

  /** When they do add up to it, they join to the rest of the payload. */
  lemma {:induction false} CompleteJoins(pieces: seq<Piece>, m: Sent, low: nat)
    requires m.max > 0 && OnGrid(m.max, low) && Tiles(pieces, m, low)
    requires Length(pieces) >= Left(|m.payload|, low)
    ensures Join(pieces) == Rest(m.payload, low)
    decreases |pieces|
  {
    if pieces != [] {
      hide Chunk, Tiles, OnGrid, Length, Rest;
      FirstOfComplete(pieces, m, low);
      CompleteJoins(pieces[1..], m, low + m.max);
      ChunkThen(m.payload, m.max, low);
    }
  }

  /** They add up to it exactly when every offset is present. */
  lemma {:induction false} CompleteIff(pieces: seq<Piece>, m: Sent, low: nat)
    requires m.max > 0 && OnGrid(m.max, low) && Tiles(pieces, m, low)
    ensures Length(pieces) >= Left(|m.payload|, low) <==>
            forall o :: low <= o && IsOffset(|m.payload|, m.max, o) ==> HasOffset(pieces, o)
  {
    LengthBounded(pieces, m, low);
    if pieces == [] || low < pieces[0].offset {
      if low < |m.payload| {
        if pieces != [] { AllLater(pieces, m, pieces[0].offset); }
        assert IsOffset(|m.payload|, m.max, low) && !HasOffset(pieces, low);
      }
    } else {
      var rest, next := pieces[1..], low + m.max;
      LengthBounded(rest, m, next);
      CompleteIff(rest, m, next);
      forall o | next <= o && IsOffset(|m.payload|, m.max, o)
        ensures HasOffset(pieces, o) <==> HasOffset(rest, o)
      {
        HasOffsetCons(pieces, o);
      }
      forall o | low <= o < next && IsOffset(|m.payload|, m.max, o) ensures HasOffset(pieces, o) {
        if low < o { GridGap(m.max, low, o); }
        HasOffsetCons(pieces, o);
      }
    }
  }

  /** No chunk starts before the first. */
  lemma {:induction false} AllLater(pieces: seq<Piece>, m: Sent, low: nat)
    requires m.max > 0 && Tiles(pieces, m, low)
    ensures forall o :: HasOffset(pieces, o) ==> low <= o && IsOffset(|m.payload|, m.max, o)
  {
    if pieces != [] {
      AllLater(pieces[1..], m, pieces[0].offset + m.max);
      forall o | HasOffset(pieces, o) ensures low <= o && IsOffset(|m.payload|, m.max, o) {
        HasOffsetCons(pieces, o);
      }
    }
  }

  /** Adding a chunk keeps the chunks in order and adds its offset to those present. */
  lemma {:induction false} PutTiles(pieces: seq<Piece>, m: Sent, low: nat, o: nat)
    requires m.max > 0 && OnGrid(m.max, low) && Tiles(pieces, m, low)
    requires low <= o && IsOffset(|m.payload|, m.max, o)
    ensures Tiles(Put(pieces, o, Chunk(m.payload, m.max, o)), m, low)
    ensures forall x :: HasOffset(Put(pieces, o, Chunk(m.payload, m.max, o)), x) <==> x == o || HasOffset(pieces, x)
  {
    var put := Put(pieces, o, Chunk(m.payload, m.max, o));
    if pieces == [] || o < pieces[0].offset {
      if pieces != [] { GridGap(m.max, o, pieces[0].offset); }
      assert put[1..] == pieces;
    } else if o == pieces[0].offset {
      assert put[1..] == pieces[1..];
    } else {
      GridGap(m.max, pieces[0].offset, o);
      PutTiles(pieces[1..], m, pieces[0].offset + m.max, o);
      assert put[1..] == Put(pieces[1..], o, Chunk(m.payload, m.max, o));
    }
    forall x ensures HasOffset(put, x) <==> x == o || HasOffset(pieces, x) {
      HasOffsetCons(put, x);
      if pieces != [] { HasOffsetCons(pieces, x); }
    }
  }

  // ---- any arrivals ------------------------------------------------------------

  /** An incomplete entry of message `n`: some but not all of its chunks, in order. */
  ghost predicate EntryOk(sent: map<nat, Sent>, n: nat, p: Pending) {
    && n in sent && sent[n].max > 0
    && p.total == |sent[n].payload| && Tiles(p.pieces, sent[n], 0) && !IsComplete(p)
  }

  ghost predicate PendingOk(sent: map<nat, Sent>, pending: map<nat, Pending>) {
    forall n :: n in pending ==> EntryOk(sent, n, pending[n])
  }

  lemma FilledOk(sent: map<nat, Sent>, pending: map<nat, Pending>, b: Bundle)
    requires PendingOk(sent, pending) && Genuine(sent, b) && b.Fragment?
    ensures var m, entry := sent[b.seqno], Filled(pending, b);
            && entry.total == |m.payload| && Tiles(entry.pieces, m, 0)
            && IsOffset(|m.payload|, m.max, b.offset)
            && (forall o :: HasOffset(entry.pieces, o) <==>
                  o == b.offset || (b.seqno in pending && HasOffset(pending[b.seqno].pieces, o)))
  {
    var m := sent[b.seqno];
    FragmentsAre(b.seqno, m.payload, m.max, 0, b);
    PutTiles(if b.seqno in pending then pending[b.seqno].pieces else [], m, 0, b.offset);
  }

  lemma HandedIsSent(sent: map<nat, Sent>, pending: map<nat, Pending>, b: Bundle)
    requires PendingOk(sent, pending) && Genuine(sent, b)
    ensures PendingOk(sent, Kept(pending, b))
    ensures Handed(pending, b).Some? ==> Handed(pending, b).value == sent[b.seqno].payload
  {
    if b.Fragment? {
      FilledOk(sent, pending, b);
      if IsComplete(Filled(pending, b)) {
        CompleteJoins(Filled(pending, b).pieces, sent[b.seqno], 0);
        assert sent[b.seqno].payload[0..] == sent[b.seqno].payload;
      }
    }
  }

  lemma {:induction false} CollectedOk(sent: map<nat, Sent>, bs: seq<Bundle>)
    requires AllGenuine(sent, bs)
    ensures PendingOk(sent, Collected(bs))
  {
    if bs != [] {
      CollectedOk(sent, bs[..|bs| - 1]);
      HandedIsSent(sent, Collected(bs[..|bs| - 1]), bs[|bs| - 1]);
    }
  }

  /** Under any order, interleaving and repetition of the bundles sent, whatever is handed up is the payload sent under that number. */
  lemma OnlyWhatWasSent(sent: map<nat, Sent>, bs: seq<Bundle>, k: nat)
    requires AllGenuine(sent, bs) && k < |bs|
    ensures Output(bs, k).Some? ==> Output(bs, k).value == sent[bs[k].seqno].payload
  {
    CollectedOk(sent, bs[..k]);
    HandedIsSent(sent, Collected(bs[..k]), bs[k]);
  }

  // ---- arrivals without repeats ------------------------------------------------

  /** The fragment of message `n` at offset `o`. */
  function FragmentAt(n: nat, m: Sent, o: nat): Bundle
    requires o <= |m.payload|
  {
    Fragment(n, o, |m.payload|, Chunk(m.payload, m.max, o))
  }

  /** Every bundle of message `n` is among `bs`. */
  ghost predicate AllArrived(sent: map<nat, Sent>, bs: seq<Bundle>, n: nat)
    requires n in sent && sent[n].max > 0
  {
    forall o :: IsOffset(|sent[n].payload|, sent[n].max, o) ==> FragmentAt(n, sent[n], o) in bs
  }

  /** While a message is incomplete, its entry holds exactly the chunks that have arrived. */
  ghost predicate Mirrors(sent: map<nat, Sent>, bs: seq<Bundle>, n: nat)
    requires n in sent && sent[n].max > 0
  {
    !AllArrived(sent, bs, n) ==>
      forall o :: IsOffset(|sent[n].payload|, sent[n].max, o) ==>
        (FragmentAt(n, sent[n], o) in bs <==> n in Collected(bs) && HasOffset(Collected(bs)[n].pieces, o))
  }

  lemma {:induction false} MirrorsArrivals(sent: map<nat, Sent>, bs: seq<Bundle>, n: nat)
    requires AllGenuine(sent, bs) && Distinct(bs) && n in sent && sent[n].max > 0
    ensures Mirrors(sent, bs, n)
  {
    if bs != [] {
      var k := |bs| - 1;
      var before, b := bs[..k], bs[k];
      MirrorsArrivals(sent, before, n);
      assert bs == before + [b];
      if b.seqno != n || AllArrived(sent, bs, n) {
        assert b.Fragment? && b.seqno != n ==> Kept(Collected(before), b).Keys - {b.seqno} == Collected(before).Keys - {b.seqno};
        forall o | IsOffset(|sent[n].payload|, sent[n].max, o)
          ensures b.seqno != n ==> (FragmentAt(n, sent[n], o) in bs <==> FragmentAt(n, sent[n], o) in before)
        {
        }
      } else {
        ArrivalMirrors(sent, before, b);
      }
    }
  }

  /** The entry after a fragment of the message arrives. */
  lemma EntryMirrors(sent: map<nat, Sent>, before: seq<Bundle>, b: Bundle, o: nat)
    requires AllGenuine(sent, before) && Genuine(sent, b) && b.Fragment?
    requires Mirrors(sent, before, b.seqno) && !AllArrived(sent, before, b.seqno)
    requires IsOffset(|sent[b.seqno].payload|, sent[b.seqno].max, o)
    ensures HasOffset(Filled(Collected(before), b).pieces, o) <==> FragmentAt(b.seqno, sent[b.seqno], o) in before + [b]
  {
    var m := sent[b.seqno];
    CollectedOk(sent, before);
    FilledOk(sent, Collected(before), b);
    FragmentsAre(b.seqno, m.payload, m.max, 0, b);
    assert b == FragmentAt(b.seqno, m, b.offset);
  }

  lemma ArrivalMirrors(sent: map<nat, Sent>, before: seq<Bundle>, b: Bundle)
    requires AllGenuine(sent, before) && Genuine(sent, b) && b.Fragment?
    requires Mirrors(sent, before, b.seqno) && !AllArrived(sent, before + [b], b.seqno)
    ensures Mirrors(sent, before + [b], b.seqno)
  {
    var n := b.seqno;
    var m, bs := sent[n], before + [b];
    assert bs[..|bs| - 1] == before;
    assert !AllArrived(sent, before, n);
    forall o | IsOffset(|m.payload|, m.max, o)
      ensures HasOffset(Filled(Collected(before), b).pieces, o) <==> FragmentAt(n, m, o) in bs
    {
      EntryMirrors(sent, before, b, o);
    }
    CollectedOk(sent, before);
    FilledOk(sent, Collected(before), b);
    CompleteIff(Filled(Collected(before), b).pieces, m, 0);
    assert !IsComplete(Filled(Collected(before), b));
  }

  /**
   Without repeats, a fragmented message is handed up by the arrival that brings its last
   missing fragment and by no other: the length test is true exactly when all have arrived.
   */
  lemma HandedAtLast(sent: map<nat, Sent>, bs: seq<Bundle>, k: nat)
    requires AllGenuine(sent, bs) && Distinct(bs) && k < |bs| && bs[k].Fragment?
    ensures Output(bs, k).Some? <==> AllArrived(sent, bs[..k + 1], bs[k].seqno)
  {
    var before, b := bs[..k], bs[k];
    var m := sent[b.seqno];
    MirrorsArrivals(sent, before, b.seqno);
    FragmentsAre(b.seqno, m.payload, m.max, 0, b);
    assert b == FragmentAt(b.seqno, m, b.offset) && b !in before;
    assert !AllArrived(sent, before, b.seqno);
    assert bs[..k + 1] == before + [b];
    forall o | IsOffset(|m.payload|, m.max, o)
      ensures HasOffset(Filled(Collected(before), b).pieces, o) <==> FragmentAt(b.seqno, m, o) in bs[..k + 1]
    {
      EntryMirrors(sent, before, b, o);
    }
    CollectedOk(sent, before);
    FilledOk(sent, Collected(before), b);
    CompleteIff(Filled(Collected(before), b).pieces, m, 0);
  }

  lemma GenuineFragment(sent: map<nat, Sent>, b: Bundle)
    requires Genuine(sent, b) && b.Fragment?
    ensures var m := sent[b.seqno]; IsOffset(|m.payload|, m.max, b.offset) && b == FragmentAt(b.seqno, m, b.offset)
  {
    FragmentsAre(b.seqno, sent[b.seqno].payload, sent[b.seqno].max, 0, b);
  }

  /** So it is handed up at most once: nothing of it arrives afterwards. */
  lemma HandedOnce(sent: map<nat, Sent>, bs: seq<Bundle>, j: nat)
    requires AllGenuine(sent, bs) && Distinct(bs) && j < |bs| && bs[j].Fragment?
    requires Output(bs, j).Some?
    ensures forall k :: j < k < |bs| ==> bs[k].seqno != bs[j].seqno
  {
    HandedAtLast(sent, bs, j);
    forall k | j < k < |bs| && bs[k].seqno == bs[j].seqno ensures false {
      GenuineFragment(sent, bs[k]);
    }
  }

  /** And it is handed up at all once its fragments are there. */
  lemma {:induction false} HandedEventually(sent: map<nat, Sent>, bs: seq<Bundle>, n: nat) returns (k: nat)
    requires AllGenuine(sent, bs) && Distinct(bs) && n in sent && sent[n].max > 0 && sent[n].payload != []
    requires AllArrived(sent, bs, n)
    ensures k < |bs| && bs[k].seqno == n && Output(bs, k) == Some(sent[n].payload)
  {
    assert IsOffset(|sent[n].payload|, sent[n].max, 0);
    assert FragmentAt(n, sent[n], 0) in bs;
    var before, b := bs[..|bs| - 1], bs[|bs| - 1];
    assert bs == before + [b];
    if AllArrived(sent, before, n) {
      k := HandedEventually(sent, before, n);
      assert before[..k] == bs[..k];
    } else {
      var o :| IsOffset(|sent[n].payload|, sent[n].max, o) && FragmentAt(n, sent[n], o) !in before;
      assert FragmentAt(n, sent[n], o) == b;
      k := |bs| - 1;
      assert bs[..k + 1] == bs;
      HandedAtLast(sent, bs, k);
      OnlyWhatWasSent(sent, bs, k);
    }
  }
}
