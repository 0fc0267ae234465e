/**
 Bundle framing: a message that does not fit the link's MTU is cut into fragments, and the
 receiver collects fragments per sequence number until their lengths add up to the total.
 Bundles are records here; their encoded size follows CBOR head sizes (RFC 8949 section 3)
 over the block layout of RFC 9171 sections 4.3.1 and 4.3.2.
 */
module Bundle {
  import opened Types

  datatype Bundle =
    | Whole(seqno: nat, payload: Bytes)
    | Fragment(seqno: nat, offset: nat, total: nat, chunk: Bytes)

  const SEQ_LIMIT: nat := 0x1_0000_0000_0000_0000

  // ---- encoded size ------------------------------------------------------------

  /** Bytes of a CBOR head that carries the argument `n`. */
  function Head(n: nat): (h: nat)
    ensures 1 <= h <= 9
  {
    if n < 24 then 1
    else if n < 0x100 then 2
    else if n < 0x1_0000 then 3
    else if n < 0x1_0000_0000 then 5
    else 9
  }

  lemma HeadMonotone(a: nat, b: nat)
    requires a <= b
    ensures Head(a) <= Head(b)
  {
  }

  /** Encoded length; `base` counts everything that is the same in every bundle of a connection. */
  function Size(base: nat, b: Bundle): nat {
    match b
    case Whole(n, payload) => base + Head(n) + Head(|payload|) + |payload|
    case Fragment(n, offset, total, chunk) =>
      base + Head(n) + Head(offset) + Head(total) + Head(|chunk|) + |chunk|
  }

  /** The length of an empty fragment whose offset is as large as the total. */
  function Overhead(base: nat, seqno: nat, total: nat): nat {
    Size(base, Fragment(seqno, total, total, []))
  }

  /** Payload bytes per fragment. */
  function MaxPayload(base: nat, mtu: nat, seqno: nat, total: nat): nat {
    var overhead := Overhead(base, seqno, total);
    if mtu < overhead then 0 else mtu - overhead
  }

  // ---- fragmenting -------------------------------------------------------------

  function End(total: nat, max: nat, offset: nat): nat {
    if offset + max < total then offset + max else total
  }

  function Chunk(payload: Bytes, max: nat, offset: nat): Bytes
    requires offset <= |payload|
  {
    payload[offset..End(|payload|, max, offset)]
  }

  /** The fragments of `payload` from `offset` on. */
  function Fragments(seqno: nat, payload: Bytes, max: nat, offset: nat): seq<Bundle>
    requires max > 0 && offset <= |payload|
    decreases |payload| - offset
  {
    if offset == |payload| then []
    else [Fragment(seqno, offset, |payload|, Chunk(payload, max, offset))]
         + Fragments(seqno, payload, max, End(|payload|, max, offset))
  }

  lemma FragmentsNext(seqno: nat, payload: Bytes, max: nat, offset: nat)
    requires max > 0 && offset < |payload|
    ensures var end := End(|payload|, max, offset);
            Fragments(seqno, payload, max, offset)
            == [Fragment(seqno, offset, |payload|, payload[offset..end])] + Fragments(seqno, payload, max, end)
  {
  }

  lemma FragmentsDone(seqno: nat, payload: Bytes, max: nat)
    requires max > 0
    ensures Fragments(seqno, payload, max, |payload|) == []
  {
  }

  predicate FitsWhole(base: nat, mtu: nat, seqno: nat, payload: Bytes) {
    mtu == 0 || Size(base, Whole(seqno, payload)) <= mtu
  }

  /** What is put on the link for a message; None when the MTU leaves no room for payload. */
  function Frames(base: nat, mtu: nat, seqno: nat, payload: Bytes): Option<seq<Bundle>> {
    if FitsWhole(base, mtu, seqno, payload) then Some([Whole(seqno, payload)])
    else
      var max := MaxPayload(base, mtu, seqno, |payload|);
      if max == 0 then None else Some(Fragments(seqno, payload, max, 0))
  }

  /** The payload a list of fragments stands for. */
  function Joined(bs: seq<Bundle>): Bytes {
    if bs == [] then [] else (if bs[0].Fragment? then bs[0].chunk else bs[0].payload) + Joined(bs[1..])
  }

  /** Fragments are non-empty and contiguous, and together they are the payload from `offset` on. */
  lemma {:induction false} FragmentsCover(seqno: nat, payload: Bytes, max: nat, offset: nat)
    requires max > 0 && offset <= |payload|
    ensures var bs := Fragments(seqno, payload, max, offset);
            && Joined(bs) == payload[offset..]
            && (forall i :: 0 <= i < |bs| ==> bs[i].Fragment? && |bs[i].chunk| > 0)
            && (bs != [] ==> bs[0].offset == offset)
            && (forall i :: 0 < i < |bs| ==> bs[i].offset == bs[i - 1].offset + |bs[i - 1].chunk|)
    decreases |payload| - offset
  {
    if offset < |payload| {
      var end := End(|payload|, max, offset);
      FragmentsCover(seqno, payload, max, end);
      assert payload[offset..] == payload[offset..end] + payload[end..];
      var bs, rest := Fragments(seqno, payload, max, offset), Fragments(seqno, payload, max, end);
      assert bs[1..] == rest;
      forall i | 0 < i < |bs| ensures bs[i].offset == bs[i - 1].offset + |bs[i - 1].chunk| {
        assert bs[i] == rest[i - 1];
        if i > 1 { assert bs[i - 1] == rest[i - 2]; }
      }
    }
  }

  /** A message that is fragmented at all is cut into at least two fragments. */
  lemma AtLeastTwo(base: nat, mtu: nat, seqno: nat, payload: Bytes)
    requires !FitsWhole(base, mtu, seqno, payload)
    ensures var max := MaxPayload(base, mtu, seqno, |payload|);
            max > 0 ==> max < |payload| && |Fragments(seqno, payload, max, 0)| >= 2
  {
  }

  /** How many fragments there are: just enough chunks to hold the payload. */
  lemma {:induction false} FragmentCount(seqno: nat, payload: Bytes, max: nat, offset: nat)
    requires max > 0 && offset <= |payload|
    ensures var k := |Fragments(seqno, payload, max, offset)|;
            |payload| - offset <= k * max && (k > 0 ==> (k - 1) * max < |payload| - offset)
    decreases |payload| - offset
  {
    if offset < |payload| {
      var end := End(|payload|, max, offset);
      FragmentCount(seqno, payload, max, end);
      var k := |Fragments(seqno, payload, max, end)|;
      assert (k + 1) * max == k * max + max;
      if k > 0 { assert (k - 1) * max + max == k * max; }
    }
  }

  /** The link takes all fragments exactly when the chunks it takes can hold the payload. */
  lemma TakesAllIff(seqno: nat, payload: Bytes, max: nat, accepts: nat)
    requires max > 0
    ensures |Fragments(seqno, payload, max, 0)| <= accepts <==> |payload| <= accepts * max
  {
    FragmentCount(seqno, payload, max, 0);
    var k := |Fragments(seqno, payload, max, 0)|;
    if k <= accepts { Scaled(k, accepts, max); } else { Scaled(accepts, k - 1, max); }
  }

  lemma Scaled(a: nat, b: nat, max: nat)
    requires a <= b
    ensures a * max <= b * max
  {
  }

  // ---- offsets -----------------------------------------------------------------

  /** `o` is a multiple of `max`. */
  predicate OnGrid(max: nat, o: nat)
    requires max > 0
  {
    o == 0 || (o >= max && OnGrid(max, o - max))
  }

  /** `o` is where a chunk of a payload of length `total` starts. */
  predicate IsOffset(total: nat, max: nat, o: nat)
    requires max > 0
  {
    o < total && OnGrid(max, o)
  }

  /** Distinct grid points are at least one stride apart. */
  lemma {:induction false} GridGap(max: nat, a: nat, b: nat)
    requires max > 0 && OnGrid(max, a) && OnGrid(max, b) && a < b
    ensures a + max <= b
  {
    if a > 0 { GridGap(max, a - max, b - max); }
  }

  /** The bundles sent for a fragmented message are exactly one fragment per offset. */
  lemma {:induction false} FragmentsAre(seqno: nat, payload: Bytes, max: nat, offset: nat, b: Bundle)
    requires max > 0 && offset <= |payload|
    requires offset == |payload| || OnGrid(max, offset)
    ensures b in Fragments(seqno, payload, max, offset) <==>
            b.Fragment? && b.seqno == seqno && b.total == |payload| && offset <= b.offset
            && IsOffset(|payload|, max, b.offset) && b.chunk == Chunk(payload, max, b.offset)
    decreases |payload| - offset
  {
    if offset < |payload| {
      var end := End(|payload|, max, offset);
      FragmentsAre(seqno, payload, max, end, b);
      if b.Fragment? && offset < b.offset && IsOffset(|payload|, max, b.offset) {
        GridGap(max, offset, b.offset);
      }
    }
  }

  // ---- fragments against the MTU -----------------------------------------------

  /** Where the last chunk of full length starts. */
  function LastFull(total: nat, max: nat): (o: nat)
    requires 0 < max <= total
    ensures OnGrid(max, o) && o + max <= total < o + max + max
  {
    if total < max + max then 0 else LastFull(total - max, max) + max
  }

  /** The fragments, full ones and a shorter last one, by their offsets. */
  lemma OffsetCases(total: nat, max: nat, o: nat)
    requires 0 < max <= total && IsOffset(total, max, o)
    ensures o <= LastFull(total, max) || o == LastFull(total, max) + max
  {
    var full := LastFull(total, max);
    if o > full {
      GridGap(max, full, o);
      if o > full + max { GridGap(max, full + max, o); }
    }
  }

  /** How far a fragment's length is from the MTU. */
  lemma FragmentLength(base: nat, mtu: nat, seqno: nat, payload: Bytes, o: nat)
    requires var max := MaxPayload(base, mtu, seqno, |payload|); max > 0 && IsOffset(|payload|, max, o)
    ensures var max := MaxPayload(base, mtu, seqno, |payload|);
            var chunk := Chunk(payload, max, o);
            && |chunk| == (if o + max <= |payload| then max else |payload| - o)
            && Fragment(seqno, o, |payload|, chunk) in Fragments(seqno, payload, max, 0)
            && Size(base, Fragment(seqno, o, |payload|, chunk)) + max + Head(|payload|) + 1
               == mtu + |chunk| + Head(o) + Head(|chunk|)
  {
    var max := MaxPayload(base, mtu, seqno, |payload|);
    FragmentsAre(seqno, payload, max, 0, Fragment(seqno, o, |payload|, Chunk(payload, max, o)));
  }

  /** No fragment is longer than the MTU by more than the growth of its length head. */
  lemma FragmentSize(base: nat, mtu: nat, seqno: nat, payload: Bytes, b: Bundle)
    requires var max := MaxPayload(base, mtu, seqno, |payload|);
             max > 0 && b in Fragments(seqno, payload, max, 0)
    ensures var max := MaxPayload(base, mtu, seqno, |payload|);
            Size(base, b) <= mtu + Head(max) - 1 && (max < 24 ==> Size(base, b) <= mtu)
  {
    var max := MaxPayload(base, mtu, seqno, |payload|);
    FragmentsAre(seqno, payload, max, 0, b);
    HeadMonotone(b.offset, |payload|);
    HeadMonotone(|b.chunk|, max);
  }

  /** The last full chunk, and the shorter one behind it if any, stay within the MTU. */
  predicate HeadsFit(total: nat, max: nat)
    requires 0 < max <= total
  {
    var full := LastFull(total, max);
    var tail := full + max;
    && Head(full) + Head(max) <= Head(total) + 1
    && (tail < total ==> (total - tail) + Head(total - tail) + Head(tail) <= max + Head(total) + 1)
  }

  /** If the last full chunk and the last chunk fit, so does every fragment. */
  lemma FitsAll(base: nat, mtu: nat, seqno: nat, payload: Bytes, b: Bundle)
    requires var max := MaxPayload(base, mtu, seqno, |payload|);
             0 < max <= |payload| && HeadsFit(|payload|, max) && b in Fragments(seqno, payload, max, 0)
    ensures Size(base, b) <= mtu
  {
    var max, total := MaxPayload(base, mtu, seqno, |payload|), |payload|;
    hide Head, Fragments, MaxPayload, Chunk, Size;
    FragmentsAre(seqno, payload, max, 0, b);
    FragmentLength(base, mtu, seqno, payload, b.offset);
    OffsetCases(total, max, b.offset);
    var full := LastFull(total, max);
    if b.offset <= full { HeadMonotone(b.offset, full); }
  }

  /**
   The link never sees a bundle larger than its MTU exactly when the heads of the last full
   chunk and of the last chunk fit; the estimate of the overhead leaves out how the head of
   the chunk length grows.
   */
  lemma WithinMtu(base: nat, mtu: nat, seqno: nat, payload: Bytes)
    requires !FitsWhole(base, mtu, seqno, payload) && MaxPayload(base, mtu, seqno, |payload|) > 0
    ensures var max := MaxPayload(base, mtu, seqno, |payload|);
            && max < |payload|
            && ((forall b :: b in Fragments(seqno, payload, max, 0) ==> Size(base, b) <= mtu) <==> HeadsFit(|payload|, max))
  {
    var max, total := MaxPayload(base, mtu, seqno, |payload|), |payload|;
    AtLeastTwo(base, mtu, seqno, payload);
    hide Head, Size, Fragments, MaxPayload, FitsWhole, Chunk;
    if HeadsFit(total, max) {
      forall b | b in Fragments(seqno, payload, max, 0) ensures Size(base, b) <= mtu {
        FitsAll(base, mtu, seqno, payload, b);
      }
    } else {
      var full := LastFull(total, max);
      FragmentLength(base, mtu, seqno, payload, full);
      if full + max < total { FragmentLength(base, mtu, seqno, payload, full + max); }
    }
  }

  /** A 1000-byte message over a link with room for 100 bytes of payload: one fragment is a byte too long. */
  lemma MtuExceeded(base: nat, seqno: nat, payload: Bytes)
    requires |payload| == 1000
    ensures var mtu := Overhead(base, seqno, 1000) + 100;
            && !FitsWhole(base, mtu, seqno, payload) && MaxPayload(base, mtu, seqno, 1000) == 100
            && exists b :: b in Fragments(seqno, payload, 100, 0) && Size(base, b) > mtu
  {
    var mtu := Overhead(base, seqno, 1000) + 100;
    WithinMtu(base, mtu, seqno, payload);
    var full := LastFull(1000, 100);
    assert Head(full) == 3;
  }
}
