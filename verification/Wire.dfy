/**
 Application frames as bytes: an eight-byte message id, a route flag, and a body that
 depends on the flag. Encoding and parsing are inverse to each other in both directions.
 */
module Wire {
  import opened Types

  datatype Frame =
    | Direct(data: Bytes)                                                   // flag 0x00
    | Routed(dest: PeerId, ttl: byte, payload: Bytes)                       // flag 0x01
    | Announce(peer: PeerId, key: Key, ttl: byte)                           // flag 0x02
    | Sealed(dest: PeerId, ttl: byte, sender: PeerId, message: Bytes)       // flag 0x03

  datatype Message = Message(id: MsgId, frame: Frame)

  function EncodeKeyAnnouncement(peer: PeerId, key: Key, ttl: byte): Bytes {
    [2] + peer.bytes + key + [ttl]
  }

  /** The body of an announcement, without id and flag; only its length is checked. */
  function DecodeKeyAnnouncement(body: Bytes): Option<(PeerId, Key, byte)> {
    if |body| != 65 then None
    else Some((PeerId(body[0..32]), body[32..64], body[64]))
  }

  /** What a sender passes to the router: flag and body. */
  function Body(f: Frame): Bytes {
    match f
    case Direct(data) => [0] + data
    case Routed(dest, ttl, payload) => [1] + dest.bytes + [ttl] + payload
    case Announce(peer, key, ttl) => EncodeKeyAnnouncement(peer, key, ttl)
    case Sealed(dest, ttl, sender, message) => [3] + dest.bytes + [ttl] + (sender.bytes + message)
  }

  function Encode(m: Message): Bytes {
    m.id.bytes + Body(m.frame)
  }

  /** What the receiver makes of the bytes; None when it skips them. */
  function Parse(p: Bytes): Option<Message> {
    if |p| < 9 then None
    else
      var id := MsgId(p[0..8]);
      match p[8]
      case 0 => Some(Message(id, Direct(p[9..])))
      case 1 =>
        if |p| < 42 then None
        else Some(Message(id, Routed(PeerId(p[9..41]), p[41], p[42..])))
      case 2 =>
        (match DecodeKeyAnnouncement(p[9..])
         case None => None
         case Some((peer, key, ttl)) => Some(Message(id, Announce(peer, key, ttl))))
      case 3 =>
        if |p| < 74 then None
        else Some(Message(id, Sealed(PeerId(p[9..41]), p[41], PeerId(p[42..74]), p[74..])))
      case _ => None
  }

  /** Slices behind a prefix. */
  lemma Behind(a: Bytes, b: Bytes, i: nat, j: nat)
    requires i <= j <= |b|
    ensures (a + b)[|a| + i..|a| + j] == b[i..j] && (a + b)[|a| + j..] == b[j..]
  {
  }

  lemma RoutedBody(dest: PeerId, ttl: byte, payload: Bytes)
    ensures var b := Body(Routed(dest, ttl, payload));
            |b| >= 34 && b[0] == 1 && b[1..33] == dest.bytes && b[33] == ttl && b[34..] == payload
  {
  }

  lemma AnnounceBody(peer: PeerId, key: Key, ttl: byte)
    ensures var b := Body(Announce(peer, key, ttl));
            |b| == 66 && b[0] == 2 && DecodeKeyAnnouncement(b[1..]) == Some((peer, key, ttl))
  {
    var b := Body(Announce(peer, key, ttl));
    assert b[1..] == peer.bytes + key + [ttl];
    assert b[1..][0..32] == peer.bytes && b[1..][32..64] == key;
  }

  lemma SealedBody(dest: PeerId, ttl: byte, sender: PeerId, message: Bytes)
    ensures var b := Body(Sealed(dest, ttl, sender, message));
            && |b| >= 66 && b[0] == 3 && b[1..33] == dest.bytes && b[33] == ttl
            && b[34..66] == sender.bytes && b[66..] == message
  {
    var b := Body(Sealed(dest, ttl, sender, message));
    assert b[34..] == sender.bytes + message;
    assert b[34..66] == b[34..][..32] && b[66..] == b[34..][32..];
  }

  /** What was encoded is what is parsed. */
  lemma ParseEncode(m: Message)
    ensures Parse(Encode(m)) == Some(m)
  {
    hide Body, DecodeKeyAnnouncement;
    var id, b, p := m.id.bytes, Body(m.frame), Encode(m);
    assert p[0..8] == id;
    match m.frame
    case Direct(data) =>
      DirectBody(data);
      Behind(id, b, 1, 1);
    case Routed(dest, ttl, payload) =>
      RoutedBody(dest, ttl, payload);
      Behind(id, b, 1, 33);
      Behind(id, b, 34, 34);
    case Announce(peer, key, ttl) =>
      AnnounceBody(peer, key, ttl);
      Behind(id, b, 1, 1);
    case Sealed(dest, ttl, sender, message) =>
      SealedBody(dest, ttl, sender, message);
      Behind(id, b, 1, 33);
      Behind(id, b, 34, 66);
  }

  lemma DirectBody(data: Bytes)
    ensures var b := Body(Direct(data)); |b| >= 1 && b[0] == 0 && b[1..] == data
  {
  }

  /** Bytes that parse are exactly the encoding of what they parse to. */
  lemma EncodeParse(p: Bytes)
    requires Parse(p).Some?
    ensures Encode(Parse(p).value) == p
  {
    var m := Parse(p).value;
    assert p == p[0..8] + p[8..];
    match m.frame
    case Direct(data) => assert p[8..] == [p[8]] + p[9..];
    case Routed(dest, ttl, payload) =>
      assert p[8..] == [p[8]] + p[9..41] + [p[41]] + p[42..];
    case Announce(peer, key, ttl) =>
      var b := p[9..];
      assert b == b[0..32] + b[32..64] + [b[64]];
      assert p[8..] == [p[8]] + b;
    case Sealed(dest, ttl, sender, message) =>
      assert p[8..] == [p[8]] + p[9..41] + [p[41]] + (p[42..74] + p[74..]);
  }
}
