/**
 The address-exchange control frame: a fixed eight-byte marker, a count, and one tagged record
 per address. Both directions of the codec are characterised on all inputs: lists longer than
 255, identifiers longer than 255 bytes, IPv6 scope and flow, and trailing bytes included.
 */
module AddrExchange {
  import opened Types

  newtype u16 = x: int | 0 <= x < 0x1_0000

  type Bytes4 = b: Bytes | |b| == 4 witness [0, 0, 0, 0]

  type Bytes16 = b: Bytes | |b| == 16 witness seq(16, _ => 0)

  // ---- text --------------------------------------------------------------------

  predicate Continuation(b: byte) {
    0x80 <= b <= 0xBF
  }

  /** Length of the well-formed UTF-8 sequence (RFC 3629 section 4) at the front of `b`; 0 if there is none. */
  function Utf8Width(b: Bytes): (n: nat)
    ensures n <= |b| && n <= 4
  {
    if b == [] then 0
    else if b[0] < 0x80 then 1
    else if |b| >= 2 && 0xC2 <= b[0] <= 0xDF && Continuation(b[1]) then 2
    else if |b| >= 3 && Continuation(b[1]) && Continuation(b[2])
            && ((b[0] == 0xE0 && 0xA0 <= b[1]) || 0xE1 <= b[0] <= 0xEC || (b[0] == 0xED && b[1] <= 0x9F) || 0xEE <= b[0] <= 0xEF)
    then 3
    else if |b| >= 4 && Continuation(b[1]) && Continuation(b[2]) && Continuation(b[3])
            && ((b[0] == 0xF0 && 0x90 <= b[1]) || 0xF1 <= b[0] <= 0xF3 || (b[0] == 0xF4 && b[1] <= 0x8F))
    then 4
    else 0
  }

  predicate IsUtf8(b: Bytes) {
    b == [] || (Utf8Width(b) > 0 && IsUtf8(b[Utf8Width(b)..]))
  }

  /** A string, as its UTF-8 bytes. */
  type Text = b: Bytes | IsUtf8(b) witness []

  // ---- addresses ---------------------------------------------------------------

  datatype SocketAddr =
    | V4(ip4: Bytes4, port: u16)
    | V6(ip6: Bytes16, port: u16, flow: nat, scope: nat)

  datatype PeerAddress =
    | Quic(addr: SocketAddr)
    | Ble(id: Text)
    | WifiDirect(id: Text)
    | BleAdvertising(id: Text)

  const CTRL: Bytes8 := [0, 0, 0, 0, 0, 0, 0, 1]

  function PortBytes(p: u16): Bytes {
    [(p / 256) as byte, (p % 256) as byte]
  }

  function Port(hi: byte, lo: byte): u16 {
    hi as u16 * 256 + lo as u16
  }

  /** At most the first 255 bytes. */
  function Cut(b: Bytes): Bytes {
    if |b| <= 255 then b else b[..255]
  }

  function TextRecord(tag: byte, id: Bytes): Bytes {
    [tag, |Cut(id)| as byte] + Cut(id)
  }

  function EncodeAddr(a: PeerAddress): Bytes {
    match a
    case Quic(V4(ip, port)) => [0] + ip + PortBytes(port)
    case Quic(V6(ip, port, _, _)) => [1] + ip + PortBytes(port)
    case Ble(id) => TextRecord(2, id)
    case WifiDirect(id) => TextRecord(3, id)
    case BleAdvertising(id) => TextRecord(4, id)
  }

  function EncodeAddrs(addrs: seq<PeerAddress>): Bytes {
    if addrs == [] then [] else EncodeAddrs(addrs[..|addrs| - 1]) + EncodeAddr(addrs[|addrs| - 1])
  }

  /** The bytes of each kind of address. */
  lemma AddrLayout(a: PeerAddress)
    ensures var b := EncodeAddr(a);
            match a
            case Quic(V4(ip, port)) => |b| == 7 && b[0] == 0 && b[1..5] == ip && port as int == 256 * b[5] as int + b[6] as int
            case Quic(V6(ip, port, _, _)) => |b| == 19 && b[0] == 1 && b[1..17] == ip && port as int == 256 * b[17] as int + b[18] as int
            case Ble(id) => TextLayout(b, 2, id)
            case WifiDirect(id) => TextLayout(b, 3, id)
            case BleAdvertising(id) => TextLayout(b, 4, id)
  {
  }

  /** A tag, a length, and as much of the text as the length can say. */
  predicate TextLayout(b: Bytes, tag: byte, id: Bytes) {
    var n := if |id| < 255 then |id| else 255;
    |b| == 2 + n && b[0] == tag && b[1] as int == n && b[2..] == id[..n]
  }

  function First255(addrs: seq<PeerAddress>): seq<PeerAddress> {
    if |addrs| <= 255 then addrs else addrs[..255]
  }

  function Encode(addrs: seq<PeerAddress>): Bytes {
    CTRL + [|First255(addrs)| as byte] + EncodeAddrs(First255(addrs))
  }

  /** The control type, the number of addresses, then the addresses. */
  lemma FrameLayout(addrs: seq<PeerAddress>)
    ensures var b, n := Encode(addrs), if |addrs| < 255 then |addrs| else 255;
            |b| >= 9 && b[..8] == [0, 0, 0, 0, 0, 0, 0, 1] && b[8] as int == n && b[9..] == EncodeAddrs(addrs[..n])
  {
    assert |addrs| <= 255 ==> addrs[..|addrs|] == addrs;
  }

  function TextAddr(tag: byte, id: Text): PeerAddress
    requires 2 <= tag <= 4
  {
    if tag == 2 then Ble(id) else if tag == 3 then WifiDirect(id) else BleAdvertising(id)
  }

  /** The address at the front of `b` and how many bytes it takes; None when there is none. */
  function DecodeAddr(b: Bytes): (r: Option<(PeerAddress, nat)>)
    ensures r.Some? ==> 0 < r.value.1 <= |b|
  {
    if b == [] then None
    else if b[0] == 0 then
      if |b| < 7 then None else Some((Quic(V4(b[1..5], Port(b[5], b[6]))), 7))
    else if b[0] == 1 then
      if |b| < 19 then None else Some((Quic(V6(b[1..17], Port(b[17], b[18]), 0, 0)), 19))
    else if b[0] <= 4 then
      if |b| < 2 || |b| < 2 + b[1] as nat || !IsUtf8(b[2..2 + b[1] as nat]) then None
      else Some((TextAddr(b[0], b[2..2 + b[1] as nat]), 2 + b[1] as nat))
    else None
  }

  function DecodeAddrs(b: Bytes, count: nat): Option<seq<PeerAddress>> {
    if count == 0 then Some([])
    else
      match DecodeAddr(b)
      case None => None
      case Some((a, n)) =>
        match DecodeAddrs(b[n..], count - 1)
        case None => None
        case Some(rest) => Some([a] + rest)
  }

  function Decode(b: Bytes): Option<seq<PeerAddress>> {
    if |b| < 9 || b[0..8] != CTRL then None else DecodeAddrs(b[9..], b[8] as nat)
  }

  // ---- the loops ---------------------------------------------------------------

  method AppendText(buf: Bytes, tag: byte, id: Bytes) returns (buf': Bytes)
    ensures buf' == buf + TextRecord(tag, id)
  {
    var len := if |id| < 255 then |id| else 255;
    assert id[..len] == Cut(id);
    buf' := buf + [tag];
    buf' := buf' + [len as byte];
    buf' := buf' + id[..len];
  }

  method AppendAddr(buf: Bytes, a: PeerAddress) returns (buf': Bytes)
    ensures buf' == buf + EncodeAddr(a)
  {
    match a {
      case Quic(V4(ip, port)) =>
        buf' := buf + [0];
        buf' := buf' + ip;
        buf' := buf' + PortBytes(port);
      case Quic(V6(ip, port, _, _)) =>
        buf' := buf + [1];
        buf' := buf' + ip;
        buf' := buf' + PortBytes(port);
      case Ble(id) => buf' := AppendText(buf, 2, id);
      case WifiDirect(id) => buf' := AppendText(buf, 3, id);
      case BleAdvertising(id) => buf' := AppendText(buf, 4, id);
    }
  }

  method EncodeAddrExchange(addrs: seq<PeerAddress>) returns (buf: Bytes)
    ensures buf == Encode(addrs)
  {
    hide EncodeAddr;
    var count := if |addrs| < 255 then |addrs| else 255;
    buf := CTRL;
    buf := buf + [count as byte];
    var i := 0;
    while i < count
      invariant 0 <= i <= count
      invariant buf == CTRL + [count as byte] + EncodeAddrs(addrs[..i])
    {
      assert addrs[..i + 1][..i] == addrs[..i];
      buf := AppendAddr(buf, addrs[i]);
      i := i + 1;
    }
    assert addrs[..count] == First255(addrs);
  }

  /** Reads one address at `pos`. */
  method ReadAddr(bytes: Bytes, start: nat) returns (r: Option<PeerAddress>, pos: nat)
    requires start <= |bytes|
    ensures match DecodeAddr(bytes[start..])
            case None => r.None?
            case Some((a, n)) => r == Some(a) && pos == start + n
  {
    r, pos := None, start;
    ghost var rest := bytes[start..];
    if pos >= |bytes| {
      return;
    }
    var tag := bytes[pos];
    pos := pos + 1;
    if tag == 0 {
      if pos + 6 > |bytes| {
        return;
      }
      assert bytes[pos..pos + 4] == rest[1..5];
      r := Some(Quic(V4(bytes[pos..pos + 4], Port(bytes[pos + 4], bytes[pos + 5]))));
      pos := pos + 6;
    } else if tag == 1 {
      if pos + 18 > |bytes| {
        return;
      }
      assert bytes[pos..pos + 16] == rest[1..17];
      r := Some(Quic(V6(bytes[pos..pos + 16], Port(bytes[pos + 16], bytes[pos + 17]), 0, 0)));
      pos := pos + 18;
    } else if tag <= 4 {
      if pos >= |bytes| {
        return;
      }
      var len := bytes[pos] as nat;
      pos := pos + 1;
      if pos + len > |bytes| {
        return;
      }
      var id := bytes[pos..pos + len];
      assert id == rest[2..2 + len];
      if IsUtf8(id) {
        r := Some(TextAddr(tag, id));
        pos := pos + len;
      }
    }
  }

  function Prepend(addrs: seq<PeerAddress>, rest: Option<seq<PeerAddress>>): Option<seq<PeerAddress>> {
    if rest.None? then None else Some(addrs + rest.value)
  }

  method DecodeAddrExchange(bytes: Bytes) returns (r: Option<seq<PeerAddress>>)
    ensures r == Decode(bytes)
  {
    hide DecodeAddr;
    if |bytes| < 9 || bytes[0..8] != CTRL {
      return None;
    }
    var count := bytes[8] as nat;
    var pos := 9;
    var addrs: seq<PeerAddress> := [];
    var i := 0;
    ghost var all := DecodeAddrs(bytes[9..], count);
    assert all.Some? ==> [] + all.value == all.value;
    while i < count
      invariant 0 <= i <= count && 9 <= pos <= |bytes|
      invariant Decode(bytes) == Prepend(addrs, DecodeAddrs(bytes[pos..], count - i))
    {
      var a, next := ReadAddr(bytes, pos);
      if a.None? {
        return None;
      }
      assert bytes[pos..][next - pos..] == bytes[next..];
      ghost var rest := DecodeAddrs(bytes[next..], count - i - 1);
      assert rest.Some? ==> addrs + ([a.value] + rest.value) == addrs + [a.value] + rest.value;
      addrs, pos := addrs + [a.value], next;
      i := i + 1;
    }
    assert addrs + [] == addrs;
    return Some(addrs);
  }

  // ---- decoding an encoding ----------------------------------------------------

  /** An address survives the trip when cutting its identifier to 255 bytes does not split a character. */
  predicate Survives(a: PeerAddress) {
    a.Quic? || IsUtf8(Cut(a.id))
  }

  /** What arrives: identifiers cut to 255 bytes, IPv6 flow and scope zeroed. */
  function Arrives(a: PeerAddress): PeerAddress
    requires Survives(a)
  {
    match a
    case Quic(V4(ip, port)) => a
    case Quic(V6(ip, port, _, _)) => Quic(V6(ip, port, 0, 0))
    case Ble(id) => Ble(Cut(id))
    case WifiDirect(id) => WifiDirect(Cut(id))
    case BleAdvertising(id) => BleAdvertising(Cut(id))
  }

  lemma PortRoundTrip(p: u16)
    ensures Port(PortBytes(p)[0], PortBytes(p)[1]) == p
  {
  }

  lemma TextRoundTrip(tag: byte, id: Bytes, tail: Bytes)
    requires 2 <= tag <= 4
    ensures DecodeAddr(TextRecord(tag, id) + tail) ==
            if IsUtf8(Cut(id)) then Some((TextAddr(tag, Cut(id)), |TextRecord(tag, id)|)) else None
  {
  }

  lemma AddrRoundTrip(a: PeerAddress, tail: Bytes)
    ensures DecodeAddr(EncodeAddr(a) + tail) ==
            if Survives(a) then Some((Arrives(a), |EncodeAddr(a)|)) else None
  {
    hide IsUtf8;
    var b := EncodeAddr(a) + tail;
    match a
    case Quic(V4(ip, port)) =>
      assert b[1..5] == ip;
      assert b[5] == PortBytes(port)[0] && b[6] == PortBytes(port)[1];
      PortRoundTrip(port);
    case Quic(V6(ip, port, _, _)) =>
      assert b[1..17] == ip;
      assert b[17] == PortBytes(port)[0] && b[18] == PortBytes(port)[1];
      PortRoundTrip(port);
    case Ble(id) => TextRoundTrip(2, id, tail);
    case WifiDirect(id) => TextRoundTrip(3, id, tail);
    case BleAdvertising(id) => TextRoundTrip(4, id, tail);
  }

  /** What a list of addresses decodes to: None if one of them does not survive. */
  function ArriveAll(addrs: seq<PeerAddress>): Option<seq<PeerAddress>> {
    if addrs == [] then Some([])
    else if !Survives(addrs[0]) then None
    else Prepend([Arrives(addrs[0])], ArriveAll(addrs[1..]))
  }

  lemma {:induction false} EncodeAddrsFirst(addrs: seq<PeerAddress>)
    requires addrs != []
    ensures EncodeAddrs(addrs) == EncodeAddr(addrs[0]) + EncodeAddrs(addrs[1..])
  {
    if |addrs| > 1 {
      var n := |addrs| - 1;
      EncodeAddrsFirst(addrs[..n]);
      assert addrs[..n][1..] == addrs[1..][..n - 1];
      assert addrs[1..][n - 1] == addrs[n];
    }
  }

  lemma {:induction false} AddrsRoundTrip(addrs: seq<PeerAddress>, tail: Bytes)
    ensures DecodeAddrs(EncodeAddrs(addrs) + tail, |addrs|) == ArriveAll(addrs)
  {
    hide DecodeAddr, EncodeAddr, Arrives, Survives;
    if addrs != [] {
      EncodeAddrsFirst(addrs);
      var front, rest := EncodeAddr(addrs[0]), EncodeAddrs(addrs[1..]);
      assert EncodeAddrs(addrs) + tail == front + (rest + tail);
      AddrRoundTrip(addrs[0], rest + tail);
      AddrsRoundTrip(addrs[1..], tail);
      assert (front + (rest + tail))[|front|..] == rest + tail;
    }
  }

  /**
   Decoding an encoding, with anything behind it, gives back the first 255 addresses as they
   survive the trip; it fails exactly when cutting one of their identifiers splits a character.
   */
  lemma DecodeEncode(addrs: seq<PeerAddress>, tail: Bytes)
    ensures Decode(Encode(addrs) + tail) == ArriveAll(First255(addrs))
  {
    hide DecodeAddrs, EncodeAddrs;
    var b, list := Encode(addrs) + tail, First255(addrs);
    assert b[0..8] == CTRL;
    assert b[8] as nat == |list|;
    assert b[9..] == EncodeAddrs(list) + tail;
    AddrsRoundTrip(list, tail);
  }

  /** Addresses with short identifiers and no IPv6 flow or scope come back unchanged. */
  predicate Plain(a: PeerAddress) {
    match a
    case Quic(V4(_, _)) => true
    case Quic(V6(_, _, flow, scope)) => flow == 0 && scope == 0
    case _ => |a.id| <= 255
  }

  lemma {:induction false} PlainUnchanged(addrs: seq<PeerAddress>)
    requires forall a :: a in addrs ==> Plain(a)
    ensures ArriveAll(addrs) == Some(addrs)
  {
    if addrs != [] {
      assert addrs[0] in addrs;
      PlainUnchanged(addrs[1..]);
      assert [addrs[0]] + addrs[1..] == addrs;
    }
  }

  // ---- encoding what was decoded -----------------------------------------------

  lemma ReencodeAddr(b: Bytes)
    requires DecodeAddr(b).Some?
    ensures var (a, n) := DecodeAddr(b).value; EncodeAddr(a) == b[..n] && Plain(a)
  {
    hide IsUtf8;
    var (a, n) := DecodeAddr(b).value;
    if b[0] == 0 {
      assert PortBytes(Port(b[5], b[6])) == [b[5], b[6]];
      assert b[..7] == [b[0]] + b[1..5] + [b[5], b[6]];
    } else if b[0] == 1 {
      assert PortBytes(Port(b[17], b[18])) == [b[17], b[18]];
      assert b[..19] == [b[0]] + b[1..17] + [b[17], b[18]];
    } else {
      assert b[..n] == [b[0], b[1]] + b[2..n];
    }
  }

  lemma {:induction false} ReencodeAddrs(b: Bytes, count: nat)
    requires DecodeAddrs(b, count).Some?
    ensures |DecodeAddrs(b, count).value| == count
    ensures EncodeAddrs(DecodeAddrs(b, count).value) <= b
    ensures forall a :: a in DecodeAddrs(b, count).value ==> Plain(a)
  {
    hide DecodeAddr, EncodeAddr, Plain;
    if count > 0 {
      var (a, n) := DecodeAddr(b).value;
      ReencodeAddr(b);
      ReencodeAddrs(b[n..], count - 1);
      var list := DecodeAddrs(b, count).value;
      EncodeAddrsFirst(list);
      assert list[1..] == DecodeAddrs(b[n..], count - 1).value;
      assert b == b[..n] + b[n..];
    }
  }

  /** Whenever decoding succeeds, encoding the result gives a prefix of what was decoded. */
  lemma EncodeDecode(b: Bytes)
    requires Decode(b).Some?
    ensures Encode(Decode(b).value) <= b
  {
    hide DecodeAddrs, EncodeAddrs;
    var addrs := Decode(b).value;
    ReencodeAddrs(b[9..], b[8] as nat);
    assert First255(addrs) == addrs;
    assert b == b[0..8] + [b[8]] + b[9..];
    assert Encode(addrs) == b[0..8] + [b[8]] + EncodeAddrs(addrs);
  }
}
