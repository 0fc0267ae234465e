/** Bytes, identifiers and constants shared by every component. */
module Types {

  newtype byte = x: int | 0 <= x < 256

  type Bytes = seq<byte>

  type Bytes8 = b: Bytes | |b| == 8 witness [0, 0, 0, 0, 0, 0, 0, 0]

  type Bytes32 = b: Bytes | |b| == 32 witness seq(32, _ => 0)

  /** A node's identity: the 32-byte hash of its static public key. */
  datatype PeerId = PeerId(bytes: Bytes32)

  /** A message id, kept as the eight big-endian bytes that carry it: ids are only copied and compared. */
  datatype MsgId = MsgId(bytes: Bytes8)

  /** A Curve25519 static public key. */
  type Key = Bytes32

  /** Clock readings, in seconds. */
  type Time = nat

  datatype Option<+T> = None | Some(value: T)

  /** Hops a frame may still be relayed when it leaves its origin. */
  const MAX_TTL: byte := 7

  /** How long an accepted message id suppresses further copies. */
  const DEDUP_TTL: nat := 60

  ghost predicate Distinct<T(!new)>(s: seq<T>) {
    forall i, j :: 0 <= i < j < |s| ==> s[i] != s[j]
  }
}
