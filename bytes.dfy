/**
 * Fixed-width integers and the little/big-endian readers shared by both
 * module parsers (`read_le_u16`, `read_le_u32` and the big-endian sample
 * length reader). Every reader takes the whole immutable buffer and an
 * offset, and its precondition is exactly the bounds check its callers make
 * before reading.
 */
module Bytes {

  type uint8 = x: int | 0 <= x < 0x100
  type uint16 = x: int | 0 <= x < 0x1_0000
  type uint32 = x: int | 0 <= x < 0x1_0000_0000

  datatype Option<T> = None | Some(value: T)

  function Min(a: int, b: int): int { if a < b then a else b }

  function Max(a: int, b: int): int { if a < b then b else a }

  /** `read_le_u16`: the two bytes at `off`, least significant first. */
  function LeU16(data: seq<uint8>, off: nat): (v: uint16)
    requires off + 2 <= |data|
    ensures v % 0x100 == data[off] && v / 0x100 == data[off + 1]
  {
    data[off] as int + 0x100 * data[off + 1] as int
  }

  /** `read_le_u32`: the four bytes at `off`, least significant first. */
  function LeU32(data: seq<uint8>, off: nat): (v: uint32)
    requires off + 4 <= |data|
    ensures v % 0x100 == data[off] && v / 0x100_0000 == data[off + 3]
  {
    data[off] as int + 0x100 * data[off + 1] as int + 0x1_0000 * data[off + 2] as int
      + 0x100_0000 * data[off + 3] as int
  }

  /** The two bytes at `off`, most significant first (MOD sample fields). */
  function BeU16(data: seq<uint8>, off: nat): uint16
    requires off + 2 <= |data|
  {
    0x100 * data[off] as int + data[off + 1] as int
  }

  /** The byte layout a little-endian 16-bit field has on disk. */
  function EncodeLeU16(v: uint16): (b: seq<uint8>)
    ensures |b| == 2
  {
    [v % 0x100, v / 0x100]
  }

  /** The byte layout a little-endian 32-bit field has on disk. */
  function EncodeLeU32(v: uint32): (b: seq<uint8>)
    ensures |b| == 4
  {
    EncodeLeU16(v % 0x1_0000) + EncodeLeU16(v / 0x1_0000)
  }

  /** The byte layout a big-endian 16-bit field has on disk. */
  function EncodeBeU16(v: uint16): (b: seq<uint8>)
    ensures |b| == 2
  {
    [v / 0x100, v % 0x100]
  }

  /** A 32-bit little-endian field is its low half plus 65536 times its high half. */
  lemma LeU32Halves(data: seq<uint8>, off: nat)
    requires off + 4 <= |data|
    ensures LeU32(data, off) == LeU16(data, off) + 0x1_0000 * LeU16(data, off + 2)
  {
  }

  /** Reading back an encoded 16-bit value gives the value. */
  lemma LeU16RoundTrip(v: uint16)
    ensures LeU16(EncodeLeU16(v), 0) == v
  {
  }

  /** Encoding the 16-bit value read at `off` gives back the two bytes read. */
  lemma LeU16Inverse(data: seq<uint8>, off: nat)
    requires off + 2 <= |data|
    ensures EncodeLeU16(LeU16(data, off)) == data[off..off + 2]
  {
    var lo: int, hi: int := data[off], data[off + 1];
    assert (lo + 0x100 * hi) % 0x100 == lo;
    assert (lo + 0x100 * hi) / 0x100 == hi;
  }

  /** Reading back an encoded 32-bit value gives the value. */
  lemma LeU32RoundTrip(v: uint32)
    ensures LeU32(EncodeLeU32(v), 0) == v
  {
    var b := EncodeLeU32(v);
    LeU32Halves(b, 0);
    assert b[..2] == EncodeLeU16(v % 0x1_0000);
    assert b[2..] == EncodeLeU16(v / 0x1_0000);
    LeU16RoundTrip(v % 0x1_0000);
    LeU16RoundTrip(v / 0x1_0000);
    assert LeU16(b, 0) == LeU16(b[..2], 0);
    assert LeU16(b, 2) == LeU16(b[2..], 0);
  }

  /** Encoding the 32-bit value read at `off` gives back the four bytes read. */
  lemma LeU32Inverse(data: seq<uint8>, off: nat)
    requires off + 4 <= |data|
    ensures EncodeLeU32(LeU32(data, off)) == data[off..off + 4]
  {
    var lo: int, hi: int := LeU16(data, off), LeU16(data, off + 2);
    LeU32Halves(data, off);
    assert (lo + 0x1_0000 * hi) % 0x1_0000 == lo;
    assert (lo + 0x1_0000 * hi) / 0x1_0000 == hi;
    LeU16Inverse(data, off);
    LeU16Inverse(data, off + 2);
  }

  /** Reading back an encoded big-endian value gives the value. */
  lemma BeU16RoundTrip(v: uint16)
    ensures BeU16(EncodeBeU16(v), 0) == v
  {
  }
}
