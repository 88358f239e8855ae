/**
 * Big-endian byte encodings of the `u16_be` and `u32_be` fields of a tag, and
 * of a run of UTF-16 code units stored as consecutive `u16_be` values.
 */
module Bytes {

  function BigEndian16(x: bv16): (b: seq<bv8>)
    ensures |b| == 2
  {
    [(x >> 8) as bv8, (x & 0xFF) as bv8]
  }

  /** The two bytes of `x` in the order a little-endian host keeps them in memory. */
  function LittleEndian16(x: bv16): (b: seq<bv8>)
    ensures |b| == 2
  {
    [(x & 0xFF) as bv8, (x >> 8) as bv8]
  }

  function ReadBigEndian16(b: seq<bv8>): bv16
    requires |b| == 2
  {
    (b[0] as bv16 << 8) | b[1] as bv16
  }

  function BigEndian32(x: bv32): (b: seq<bv8>)
    ensures |b| == 4
  {
    [(x >> 24) as bv8, ((x >> 16) & 0xFF) as bv8, ((x >> 8) & 0xFF) as bv8, (x & 0xFF) as bv8]
  }

  function ReadBigEndian32(b: seq<bv8>): bv32
    requires |b| == 4
  {
    (b[0] as bv32 << 24) | (b[1] as bv32 << 16) | (b[2] as bv32 << 8) | b[3] as bv32
  }

  lemma ReadBigEndian16Inverse(x: bv16, b: seq<bv8>)
    ensures ReadBigEndian16(BigEndian16(x)) == x
    ensures |b| == 2 ==> BigEndian16(ReadBigEndian16(b)) == b
  {
  }

  lemma ReadBigEndian32Inverse(x: bv32, b: seq<bv8>)
    ensures ReadBigEndian32(BigEndian32(x)) == x
    ensures |b| == 4 ==> BigEndian32(ReadBigEndian32(b)) == b
  {
  }

  /** `u16_be` code units, each as two big-endian bytes, back to back. */
  function EncodeUnits(units: seq<bv16>): (b: seq<bv8>)
    ensures |b| == 2 * |units|
  {
    if units == [] then [] else BigEndian16(units[0]) + EncodeUnits(units[1..])
  }

  function DecodeUnits(b: seq<bv8>): (units: seq<bv16>)
    requires |b| % 2 == 0
    ensures |units| == |b| / 2
  {
    if b == [] then [] else [ReadBigEndian16(b[..2])] + DecodeUnits(b[2..])
  }

  lemma {:induction false} DecodeEncodeUnits(units: seq<bv16>)
    ensures DecodeUnits(EncodeUnits(units)) == units
  {
    if units != [] {
      var b := EncodeUnits(units);
      assert b[..2] == BigEndian16(units[0]);
      assert b[2..] == EncodeUnits(units[1..]);
      ReadBigEndian16Inverse(units[0], []);
      DecodeEncodeUnits(units[1..]);
    }
  }

  lemma {:induction false} EncodeDecodeUnits(b: seq<bv8>)
    requires |b| % 2 == 0
    ensures EncodeUnits(DecodeUnits(b)) == b
  {
    if b != [] {
      var units := DecodeUnits(b);
      assert units[1..] == DecodeUnits(b[2..]);
      ReadBigEndian16Inverse(0, b[..2]);
      EncodeDecodeUnits(b[2..]);
      assert b == b[..2] + b[2..];
    }
  }
}
