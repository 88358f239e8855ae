/**
 * The 32-byte `AmiiboSettings` block of a tag as bytes: the settings flag
 * byte, the country code, `crc_counter` (`u16_be`), the creation and last
 * write dates (each an `AmiiboDate`, whose bytes are its packed value in
 * big-endian order), `crc` (`u32_be`) and the name as ten `u16_be` UTF-16
 * code units.
 */
module AmiiboSettingsBlock {
  import opened Wrappers
  import opened Bytes
  import opened Layout
  import opened TagLayouts

  const BlockSize: nat := 0x20

  type AmiiboNameUnits = units: seq<bv16> | |units| == AmiiboNameLength
    witness [0, 0, 0, 0, 0, 0, 0, 0, 0, 0]

  /** The block's fields; the dates hold the packed value `AmiiboDate::GetValue` returns. */
  datatype AmiiboSettings = AmiiboSettings(
    settings: bv8,
    countryCodeId: bv8,
    crcCounter: bv16,
    initDate: bv16,
    writeDate: bv16,
    crc: bv32,
    amiiboName: AmiiboNameUnits)

  function Serialize(s: AmiiboSettings): (b: seq<bv8>)
    ensures |b| == BlockSize
  {
    [s.settings, s.countryCodeId]
      + BigEndian16(s.crcCounter)
      + BigEndian16(s.initDate)
      + BigEndian16(s.writeDate)
      + BigEndian32(s.crc)
      + EncodeUnits(s.amiiboName)
  }

  /** Reads a block; anything but exactly 32 bytes is not one. */
  function Parse(b: seq<bv8>): (r: Option<AmiiboSettings>)
    ensures r.Some? <==> |b| == BlockSize
  {
    if |b| != BlockSize then None
    else
      Some(AmiiboSettings(
        b[0],
        b[1],
        ReadBigEndian16(b[2..4]),
        ReadBigEndian16(b[4..6]),
        ReadBigEndian16(b[6..8]),
        ReadBigEndian32(b[8..12]),
        DecodeUnits(b[12..32])))
  }

  lemma ParseSerialize(s: AmiiboSettings)
    ensures Parse(Serialize(s)) == Some(s)
  {
    var b := Serialize(s);
    var head := [s.settings, s.countryCodeId] + BigEndian16(s.crcCounter) + BigEndian16(s.initDate)
      + BigEndian16(s.writeDate) + BigEndian32(s.crc);
    assert b == head + EncodeUnits(s.amiiboName);
    assert b[2..4] == BigEndian16(s.crcCounter);
    assert b[4..6] == BigEndian16(s.initDate);
    assert b[6..8] == BigEndian16(s.writeDate);
    assert b[8..12] == BigEndian32(s.crc);
    assert b[12..32] == EncodeUnits(s.amiiboName);
    ReadBigEndian16Inverse(s.crcCounter, []);
    ReadBigEndian16Inverse(s.initDate, []);
    ReadBigEndian16Inverse(s.writeDate, []);
    ReadBigEndian32Inverse(s.crc, []);
    DecodeEncodeUnits(s.amiiboName);
  }

  lemma SerializeParse(b: seq<bv8>)
    requires |b| == BlockSize
    ensures Parse(b).Some? && Serialize(Parse(b).value) == b
  {
    var s := Parse(b).value;
    ReadBigEndian16Inverse(0, b[2..4]);
    ReadBigEndian16Inverse(0, b[4..6]);
    ReadBigEndian16Inverse(0, b[6..8]);
    ReadBigEndian32Inverse(0, b[8..12]);
    EncodeDecodeUnits(b[12..32]);
    assert [s.settings, s.countryCodeId] == b[..2];
    BlockPieces(b);
  }

  /** A block is its 2 header bytes and its 2, 2, 2, 4 and 20-byte fields put back together. */
  lemma BlockPieces(b: seq<bv8>)
    requires |b| == BlockSize
    ensures b == b[..2] + b[2..4] + b[4..6] + b[6..8] + b[8..12] + b[12..32]
  {
    assert b == b[..12] + b[12..32];
    assert b[..12] == b[..8] + b[8..12];
    assert b[..8] == b[..6] + b[6..8];
    assert b[..6] == b[..4] + b[4..6];
    assert b[..4] == b[..2] + b[2..4];
  }

  /**
   * The bytes land where the struct layout puts each member, and the block is
   * exactly `sizeof(AmiiboSettings)` long.
   */
  lemma SerializeFollowsLayout(s: AmiiboSettings)
    ensures Offsets(AmiiboSettingsLayout) == [0, 1, 2, 4, 6, 8, 12]
    ensures |Serialize(s)| == SizeOf(AmiiboSettingsLayout)
    ensures var b := Serialize(s);
      && b[0] == s.settings
      && b[1] == s.countryCodeId
      && b[2..4] == BigEndian16(s.crcCounter)
      && b[4..6] == BigEndian16(s.initDate)
      && b[6..8] == BigEndian16(s.writeDate)
      && b[8..12] == BigEndian32(s.crc)
      && b[12..] == EncodeUnits(s.amiiboName)
  {
    AmiiboSettingsLayoutSize();
    AmiiboSettingsOffsets();
    var b := Serialize(s);
    assert b[2..4] == BigEndian16(s.crcCounter);
    assert b[4..6] == BigEndian16(s.initDate);
    assert b[6..8] == BigEndian16(s.writeDate);
    assert b[8..12] == BigEndian32(s.crc);
    assert b[12..] == EncodeUnits(s.amiiboName);
  }
}
