/**
 * The fixed byte layouts of an amiibo tag and of the records handed to the
 * host, as field-width tables, each with the size its `static_assert`
 * demands.
 */
module TagLayouts {
  import opened Layout

  /** `amiibo_name_length`: UTF-16 code units in a tag's name. */
  const AmiiboNameLength: nat := 0xA

  /**
   * Width of the Mii blob stored on the tag (`Ver3StoreData`). Its type lives
   * outside this model and is taken as opaque bytes; its width is the one the
   * 0x1F8 total of `EncryptedAmiiboFile` leaves for it (see MiiBlobWidthForced).
   */
  const MiiStoreDataWidth: nat := 0x60

  /**
   * Width of the host-side Mii record (`CharInfo`), likewise opaque here: the
   * one the 0x100 total of `RegisterInfo` leaves for it.
   */
  const MiiCharInfoWidth: nat := 0x58

  const AmiiboDateLayout := Struct([Field("raw_date", 2, 2)], Natural)

  const SettingsLayout := Struct([Field("raw", 1, 1)], Natural)

  const AmiiboSettingsLayout := Struct([
    Field("settings", SizeOf(SettingsLayout), AlignOf(SettingsLayout)),
    Field("country_code_id", 1, 1),
    Field("crc_counter", 2, 2),
    Field("init_date", SizeOf(AmiiboDateLayout), AlignOf(AmiiboDateLayout)),
    Field("write_date", SizeOf(AmiiboDateLayout), AlignOf(AmiiboDateLayout)),
    Field("crc", 4, 4),
    Field("amiibo_name", AmiiboNameLength * 2, 2)
  ], Natural)

  const AmiiboModelInfoLayout := Struct([
    Field("character_id", 2, 2),
    Field("character_variant", 1, 1),
    Field("amiibo_type", 1, 1),
    Field("model_number", 2, 2),
    Field("series", 1, 1),
    Field("constant_value", 1, 1),
    Field("padding", 4, 1)
  ], Natural)

  const NTAG215PasswordLayout := Struct([
    Field("PWD", 4, 4),
    Field("PACK", 2, 2),
    Field("RFUI", 2, 2)
  ], Natural)

  /** The user memory of the tag (pages 4 to 129), for a Mii blob of `miiWidth` bytes. */
  function EncryptedAmiiboFileWith(miiWidth: nat): Struct
  {
    Struct([
      Field("constant_value", 1, 1),
      Field("write_counter", 2, 2),
      Field("unknown1", 1, 1),
      Field("settings", SizeOf(AmiiboSettingsLayout), AlignOf(AmiiboSettingsLayout)),
      Field("hmac_tag", 0x20, 1),
      Field("model_info", SizeOf(AmiiboModelInfoLayout), AlignOf(AmiiboModelInfoLayout)),
      Field("keygen_salt", 0x20, 1),
      Field("hmac_data", 0x20, 1),
      Field("owner_mii", miiWidth, 1),
      Field("title_id", 8, 8),
      Field("applicaton_write_counter", 2, 2),
      Field("application_area_id", 4, 4),
      Field("unknown", 2, 1),
      Field("hash", 0x20, 1),
      Field("application_area", 0xD8, 1)
    ], Packed1)
  }

  const EncryptedAmiiboFileLayout := EncryptedAmiiboFileWith(MiiStoreDataWidth)

  const NTAG215FileLayout := Struct([
    Field("uuid2", 2, 1),
    Field("static_lock", 2, 2),
    Field("compability_container", 4, 4),
    Field("hmac_data", 0x20, 1),
    Field("constant_value", 1, 1),
    Field("write_counter", 2, 2),
    Field("unknown1", 1, 1),
    Field("settings", SizeOf(AmiiboSettingsLayout), AlignOf(AmiiboSettingsLayout)),
    Field("owner_mii", MiiStoreDataWidth, 1),
    Field("title_id", 8, 8),
    Field("applicaton_write_counter", 2, 2),
    Field("application_area_id", 4, 4),
    Field("unknown", 2, 1),
    Field("hash", 0x20, 1),
    Field("application_area", 0xD8, 1),
    Field("hmac_tag", 0x20, 1),
    Field("uuid", 8, 1),
    Field("model_info", SizeOf(AmiiboModelInfoLayout), AlignOf(AmiiboModelInfoLayout)),
    Field("keygen_salt", 0x20, 1),
    Field("dynamic_lock", 4, 4),
    Field("CFG0", 4, 4),
    Field("CFG1", 4, 4),
    Field("password", SizeOf(NTAG215PasswordLayout), AlignOf(NTAG215PasswordLayout))
  ], Packed1)

  const EncryptedNTAG215FileLayout := Struct([
    Field("uuid", 10, 1),
    Field("static_lock", 2, 2),
    Field("compability_container", 4, 4),
    Field("user_memory", SizeOf(EncryptedAmiiboFileLayout), AlignOf(EncryptedAmiiboFileLayout)),
    Field("dynamic_lock", 4, 4),
    Field("CFG0", 4, 4),
    Field("CFG1", 4, 4),
    Field("password", SizeOf(NTAG215PasswordLayout), AlignOf(NTAG215PasswordLayout))
  ], Natural)

  const TagInfoLayout := Struct([
    Field("uuid", 10, 1),
    Field("uuid_length", 1, 1),
    Field("padding1", 0x15, 1),
    Field("protocol", 4, 4),
    Field("tag_type", 4, 4),
    Field("padding2", 0x30, 1)
  ], Natural)

  const WriteDateLayout := Struct([
    Field("year", 2, 2),
    Field("month", 1, 1),
    Field("day", 1, 1)
  ], Natural)

  const CommonInfoLayout := Struct([
    Field("last_write_date", SizeOf(WriteDateLayout), AlignOf(WriteDateLayout)),
    Field("write_counter", 2, 2),
    Field("version", 1, 1),
    Field("padding1", 1, 1),
    Field("application_area_size", 4, 4),
    Field("padding2", 0x34, 1)
  ], Natural)

  const ModelInfoLayout := Struct([
    Field("character_id", 2, 2),
    Field("character_variant", 1, 1),
    Field("amiibo_type", 1, 1),
    Field("model_number", 2, 2),
    Field("series", 1, 1),
    Field("padding", 0x39, 1)
  ], Natural)

  const RegisterInfoLayout := Struct([
    Field("mii_char_info", MiiCharInfoWidth, 1),
    Field("creation_date", SizeOf(WriteDateLayout), AlignOf(WriteDateLayout)),
    Field("amiibo_name", AmiiboNameLength * 4 + 1, 1),
    Field("font_region", 1, 1),
    Field("padding", 0x7A, 1)
  ], Natural)

  // -----------------------------------------------------------------------
  // The static_asserts
  //
  // Each proof lists, member by member from the last, the bytes the members
  // from there on take (`WidthFrom`) and checks that each member is aligned
  // where the previous one ends (`Aligned`); `ContiguousIff` then turns that
  // into "no implicit padding", and the size follows.
  // -----------------------------------------------------------------------

  lemma AmiiboDateLayoutSize()
    ensures Contiguous(AmiiboDateLayout) && SizeOf(AmiiboDateLayout) == 2
    ensures AlignOf(AmiiboDateLayout) == 2
  {
    var fs, p := AmiiboDateLayout.fields, AmiiboDateLayout.packing;
    assert WidthFrom(fs, 0) == 2;
    assert Aligned(fs, p, 0, 0);
    assert MaxAlign(fs, p, 1) == 1;
    ContiguousIff(AmiiboDateLayout);
  }

  lemma SettingsLayoutSize()
    ensures Contiguous(SettingsLayout) && SizeOf(SettingsLayout) == 1
    ensures AlignOf(SettingsLayout) == 1
  {
    var fs, p := SettingsLayout.fields, SettingsLayout.packing;
    assert WidthFrom(fs, 0) == 1;
    assert Aligned(fs, p, 0, 0);
    assert MaxAlign(fs, p, 1) == 1;
    ContiguousIff(SettingsLayout);
  }

  /** `AmiiboSettings` is 0x20 bytes: 1 + 1 + 2 + 2 + 2 + 4 + 10 * 2. */
  lemma AmiiboSettingsLayoutSize()
    ensures Contiguous(AmiiboSettingsLayout) && SizeOf(AmiiboSettingsLayout) == 0x20
    ensures AlignOf(AmiiboSettingsLayout) == 4
  {
    AmiiboDateLayoutSize();
    SettingsLayoutSize();
    var fs, p := AmiiboSettingsLayout.fields, AmiiboSettingsLayout.packing;
    AmiiboSettingsWidths();
    assert Aligned(fs, p, 7, 32);
    assert Aligned(fs, p, 6, 12);      // amiibo_name
    assert Aligned(fs, p, 5, 8);       // crc
    assert Aligned(fs, p, 4, 6);       // write_date
    assert Aligned(fs, p, 3, 4);       // init_date
    assert Aligned(fs, p, 2, 2);       // crc_counter
    assert Aligned(fs, p, 1, 1);       // country_code_id
    assert Aligned(fs, p, 0, 0);       // settings
    assert MaxAlign(fs, p, 6) == 2;
    assert MaxAlign(fs, p, 5) == 4;
    assert MaxAlign(fs, p, 3) == 4;
    assert MaxAlign(fs, p, 1) == 4;
    ContiguousIff(AmiiboSettingsLayout);
  }

  /** The bytes taken by the members of `AmiiboSettings` from each one on. */
  lemma AmiiboSettingsWidths()
    ensures var fs := AmiiboSettingsLayout.fields;
      && WidthFrom(fs, 0) == 32 && WidthFrom(fs, 1) == 31 && WidthFrom(fs, 2) == 30
      && WidthFrom(fs, 3) == 28 && WidthFrom(fs, 4) == 26 && WidthFrom(fs, 5) == 24
      && WidthFrom(fs, 6) == 20
  {
    AmiiboDateLayoutSize();
    SettingsLayoutSize();
    var fs := AmiiboSettingsLayout.fields;
    assert WidthFrom(fs, 7) == 0;
    assert WidthFrom(fs, 6) == 20;     // amiibo_name
    assert WidthFrom(fs, 5) == 24;     // crc
    assert WidthFrom(fs, 4) == 26;     // write_date
    assert WidthFrom(fs, 3) == 28;     // init_date
    assert WidthFrom(fs, 2) == 30;     // crc_counter
    assert WidthFrom(fs, 1) == 31;     // country_code_id
    assert WidthFrom(fs, 0) == 32;     // settings
  }

  lemma AmiiboSettingsOffsets()
    ensures Offsets(AmiiboSettingsLayout) == [0, 1, 2, 4, 6, 8, 12]
  {
    AmiiboSettingsLayoutSize();
    AmiiboSettingsWidths();
    var s := AmiiboSettingsLayout;
    OffsetAt(s, 0);
    OffsetAt(s, 1);
    OffsetAt(s, 2);
    OffsetAt(s, 3);
    OffsetAt(s, 4);
    OffsetAt(s, 5);
    OffsetAt(s, 6);
  }

  lemma AmiiboModelInfoLayoutSize()
    ensures Contiguous(AmiiboModelInfoLayout) && SizeOf(AmiiboModelInfoLayout) == 0xC
    ensures AlignOf(AmiiboModelInfoLayout) == 2
  {
    var fs, p := AmiiboModelInfoLayout.fields, AmiiboModelInfoLayout.packing;
    assert WidthFrom(fs, 7) == 0;
    assert WidthFrom(fs, 6) == 4;      // padding
    assert WidthFrom(fs, 5) == 5;      // constant_value
    assert WidthFrom(fs, 4) == 6;      // series
    assert WidthFrom(fs, 3) == 8;      // model_number
    assert WidthFrom(fs, 2) == 9;      // amiibo_type
    assert WidthFrom(fs, 1) == 10;     // character_variant
    assert WidthFrom(fs, 0) == 12;     // character_id
    assert Aligned(fs, p, 7, 12);
    assert Aligned(fs, p, 6, 8);
    assert Aligned(fs, p, 5, 7);
    assert Aligned(fs, p, 4, 6);
    assert Aligned(fs, p, 3, 4);
    assert Aligned(fs, p, 2, 3);
    assert Aligned(fs, p, 1, 2);
    assert Aligned(fs, p, 0, 0);
    assert MaxAlign(fs, p, 5) == 1;
    assert MaxAlign(fs, p, 3) == 2;
    assert MaxAlign(fs, p, 1) == 2;
    ContiguousIff(AmiiboModelInfoLayout);
  }

  lemma NTAG215PasswordLayoutSize()
    ensures Contiguous(NTAG215PasswordLayout) && SizeOf(NTAG215PasswordLayout) == 8
    ensures AlignOf(NTAG215PasswordLayout) == 4
    ensures Offsets(NTAG215PasswordLayout) == [0, 4, 6]
  {
    var s := NTAG215PasswordLayout;
    var fs, p := s.fields, s.packing;
    assert WidthFrom(fs, 3) == 0;
    assert WidthFrom(fs, 2) == 2;      // RFUI
    assert WidthFrom(fs, 1) == 4;      // PACK
    assert WidthFrom(fs, 0) == 8;      // PWD
    assert Aligned(fs, p, 3, 8);
    assert Aligned(fs, p, 2, 6);
    assert Aligned(fs, p, 1, 4);
    assert Aligned(fs, p, 0, 0);
    assert MaxAlign(fs, p, 1) == 2;
    ContiguousIff(s);
    OffsetAt(s, 0);
    OffsetAt(s, 1);
    OffsetAt(s, 2);
  }

  /** The user memory is 408 bytes plus the Mii blob, whatever the blob's width. */
  lemma EncryptedAmiiboFileLayoutSize(miiWidth: nat)
    ensures Contiguous(EncryptedAmiiboFileWith(miiWidth))
    ensures SizeOf(EncryptedAmiiboFileWith(miiWidth)) == 408 + miiWidth
    ensures AlignOf(EncryptedAmiiboFileWith(miiWidth)) == 1
  {
    var s := EncryptedAmiiboFileWith(miiWidth);
    EncryptedAmiiboFileWidths(miiWidth);
    Packed1Contiguous(s);
  }

  /** The bytes taken by the members of the user memory from the Mii blob on, and in all. */
  lemma EncryptedAmiiboFileWidths(miiWidth: nat)
    ensures WidthFrom(EncryptedAmiiboFileWith(miiWidth).fields, 8) == 264 + miiWidth
    ensures WidthFrom(EncryptedAmiiboFileWith(miiWidth).fields, 0) == 408 + miiWidth
  {
    AmiiboSettingsLayoutSize();
    AmiiboModelInfoLayoutSize();
    var fs, w := EncryptedAmiiboFileWith(miiWidth).fields, miiWidth;
    EncryptedAmiiboFileTail(miiWidth);
    assert WidthFrom(fs, 8) == 264 + w;     // owner_mii
    assert WidthFrom(fs, 7) == 296 + w;     // hmac_data
    assert WidthFrom(fs, 6) == 328 + w;     // keygen_salt
    assert WidthFrom(fs, 5) == 340 + w;     // model_info
    assert WidthFrom(fs, 4) == 372 + w;     // hmac_tag
    assert WidthFrom(fs, 3) == 404 + w;     // settings
    assert WidthFrom(fs, 2) == 405 + w;     // unknown1
    assert WidthFrom(fs, 1) == 407 + w;     // write_counter
    assert WidthFrom(fs, 0) == 408 + w;     // constant_value
  }

  /** The members after the Mii blob, from `title_id` to `application_area`, take 264 bytes. */
  lemma EncryptedAmiiboFileTail(miiWidth: nat)
    ensures WidthFrom(EncryptedAmiiboFileWith(miiWidth).fields, 9) == 264
  {
    var fs := EncryptedAmiiboFileWith(miiWidth).fields;
    assert WidthFrom(fs, 15) == 0;
    assert WidthFrom(fs, 14) == 216;        // application_area
    assert WidthFrom(fs, 13) == 248;        // hash
    assert WidthFrom(fs, 12) == 250;        // unknown
    assert WidthFrom(fs, 11) == 254;        // application_area_id
    assert WidthFrom(fs, 10) == 256;        // applicaton_write_counter
    assert WidthFrom(fs, 9) == 264;         // title_id
  }

  /** The 0x1F8 total of `EncryptedAmiiboFile` holds exactly when the Mii blob is 0x60 bytes. */
  lemma MiiBlobWidthForced(miiWidth: nat)
    ensures SizeOf(EncryptedAmiiboFileWith(miiWidth)) == 0x1F8 <==> miiWidth == 0x60
  {
    EncryptedAmiiboFileLayoutSize(miiWidth);
  }

  /** The decrypted tag image is 0x21C bytes, members back to back. */
  lemma NTAG215FileLayoutSize()
    ensures Contiguous(NTAG215FileLayout) && SizeOf(NTAG215FileLayout) == 0x21C
    ensures AlignOf(NTAG215FileLayout) == 1
    ensures Offsets(NTAG215FileLayout)[19] == 520  // dynamic_lock
    ensures Offsets(NTAG215FileLayout)[20] == 524  // CFG0
    ensures Offsets(NTAG215FileLayout)[21] == 528  // CFG1
    ensures Offsets(NTAG215FileLayout)[22] == 532  // password
  {
    var s := NTAG215FileLayout;
    NTAG215FileWidths();
    Packed1Contiguous(s);
    OffsetAt(s, 19);
    OffsetAt(s, 20);
    OffsetAt(s, 21);
    OffsetAt(s, 22);
  }

  /** The bytes taken by the members of the decrypted image from the chip's last pages on, and in all. */
  lemma NTAG215FileWidths()
    ensures var fs := NTAG215FileLayout.fields;
      && WidthFrom(fs, 0) == 540 && WidthFrom(fs, 19) == 20 && WidthFrom(fs, 20) == 16
      && WidthFrom(fs, 21) == 12 && WidthFrom(fs, 22) == 8
  {
    var fs := NTAG215FileLayout.fields;
    NTAG215FileTail();
    NTAG215FileMiddle();
    AmiiboSettingsLayoutSize();
    assert WidthFrom(fs, 8) == 464;         // owner_mii
    assert WidthFrom(fs, 7) == 496;         // settings
    assert WidthFrom(fs, 6) == 497;         // unknown1
    assert WidthFrom(fs, 5) == 499;         // write_counter
    assert WidthFrom(fs, 4) == 500;         // constant_value
    assert WidthFrom(fs, 3) == 532;         // hmac_data
    assert WidthFrom(fs, 2) == 536;         // compability_container
    assert WidthFrom(fs, 1) == 538;         // static_lock
    assert WidthFrom(fs, 0) == 540;         // uuid2
  }

  /** From `title_id` to `hmac_tag` the decrypted image takes 264 + 32 bytes before its tail. */
  lemma NTAG215FileMiddle()
    ensures WidthFrom(NTAG215FileLayout.fields, 9) == 368
  {
    var fs := NTAG215FileLayout.fields;
    NTAG215FileTail();
    assert WidthFrom(fs, 15) == 104;        // hmac_tag
    assert WidthFrom(fs, 14) == 320;        // application_area
    assert WidthFrom(fs, 13) == 352;        // hash
    assert WidthFrom(fs, 12) == 354;        // unknown
    assert WidthFrom(fs, 11) == 358;        // application_area_id
    assert WidthFrom(fs, 10) == 360;        // applicaton_write_counter
    assert WidthFrom(fs, 9) == 368;         // title_id
  }

  /** From `uuid` on, the decrypted image takes the last 72 bytes. */
  lemma NTAG215FileTail()
    ensures var fs := NTAG215FileLayout.fields;
      && WidthFrom(fs, 16) == 72 && WidthFrom(fs, 19) == 20 && WidthFrom(fs, 20) == 16
      && WidthFrom(fs, 21) == 12 && WidthFrom(fs, 22) == 8
  {
    AmiiboModelInfoLayoutSize();
    NTAG215PasswordLayoutSize();
    var fs := NTAG215FileLayout.fields;
    assert WidthFrom(fs, 23) == 0;
    assert WidthFrom(fs, 22) == 8;          // password
    assert WidthFrom(fs, 21) == 12;         // CFG1
    assert WidthFrom(fs, 20) == 16;         // CFG0
    assert WidthFrom(fs, 19) == 20;         // dynamic_lock
    assert WidthFrom(fs, 18) == 52;         // keygen_salt
    assert WidthFrom(fs, 17) == 64;         // model_info
    assert WidthFrom(fs, 16) == 72;         // uuid
  }

  /** The tag image as the chip stores it is 0x21C bytes, members back to back. */
  lemma EncryptedNTAG215FileLayoutSize()
    ensures Contiguous(EncryptedNTAG215FileLayout) && SizeOf(EncryptedNTAG215FileLayout) == 0x21C
    ensures AlignOf(EncryptedNTAG215FileLayout) == 4
  {
    var s := EncryptedNTAG215FileLayout;
    EncryptedNTAG215FileWidths();
    EncryptedNTAG215FileAligned();
    ContiguousIff(s);
  }

  lemma EncryptedNTAG215FileOffsets()
    ensures Offsets(EncryptedNTAG215FileLayout) == [0, 10, 12, 16, 520, 524, 528, 532]
  {
    var s := EncryptedNTAG215FileLayout;
    EncryptedNTAG215FileLayoutSize();
    EncryptedNTAG215FileWidths();
    OffsetAt(s, 0);
    OffsetAt(s, 1);
    OffsetAt(s, 2);
    OffsetAt(s, 3);
    OffsetAt(s, 4);
    OffsetAt(s, 5);
    OffsetAt(s, 6);
    OffsetAt(s, 7);
  }

  /** The bytes taken by the members of the chip's image from each one on. */
  lemma EncryptedNTAG215FileWidths()
    ensures var fs := EncryptedNTAG215FileLayout.fields;
      && WidthFrom(fs, 0) == 540 && WidthFrom(fs, 1) == 530 && WidthFrom(fs, 2) == 528
      && WidthFrom(fs, 3) == 524 && WidthFrom(fs, 4) == 20 && WidthFrom(fs, 5) == 16
      && WidthFrom(fs, 6) == 12 && WidthFrom(fs, 7) == 8
  {
    EncryptedAmiiboFileLayoutSize(MiiStoreDataWidth);
    NTAG215PasswordLayoutSize();
    var fs := EncryptedNTAG215FileLayout.fields;
    assert WidthFrom(fs, 8) == 0;
    assert WidthFrom(fs, 7) == 8;           // password
    assert WidthFrom(fs, 6) == 12;          // CFG1
    assert WidthFrom(fs, 5) == 16;          // CFG0
    assert WidthFrom(fs, 4) == 20;          // dynamic_lock
    assert WidthFrom(fs, 3) == 524;         // user_memory
    assert WidthFrom(fs, 2) == 528;         // compability_container
    assert WidthFrom(fs, 1) == 530;         // static_lock
    assert WidthFrom(fs, 0) == 540;         // uuid
  }

  /** Every member of the chip's image is aligned where the previous one ends; the image aligns to four. */
  lemma EncryptedNTAG215FileAligned()
    ensures Aligned(EncryptedNTAG215FileLayout.fields, Natural, 0, 0)
    ensures AlignOf(EncryptedNTAG215FileLayout) == 4
  {
    EncryptedAmiiboFileLayoutSize(MiiStoreDataWidth);
    NTAG215PasswordLayoutSize();
    var fs, p := EncryptedNTAG215FileLayout.fields, Natural;
    assert Aligned(fs, p, 8, 540);
    assert Aligned(fs, p, 7, 532);          // password
    assert Aligned(fs, p, 6, 528);          // CFG1
    assert Aligned(fs, p, 5, 524);          // CFG0
    assert Aligned(fs, p, 4, 520);          // dynamic_lock
    assert Aligned(fs, p, 3, 16);           // user_memory
    assert Aligned(fs, p, 2, 12);           // compability_container
    assert Aligned(fs, p, 1, 10);           // static_lock
    assert Aligned(fs, p, 0, 0);            // uuid
    assert MaxAlign(fs, p, 7) == 4;
    assert MaxAlign(fs, p, 5) == 4;
    assert MaxAlign(fs, p, 4) == 4;
    assert MaxAlign(fs, p, 3) == 4;
    assert MaxAlign(fs, p, 1) == 4;
  }

  lemma TagInfoLayoutSize()
    ensures Contiguous(TagInfoLayout) && SizeOf(TagInfoLayout) == 0x58
  {
    var fs, p := TagInfoLayout.fields, TagInfoLayout.packing;
    assert WidthFrom(fs, 6) == 0;
    assert WidthFrom(fs, 5) == 48;     // padding2
    assert WidthFrom(fs, 4) == 52;     // tag_type
    assert WidthFrom(fs, 3) == 56;     // protocol
    assert WidthFrom(fs, 2) == 77;     // padding1
    assert WidthFrom(fs, 1) == 78;     // uuid_length
    assert WidthFrom(fs, 0) == 88;     // uuid
    assert Aligned(fs, p, 6, 88);
    assert Aligned(fs, p, 5, 40);
    assert Aligned(fs, p, 4, 36);
    assert Aligned(fs, p, 3, 32);
    assert Aligned(fs, p, 2, 11);
    assert Aligned(fs, p, 1, 10);
    assert Aligned(fs, p, 0, 0);
    assert MaxAlign(fs, p, 5) == 1;
    assert MaxAlign(fs, p, 3) == 4;
    assert MaxAlign(fs, p, 1) == 4;
    ContiguousIff(TagInfoLayout);
  }

  lemma WriteDateLayoutSize()
    ensures Contiguous(WriteDateLayout) && SizeOf(WriteDateLayout) == 4
    ensures AlignOf(WriteDateLayout) == 2
  {
    var fs, p := WriteDateLayout.fields, WriteDateLayout.packing;
    assert WidthFrom(fs, 3) == 0;
    assert WidthFrom(fs, 2) == 1;      // day
    assert WidthFrom(fs, 1) == 2;      // month
    assert WidthFrom(fs, 0) == 4;      // year
    assert Aligned(fs, p, 3, 4);
    assert Aligned(fs, p, 2, 3);
    assert Aligned(fs, p, 1, 2);
    assert Aligned(fs, p, 0, 0);
    assert MaxAlign(fs, p, 1) == 1;
    ContiguousIff(WriteDateLayout);
  }

  lemma CommonInfoLayoutSize()
    ensures Contiguous(CommonInfoLayout) && SizeOf(CommonInfoLayout) == 0x40
  {
    WriteDateLayoutSize();
    var fs, p := CommonInfoLayout.fields, CommonInfoLayout.packing;
    assert WidthFrom(fs, 6) == 0;
    assert WidthFrom(fs, 5) == 52;     // padding2
    assert WidthFrom(fs, 4) == 56;     // application_area_size
    assert WidthFrom(fs, 3) == 57;     // padding1
    assert WidthFrom(fs, 2) == 58;     // version
    assert WidthFrom(fs, 1) == 60;     // write_counter
    assert WidthFrom(fs, 0) == 64;     // last_write_date
    assert Aligned(fs, p, 6, 64);
    assert Aligned(fs, p, 5, 12);
    assert Aligned(fs, p, 4, 8);
    assert Aligned(fs, p, 3, 7);
    assert Aligned(fs, p, 2, 6);
    assert Aligned(fs, p, 1, 4);
    assert Aligned(fs, p, 0, 0);
    assert MaxAlign(fs, p, 5) == 1;
    assert MaxAlign(fs, p, 4) == 4;
    assert MaxAlign(fs, p, 2) == 4;
    assert MaxAlign(fs, p, 1) == 4;
    ContiguousIff(CommonInfoLayout);
  }

  lemma ModelInfoLayoutSize()
    ensures Contiguous(ModelInfoLayout) && SizeOf(ModelInfoLayout) == 0x40
  {
    var fs, p := ModelInfoLayout.fields, ModelInfoLayout.packing;
    assert WidthFrom(fs, 6) == 0;
    assert WidthFrom(fs, 5) == 57;     // padding
    assert WidthFrom(fs, 4) == 58;     // series
    assert WidthFrom(fs, 3) == 60;     // model_number
    assert WidthFrom(fs, 2) == 61;     // amiibo_type
    assert WidthFrom(fs, 1) == 62;     // character_variant
    assert WidthFrom(fs, 0) == 64;     // character_id
    assert Aligned(fs, p, 6, 64);
    assert Aligned(fs, p, 5, 7);
    assert Aligned(fs, p, 4, 6);
    assert Aligned(fs, p, 3, 4);
    assert Aligned(fs, p, 2, 3);
    assert Aligned(fs, p, 1, 2);
    assert Aligned(fs, p, 0, 0);
    assert MaxAlign(fs, p, 4) == 1;
    assert MaxAlign(fs, p, 3) == 2;
    assert MaxAlign(fs, p, 1) == 2;
    ContiguousIff(ModelInfoLayout);
  }

  /** `RegisterInfo` is 0x100 bytes; its name buffer is 10 * 4 + 1 = 41 bytes. */
  lemma RegisterInfoLayoutSize()
    ensures Contiguous(RegisterInfoLayout) && SizeOf(RegisterInfoLayout) == 0x100
    ensures RegisterInfoLayout.fields[2].width == 41
  {
    WriteDateLayoutSize();
    var fs, p := RegisterInfoLayout.fields, RegisterInfoLayout.packing;
    assert WidthFrom(fs, 5) == 0;
    assert WidthFrom(fs, 4) == 122;    // padding
    assert WidthFrom(fs, 3) == 123;    // font_region
    assert WidthFrom(fs, 2) == 164;    // amiibo_name
    assert WidthFrom(fs, 1) == 168;    // creation_date
    assert WidthFrom(fs, 0) == 256;    // mii_char_info
    assert Aligned(fs, p, 5, 256);
    assert Aligned(fs, p, 4, 134);
    assert Aligned(fs, p, 3, 133);
    assert Aligned(fs, p, 2, 92);
    assert Aligned(fs, p, 1, 88);
    assert Aligned(fs, p, 0, 0);
    assert MaxAlign(fs, p, 4) == 1;
    assert MaxAlign(fs, p, 2) == 1;
    assert MaxAlign(fs, p, 1) == 2;
    ContiguousIff(RegisterInfoLayout);
  }

  // -----------------------------------------------------------------------
  // The image on the chip: the NTAG215 memory map (section 8.5, "Memory
  // organization", of the NXP NTAG213/215/216 data sheet)
  // -----------------------------------------------------------------------

  const PageSize: nat := 4
  const PageCount: nat := 0x87
  /** Page 2 holds BCC1, an internal byte and then the two static lock bytes. */
  const StaticLockPage: nat := 0x02
  const CapabilityContainerPage: nat := 0x03
  const UserMemoryFirstPage: nat := 0x04
  const UserMemoryLastPage: nat := 0x81
  const DynamicLockPage: nat := 0x82
  const Cfg0Page: nat := 0x83
  const Cfg1Page: nat := 0x84
  const PwdPage: nat := 0x85
  /** PACK takes the first two bytes of the last page, RFUI the other two. */
  const PackPage: nat := 0x86

  /**
   * `EncryptedNTAG215File` is the chip's 135 pages in order: the serial number
   * and static lock bytes in pages 0 to 2, the capability container in page 3,
   * the user memory exactly filling pages 4 to 0x81, then the dynamic lock,
   * CFG0, CFG1, PWD and PACK pages.
   */
  lemma EncryptedNTAG215FilePages()
    ensures SizeOf(EncryptedNTAG215FileLayout) == PageCount * PageSize
    ensures var offs, fs := Offsets(EncryptedNTAG215FileLayout), EncryptedNTAG215FileLayout.fields;
      && offs[1] == StaticLockPage * PageSize + 2
      && offs[1] + fs[1].width == (StaticLockPage + 1) * PageSize
      && offs[2] == CapabilityContainerPage * PageSize && fs[2].width == PageSize
      && offs[3] == UserMemoryFirstPage * PageSize
      && offs[3] + fs[3].width == (UserMemoryLastPage + 1) * PageSize
      && offs[4] == DynamicLockPage * PageSize
      && offs[5] == Cfg0Page * PageSize
      && offs[6] == Cfg1Page * PageSize
      && offs[7] == PwdPage * PageSize
      && offs[7] + Offsets(NTAG215PasswordLayout)[1] == PackPage * PageSize
      && offs[7] + fs[7].width == PageCount * PageSize
  {
    EncryptedNTAG215FileLayoutSize();
    EncryptedNTAG215FileOffsets();
    EncryptedAmiiboFileLayoutSize(MiiStoreDataWidth);
    NTAG215PasswordLayoutSize();
  }

  /**
   * The decrypted image keeps the chip's last five pages where the chip has
   * them, and its two serial-number pieces together are a `TagUuid`.
   */
  lemma NTAG215FileConfigPages()
    ensures Offsets(NTAG215FileLayout)[19..23] == Offsets(EncryptedNTAG215FileLayout)[4..8]
    ensures NTAG215FileLayout.fields[19..23] == EncryptedNTAG215FileLayout.fields[4..8]
    ensures NTAG215FileLayout.fields[0].width + NTAG215FileLayout.fields[16].width
         == EncryptedNTAG215FileLayout.fields[0].width
  {
    NTAG215FileLayoutSize();
    EncryptedNTAG215FileOffsets();
  }
}
