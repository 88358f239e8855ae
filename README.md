# Amiibo tag data model (NFP service types)

This project models the byte-level data model of an emulated amiibo, an NFC
figurine whose memory is an NXP NTAG215 chip. It covers the definitions in
`src/core/hle/service/nfp/nfp_types.h` and proves properties about them.

- **`AmiiboDate`** is a date packed into 16 bits. The year offset from 2000 sits in bits 15..9, the month plus one in bits 8..5 and the day in bits 4..0. The struct keeps the packed value byte-swapped (`Common::swap16`) in `raw_date`, so the date sits in memory in big-endian order. The getters unpack the fields. The setters clear a field's mask and OR in the new value, without any validation. The model gives the getters and setters as functions on the packed value (`YearOf`, `WithYear`, …), plus a class `AmiiboDate` whose methods overwrite `raw_date` in place, as the struct does.
- **`Settings`** is a flag byte. Bit 4 is "amiibo initialized" and bit 5 is "appdata initialized". Each flag is a one-bit `BitField` over `raw`. The class `Settings` holds `raw` and changes it through the two setters.
- **The fixed layouts** are `AmiiboSettings`, `AmiiboModelInfo`, `NTAG215Password`, `EncryptedAmiiboFile`, `NTAG215File`, `EncryptedNTAG215File`, `TagInfo`, `WriteDate`, `CommonInfo`, `ModelInfo` and `RegisterInfo`. Each is an ordered table of member widths and alignments. Module `Layout` computes the compiler's placement (each member moved up to its alignment, `#pragma pack(1)` capping alignment at one byte, the size rounded up to the struct's alignment). It proves that this placement equals the back-to-back placement exactly when every member is already aligned. Module `TagLayouts` uses that to show, for every struct, that there is no implicit padding and that the size equals its `static_assert`.
- **The tag image on the chip** is the 540-byte `EncryptedNTAG215File`: the 135 four-byte pages of an NTAG215 in order. The page numbers for the serial number, static lock bytes, capability container, user memory, dynamic lock, CFG0, CFG1, PWD and PACK come from section 8.5 ("Memory organization") of the NXP NTAG213/215/216 data sheet.
- **The `AmiiboSettings` block** gets a byte serialiser and parser (module `AmiiboSettingsBlock`). `crc_counter` is `u16_be`, both dates are big-endian, `crc` is `u32_be` and the name is ten `u16_be` UTF-16 code units. The two are proved inverse in both directions, and every field is shown to land at the offset the layout table gives it.

Files: `layout.dfy` (placement rule), `tag_layouts.dfy` (the tables and the NTAG215 page map), `amiibo_date.dfy`, `settings_flags.dfy`, `bytes.dfy` (big-endian encodings), `amiibo_settings.dfy` and `wrappers.dfy` (`Option`).

The model follows the code:

- The setters validate nothing: out-of-range months and days are not rejected.
- The month bits hold the zero-based API month plus one.

So a day above 31 spills into the month bits and a month of 15 or more spills into the year bits. `SetYear` keeps only the low seven bits of `year - 2000`. `GetMonth` reads a stored 0 as 255. The contracts state each of these behaviours as the code has it. The round-trip properties carry the range limits as preconditions.

C++ arithmetic is written out in bit-vectors:

- `SetMonth` computes `month + 1` in `int`, so month 255 gives 256 and sets bit 13. It does not wrap to 0.
- `SetYear`'s `(year - 2000) << 9` followed by the `u16` cast is 16-bit wrap-around arithmetic. This relies on C++20's definition of left shifts of negative values.
- `GetMonth`'s `- 1` followed by the `u8` cast is 8-bit wrap-around arithmetic.

## Model

| member | source | states |
|---|---|---|
| AmiiboDates.Swap16 | src/core/hle/service/nfp/nfp_types.h:86-110 | `Common::swap16`, as `GetValue` and the setters apply it: the high byte of the result is the low byte of the input and the low byte of the result is the high byte of the input |
| AmiiboDates.Swap16Involution | src/core/hle/service/nfp/nfp_types.h:86-88 | swapping the bytes twice gives the value back, so `raw_date` and `GetValue()` determine each other |
| AmiiboDates.StoredBytesAreBigEndian | src/core/hle/service/nfp/nfp_types.h:84-88 | the stored `swap16(value)`, read least-significant byte first, is the value's big-endian byte pair |
| AmiiboDates.YearOf | src/core/hle/service/nfp/nfp_types.h:90-92 | `GetYear` is always within 2000..2127 and is 2000 plus the top seven bits |
| AmiiboDates.MonthOf | src/core/hle/service/nfp/nfp_types.h:93-95 | `GetMonth` is the stored month minus one (mod 256); it is at most 14, or 255 exactly when the stored month bits are 0 |
| AmiiboDates.DayOf | src/core/hle/service/nfp/nfp_types.h:96-98 | `GetDay` is the low five bits, so it is at most 31 |
| AmiiboDates.WithYear | src/core/hle/service/nfp/nfp_types.h:100-103 | `SetYear` never alters the month or day bits; the year read back is the low seven bits of `year - 2000` plus 2000, so it equals `year` when 2000 ≤ year ≤ 2127 |
| AmiiboDates.WithMonth | src/core/hle/service/nfp/nfp_types.h:104-107 | `SetMonth` never alters the day bits; the month bits always hold the low four bits of month + 1 (so month 15 leaves them 0 and `GetMonth` reads 255); for month ≤ 14 they hold month + 1, `GetMonth` returns month and the year bits are unchanged; otherwise the carry of month + 1 is ORed into the year bits |
| AmiiboDates.WithDay | src/core/hle/service/nfp/nfp_types.h:108-111 | `SetDay` never alters the year bits; the day read back is day mod 32; day's bits 5..7 are ORed into the month bits, so for day ≤ 31 the month is unchanged and the day reads back exactly |
| AmiiboDates.YearLastWriteWins | src/core/hle/service/nfp/nfp_types.h:100-103 | two `SetYear` calls leave the same value as the last one alone, for any arguments |
| AmiiboDates.MonthLastWriteWins | src/core/hle/service/nfp/nfp_types.h:104-107 | two `SetMonth` calls leave the same value as the last one alone when the first month is at most 14 |
| AmiiboDates.DayLastWriteWins | src/core/hle/service/nfp/nfp_types.h:108-111 | two `SetDay` calls leave the same value as the last one alone when the first day is at most 31 |
| AmiiboDates.SetAllRoundTrip | src/core/hle/service/nfp/nfp_types.h:90-111 | for year 2000..2127, month 0..11 and day 0..31, setting all three overwrites every bit of the old value and the getters return exactly what was set |
| AmiiboDates.AmiiboDate.constructor | src/core/hle/service/nfp/nfp_types.h:84 | a new date has `raw_date` zero |
| AmiiboDates.AmiiboDate.GetValue | src/core/hle/service/nfp/nfp_types.h:86-88 | `raw_date` is always the value with its bytes swapped |
| AmiiboDates.AmiiboDate.GetYear | src/core/hle/service/nfp/nfp_types.h:90-92 | the year read from the struct is within 2000..2127 |
| AmiiboDates.AmiiboDate.GetMonth | src/core/hle/service/nfp/nfp_types.h:93-95 | the month read from the struct is at most 14, or 255 |
| AmiiboDates.AmiiboDate.GetDay | src/core/hle/service/nfp/nfp_types.h:96-98 | the day read from the struct is at most 31 |
| AmiiboDates.AmiiboDate.SetYear | src/core/hle/service/nfp/nfp_types.h:100-103 | the new value is `WithYear` of the old one and `raw_date` is its byte swap; year in range reads back; month and day unchanged |
| AmiiboDates.AmiiboDate.SetMonth | src/core/hle/service/nfp/nfp_types.h:104-107 | the new value is `WithMonth` of the old one and `raw_date` is its byte swap; month ≤ 14 reads back with the year unchanged; the day is unchanged |
| AmiiboDates.AmiiboDate.SetDay | src/core/hle/service/nfp/nfp_types.h:108-111 | the new value is `WithDay` of the old one and `raw_date` is its byte swap; day ≤ 31 reads back with the month unchanged; the year is unchanged |
| SettingsFlags.ExtractBit | src/core/hle/service/nfp/nfp_types.h:119-120 | a one-bit field reads 0 or 1, and 1 exactly when its bit of `raw` is set |
| SettingsFlags.AssignBit | src/core/hle/service/nfp/nfp_types.h:119-120 | assigning a one-bit field makes it read the low bit of the value and leaves every other bit of `raw` unchanged |
| SettingsFlags.AssignExtracted | src/core/hle/service/nfp/nfp_types.h:115-122 | writing back the value just read leaves `raw` unchanged |
| SettingsFlags.AssignLastWins | src/core/hle/service/nfp/nfp_types.h:115-122 | two assignments to the same flag leave what the last alone leaves |
| SettingsFlags.Settings.constructor | src/core/hle/service/nfp/nfp_types.h:117 | a new `Settings` has `raw` zero and neither flag set |
| SettingsFlags.Settings.AmiiboInitialized | src/core/hle/service/nfp/nfp_types.h:119 | bit 4 read as a flag: 0 or 1 |
| SettingsFlags.Settings.AppdataInitialized | src/core/hle/service/nfp/nfp_types.h:120 | bit 5 read as a flag: 0 or 1 |
| SettingsFlags.Settings.SetAmiiboInitialized | src/core/hle/service/nfp/nfp_types.h:119 | bit 4 now reads the value's low bit; every other bit of `raw`, bit 5 included, is unchanged |
| SettingsFlags.Settings.SetAppdataInitialized | src/core/hle/service/nfp/nfp_types.h:120 | bit 5 now reads the value's low bit; every other bit of `raw`, bit 4 included, is unchanged |
| Bytes.ReadBigEndian16Inverse | src/core/hle/service/nfp/nfp_types.h:128 | a `u16_be` written as two bytes reads back unchanged, and any two bytes are the encoding of what they read as |
| Bytes.ReadBigEndian32Inverse | src/core/hle/service/nfp/nfp_types.h:131 | a `u32_be` written as four bytes reads back unchanged, and any four bytes are the encoding of what they read as |
| Bytes.DecodeEncodeUnits | src/core/hle/service/nfp/nfp_types.h:132 | a run of `u16_be` code units encoded as bytes decodes to the same units |
| Bytes.EncodeDecodeUnits | src/core/hle/service/nfp/nfp_types.h:132 | any even-length byte run is the encoding of the code units it decodes to |
| AmiiboSettingsBlock.Serialize | src/core/hle/service/nfp/nfp_types.h:125-133 | the byte image of an `AmiiboSettings` record is exactly the 0x20-byte block; where each field lands is stated by `SerializeFollowsLayout` and the inverse by `ParseSerialize` |
| AmiiboSettingsBlock.Parse | src/core/hle/service/nfp/nfp_types.h:125-133 | a block parses exactly when it is 0x20 bytes long |
| AmiiboSettingsBlock.ParseSerialize | src/core/hle/service/nfp/nfp_types.h:125-133 | every settings record serialises to bytes that parse back to it |
| AmiiboSettingsBlock.SerializeParse | src/core/hle/service/nfp/nfp_types.h:125-133 | every 0x20-byte block parses, and serialising the result gives the same bytes |
| AmiiboSettingsBlock.SerializeFollowsLayout | src/core/hle/service/nfp/nfp_types.h:125-134 | the serialised block is `sizeof(AmiiboSettings)` long and each field's bytes sit at the member offsets 0, 1, 2, 4, 6, 8, 12 of the layout |
| Layout.PlaceIsPackedIff | src/core/hle/service/nfp/nfp_types.h:154-213 | the compiler places members back to back exactly when every member is already aligned at its back-to-back offset |
| Layout.ContiguousIff | src/core/hle/service/nfp/nfp_types.h:125-213 | a struct has no implicit padding exactly when every member is aligned at its back-to-back offset and the sum of the widths is a multiple of the struct's alignment |
| Layout.OffsetAt | src/core/hle/service/nfp/nfp_types.h:125-213 | in a struct without padding each member starts at the total width less the widths of it and the members after it |
| Layout.Packed1Contiguous | src/core/hle/service/nfp/nfp_types.h:154-201 | under `#pragma pack(1)` every struct is back to back, with alignment one |
| TagLayouts.AmiiboDateLayoutSize | src/core/hle/service/nfp/nfp_types.h:83-113 | `AmiiboDate` is 2 bytes, aligned to 2 |
| TagLayouts.SettingsLayoutSize | src/core/hle/service/nfp/nfp_types.h:115-123 | `Settings` is 1 byte |
| TagLayouts.AmiiboSettingsLayoutSize | src/core/hle/service/nfp/nfp_types.h:125-134 | `AmiiboSettings` has no implicit padding and is 0x20 bytes (1+1+2+2+2+4+10×2), aligned to 4 |
| TagLayouts.AmiiboSettingsOffsets | src/core/hle/service/nfp/nfp_types.h:125-133 | the members of `AmiiboSettings` start at 0, 1, 2, 4, 6, 8 and 12 |
| TagLayouts.AmiiboModelInfoLayoutSize | src/core/hle/service/nfp/nfp_types.h:136-145 | `AmiiboModelInfo` has no implicit padding and is 0xC bytes |
| TagLayouts.NTAG215PasswordLayoutSize | src/core/hle/service/nfp/nfp_types.h:147-152 | `NTAG215Password` is 8 bytes with PWD, PACK and RFUI at 0, 4 and 6 |
| TagLayouts.EncryptedAmiiboFileLayoutSize | src/core/hle/service/nfp/nfp_types.h:154-171 | the packed user memory is back to back and is 408 bytes plus the Mii blob's width |
| TagLayouts.MiiBlobWidthForced | src/core/hle/service/nfp/nfp_types.h:164-172 | the 0x1F8 total holds exactly when the Mii blob is 0x60 bytes |
| TagLayouts.NTAG215FileLayoutSize | src/core/hle/service/nfp/nfp_types.h:174-199 | `NTAG215File` is back to back and 0x21C bytes; dynamic lock, CFG0, CFG1 and password start at 520, 524, 528 and 532 |
| TagLayouts.EncryptedNTAG215FileLayoutSize | src/core/hle/service/nfp/nfp_types.h:203-213 | `EncryptedNTAG215File` has no implicit padding, is 0x21C bytes, and is aligned to 4 |
| TagLayouts.EncryptedNTAG215FileOffsets | src/core/hle/service/nfp/nfp_types.h:203-212 | the members of `EncryptedNTAG215File` start at 0, 10, 12, 16, 520, 524, 528 and 532 |
| TagLayouts.EncryptedNTAG215FilePages | src/core/hle/service/nfp/nfp_types.h:203-213 | the image is the NTAG215's 135 four-byte pages: static lock in page 2 bytes 2-3, capability container page 3, user memory exactly pages 4..0x81, dynamic lock 0x82, CFG0 0x83, CFG1 0x84, PWD 0x85, PACK 0x86 |
| TagLayouts.NTAG215FileConfigPages | src/core/hle/service/nfp/nfp_types.h:174-213 | the decrypted image keeps the last five chip pages (dynamic lock, CFG0, CFG1, password) at the same offsets and widths as the chip image, and its two serial-number pieces make up the 10-byte `TagUuid` |
| TagLayouts.TagInfoLayoutSize | src/core/hle/service/nfp/nfp_types.h:217-225 | `TagInfo` has no implicit padding and is 0x58 bytes |
| TagLayouts.WriteDateLayoutSize | src/core/hle/service/nfp/nfp_types.h:227-232 | `WriteDate` is 4 bytes, aligned to 2 |
| TagLayouts.CommonInfoLayoutSize | src/core/hle/service/nfp/nfp_types.h:234-242 | `CommonInfo` has no implicit padding and is 0x40 bytes |
| TagLayouts.ModelInfoLayoutSize | src/core/hle/service/nfp/nfp_types.h:244-252 | `ModelInfo` has no implicit padding and is 0x40 bytes |
| TagLayouts.RegisterInfoLayoutSize | src/core/hle/service/nfp/nfp_types.h:254-261 | `RegisterInfo` has no implicit padding and is 0x100 bytes; its `AmiiboName` buffer is 10×4+1 = 41 bytes |

## Left out

- The tag codec: encryption, decryption, HMAC verification and key derivation. This header only reserves the `hmac_tag`, `hmac_data`, `hash` and `keygen_salt` slots. The primitives live elsewhere, so the model does not invent them.
- The session state machine and its enums (`State`, `DeviceState`, `MountTarget`). This header only declares the enumerators. The transitions live in other files.
- The data-only enums `ServiceType`, `ModelType`, `AmiiboType` and `AmiiboSeries`. They have no behaviour.
- The Mii records `Ver3StoreData` and `CharInfo`. Their header, core/hle/service/mii/types.h, is not part of this model. They are opaque byte blobs of 0x60 and 0x58 bytes, the widths the 0x1F8 and 0x100 totals leave for them. Both are taken to have alignment one.
- The conversion between `NTAG215File` and `EncryptedNTAG215File`. Only the two layouts are here, not the routine that reorders one into the other.
- Serialisers for blocks other than `AmiiboSettings`, and the host records `TagInfo`, `CommonInfo`, `ModelInfo` and `RegisterInfo`. These appear only as layouts, because the code that fills them is elsewhere. The UTF-16 to UTF-8 name conversion that fills the host's 41-byte `AmiiboName` is elsewhere too.
- Padding contents. Padding appears only as width.
- Native memory and host byte order. Bytes are modelled explicitly. `LittleEndian16` exists only to state what the byte swap achieves on a little-endian host.
- `BitField`'s own header, common/bit_field.h, is not part of this model. Its one-bit fields are taken as mask-and-OR of the value's low bit, and as mask-and-shift on reading.
- Name-length validation. No name-length check exists in this header; the tag's name field is a fixed array of exactly ten `u16_be` units, modelled by the subset type `AmiiboNameUnits`.
