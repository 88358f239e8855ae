/**
 * `Settings`: one flag byte on the tag. Bit 4 says the amiibo has been set up
 * (registered), bit 5 that an application area has been created. Each flag is
 * a one-bit `BitField` over `raw`: reading masks and shifts the bit down,
 * writing clears the bit and ORs in the low bit of the new value.
 */
module SettingsFlags {

  const AmiiboInitializedPosition: bv8 := 4
  const AppdataInitializedPosition: bv8 := 5

  function BitMask(position: bv8): bv8
    requires position < 8
  {
    1 << position
  }

  /** What a one-bit `BitField` at `position` reads from `storage`. */
  function ExtractBit(storage: bv8, position: bv8): (value: bv8)
    requires position < 8
    ensures value <= 1
    ensures value == 1 <==> storage & BitMask(position) != 0
  {
    (storage & BitMask(position)) >> position
  }

  /** What a one-bit `BitField` at `position` leaves in `storage` after assigning `value`. */
  function AssignBit(storage: bv8, position: bv8, value: bv8): (r: bv8)
    requires position < 8
    ensures ExtractBit(r, position) == value & 1
    ensures r & !BitMask(position) == storage & !BitMask(position)
  {
    (storage & !BitMask(position)) | ((value << position) & BitMask(position))
  }

  /** Writing back the value just read changes nothing. */
  lemma AssignExtracted(storage: bv8, position: bv8)
    requires position < 8
    ensures AssignBit(storage, position, ExtractBit(storage, position)) == storage
  {
  }

  /** Of two assignments to the same flag only the last one is visible. */
  lemma AssignLastWins(storage: bv8, position: bv8, first: bv8, second: bv8)
    requires position < 8
    ensures AssignBit(AssignBit(storage, position, first), position, second)
         == AssignBit(storage, position, second)
  {
  }

  class Settings {
    var raw: bv8

    /** `u8 raw{}`: no flag set. */
    constructor ()
      ensures raw == 0
      ensures AmiiboInitialized() == 0 && AppdataInitialized() == 0
    {
      raw := 0;
    }

    function AmiiboInitialized(): (value: bv8)
      reads this
      ensures value <= 1
    {
      ExtractBit(raw, AmiiboInitializedPosition)
    }

    function AppdataInitialized(): (value: bv8)
      reads this
      ensures value <= 1
    {
      ExtractBit(raw, AppdataInitializedPosition)
    }

    method SetAmiiboInitialized(value: bv8)
      modifies this
      ensures raw == AssignBit(old(raw), AmiiboInitializedPosition, value)
      ensures AmiiboInitialized() == value & 1
      ensures raw & !BitMask(AmiiboInitializedPosition) == old(raw) & !BitMask(AmiiboInitializedPosition)
      ensures AppdataInitialized() == old(AppdataInitialized())
    {
      raw := AssignBit(raw, AmiiboInitializedPosition, value);
    }

    method SetAppdataInitialized(value: bv8)
      modifies this
      ensures raw == AssignBit(old(raw), AppdataInitializedPosition, value)
      ensures AppdataInitialized() == value & 1
      ensures raw & !BitMask(AppdataInitializedPosition) == old(raw) & !BitMask(AppdataInitializedPosition)
      ensures AmiiboInitialized() == old(AmiiboInitialized())
    {
      raw := AssignBit(raw, AppdataInitializedPosition, value);
    }
  }
}
