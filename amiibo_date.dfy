/**
 * `AmiiboDate`: a date packed into 16 bits, year offset from 2000 in bits
 * 15..9, month in bits 8..5 (stored one above the zero-based month the API
 * uses), day in bits 4..0. The struct keeps the packed value byte-swapped in
 * `raw_date`, so the bytes in memory are the value in big-endian order.
 *
 * The setters validate nothing: a day above 31 spills into the month bits, a
 * month of 15 or more spills into the year bits, and only the low seven bits
 * of `year - 2000` are kept.
 */
module AmiiboDates {
  import opened Bytes

  const YearMask: bv16 := 0xFE00
  const MonthMask: bv16 := 0x01E0
  const DayMask: bv16 := 0x001F

  /** `Common::swap16`: the two bytes of `x` exchanged. */
  function Swap16(x: bv16): (r: bv16)
    ensures r >> 8 == x & 0xFF && r & 0xFF == x >> 8
  {
    (x << 8) | (x >> 8)
  }

  lemma Swap16Involution(x: bv16)
    ensures Swap16(Swap16(x)) == x
  {
  }

  /**
   * Keeping the value byte-swapped puts it in memory big-endian: the bytes of
   * `swap16(v)`, least significant first, are the bytes of `v`, most
   * significant first.
   */
  lemma StoredBytesAreBigEndian(v: bv16)
    ensures LittleEndian16(Swap16(v)) == BigEndian16(v)
  {
  }

  // -----------------------------------------------------------------------
  // The getters and setters, on the packed (already swapped back) value
  // -----------------------------------------------------------------------

  /** `GetYear`: the year bits plus 2000. */
  function YearOf(v: bv16): (year: bv16)
    ensures 2000 <= year <= 2127
    ensures year - 2000 == v >> 9
  {
    ((v & YearMask) >> 9) + 2000
  }

  /**
   * `GetMonth`: the month bits minus one, as a `u8`, so a stored 0 reads back
   * as 255.
   */
  function MonthOf(v: bv16): (month: bv8)
    ensures month <= 14 || month == 255
    ensures month == 255 <==> v & MonthMask == 0
    ensures (month + 1) as bv16 == (v & MonthMask) >> 5
  {
    (((v & MonthMask) >> 5) as bv8) - 1
  }

  /** `GetDay`: the low five bits. */
  function DayOf(v: bv16): (day: bv8)
    ensures day <= 31
    ensures day as bv16 == v & DayMask
  {
    (v & DayMask) as bv8
  }

  /** The value `SetYear(year)` stores. */
  function WithYear(v: bv16, year: bv16): (r: bv16)
    ensures r & MonthMask == v & MonthMask && r & DayMask == v & DayMask
    ensures YearOf(r) == ((year - 2000) & 0x7F) + 2000
    ensures 2000 <= year <= 2127 ==> YearOf(r) == year
  {
    (v & !YearMask) | ((year - 2000) << 9)
  }

  /**
   * The value `SetMonth(month)` stores. `month + 1` is computed in `int`, so
   * month 255 gives 256 and sets bit 13 rather than wrapping to 0.
   */
  function WithMonth(v: bv16, month: bv8): (r: bv16)
    ensures r & DayMask == v & DayMask
    ensures r & MonthMask == ((month as bv16 + 1) << 5) & MonthMask
    ensures month <= 14 ==> (r & MonthMask) >> 5 == month as bv16 + 1
    ensures month <= 14 ==> MonthOf(r) == month && r & YearMask == v & YearMask
    ensures r & YearMask == (v & YearMask) | (((month as bv16 + 1) << 5) & YearMask)
  {
    (v & !MonthMask) | ((month as bv16 + 1) << 5)
  }

  /** The value `SetDay(day)` stores; the day is ORed in unmasked. */
  function WithDay(v: bv16, day: bv8): (r: bv16)
    ensures r & YearMask == v & YearMask
    ensures DayOf(r) == day & 0x1F
    ensures r & MonthMask == (v & MonthMask) | (day as bv16 & 0xE0)
    ensures day <= 31 ==> DayOf(r) == day && r & MonthMask == v & MonthMask
  {
    (v & !DayMask) | day as bv16
  }

  /** `SetYear` twice: only the last call is visible. */
  lemma YearLastWriteWins(v: bv16, first: bv16, second: bv16)
    ensures WithYear(WithYear(v, first), second) == WithYear(v, second)
  {
  }

  /** `SetMonth` twice: the last call wins when the first did not spill into the year. */
  lemma MonthLastWriteWins(v: bv16, first: bv8, second: bv8)
    requires first <= 14
    ensures WithMonth(WithMonth(v, first), second) == WithMonth(v, second)
  {
  }

  /** `SetDay` twice: the last call wins when the first did not spill into the month. */
  lemma DayLastWriteWins(v: bv16, first: bv8, second: bv8)
    requires first <= 31
    ensures WithDay(WithDay(v, first), second) == WithDay(v, second)
  {
  }

  /**
   * Setting year, month and day in range overwrites all sixteen bits, and the
   * getters give back exactly what was set.
   */
  lemma SetAllRoundTrip(v: bv16, w: bv16, year: bv16, month: bv8, day: bv8)
    requires 2000 <= year <= 2127 && month <= 11 && day <= 31
    ensures var r := WithDay(WithMonth(WithYear(v, year), month), day);
      && r == WithDay(WithMonth(WithYear(w, year), month), day)
      && YearOf(r) == year && MonthOf(r) == month && DayOf(r) == day
  {
  }

  // -----------------------------------------------------------------------
  // The struct, which keeps the value byte-swapped
  // -----------------------------------------------------------------------

  class AmiiboDate {
    var raw_date: bv16

    /** `u16 raw_date{}`: a new date is all zero bits. */
    constructor ()
      ensures raw_date == 0
    {
      raw_date := 0;
    }

    /** `GetValue`: the packed value; `raw_date` is always that value byte-swapped. */
    function GetValue(): (v: bv16)
      reads this
      ensures Swap16(v) == raw_date
    {
      Swap16(raw_date)
    }

    function GetYear(): (year: bv16)
      reads this
      ensures 2000 <= year <= 2127
    {
      YearOf(GetValue())
    }

    function GetMonth(): (month: bv8)
      reads this
      ensures month <= 14 || month == 255
    {
      MonthOf(GetValue())
    }

    function GetDay(): (day: bv8)
      reads this
      ensures day <= 31
    {
      DayOf(GetValue())
    }

    method SetYear(year: bv16)
      modifies this
      ensures GetValue() == WithYear(old(GetValue()), year)
      ensures raw_date == Swap16(GetValue())
      ensures 2000 <= year <= 2127 ==> GetYear() == year
      ensures GetMonth() == old(GetMonth()) && GetDay() == old(GetDay())
    {
      var v := WithYear(GetValue(), year);
      raw_date := Swap16(v);
      Swap16Involution(v);
    }

    method SetMonth(month: bv8)
      modifies this
      ensures GetValue() == WithMonth(old(GetValue()), month)
      ensures raw_date == Swap16(GetValue())
      ensures month <= 14 ==> GetMonth() == month && GetYear() == old(GetYear())
      ensures GetDay() == old(GetDay())
    {
      var v := WithMonth(GetValue(), month);
      raw_date := Swap16(v);
      Swap16Involution(v);
    }

    method SetDay(day: bv8)
      modifies this
      ensures GetValue() == WithDay(old(GetValue()), day)
      ensures raw_date == Swap16(GetValue())
      ensures day <= 31 ==> GetDay() == day && GetMonth() == old(GetMonth())
      ensures GetYear() == old(GetYear())
    {
      var v := WithDay(GetValue(), day);
      raw_date := Swap16(v);
      Swap16Involution(v);
    }
  }
}
