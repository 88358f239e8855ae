/**
 * How a C++ compiler lays out a struct: members in declaration order, each
 * moved up to the next multiple of its alignment, and the struct's size
 * rounded up to the largest member alignment. `#pragma pack(1)` caps every
 * member's alignment at one byte.
 *
 * The reference it is compared with is the "packed back to back" layout,
 * where every member starts exactly where the previous one ended. A struct
 * whose C layout equals that reference has no implicit padding, so its
 * `sizeof` is the plain sum of its member widths.
 */
module Layout {

  type Pos = n: nat | 0 < n witness 1

  datatype Packing = Natural | Packed1

  /** One member of a struct: its name, its width in bytes, its natural alignment. */
  datatype Field = Field(name: string, width: nat, align: Pos)

  datatype Struct = Struct(fields: seq<Field>, packing: Packing)

  function EffectiveAlign(f: Field, p: Packing): Pos
  {
    match p
    case Natural => f.align
    case Packed1 => 1
  }

  /** The first multiple of `a` that is not below `n`. */
  function AlignUp(n: nat, a: Pos): (r: nat)
    ensures n <= r < n + a
    ensures r == n <==> n % a == 0
  {
    if n % a == 0 then n else n + (a - n % a)
  }

  // ---------------------------------------------------------------------
  // The compiler's placement rule
  // ---------------------------------------------------------------------

  /** Offsets the compiler gives to fields[i..] when the cursor stands at `cursor`. */
  function Place(fs: seq<Field>, p: Packing, i: nat, cursor: nat): (offs: seq<nat>)
    requires i <= |fs|
    ensures |offs| == |fs| - i
    decreases |fs| - i
  {
    if i == |fs| then []
    else
      var o := AlignUp(cursor, EffectiveAlign(fs[i], p));
      [o] + Place(fs, p, i + 1, o + fs[i].width)
  }

  /** Where the cursor stands after the compiler has placed fields[i..]. */
  function EndOf(fs: seq<Field>, p: Packing, i: nat, cursor: nat): nat
    requires i <= |fs|
    decreases |fs| - i
  {
    if i == |fs| then cursor
    else EndOf(fs, p, i + 1, AlignUp(cursor, EffectiveAlign(fs[i], p)) + fs[i].width)
  }

  /** The largest effective alignment among fields[i..] (one for none). */
  function MaxAlign(fs: seq<Field>, p: Packing, i: nat): Pos
    requires i <= |fs|
    decreases |fs| - i
  {
    if i == |fs| then 1
    else
      var rest := MaxAlign(fs, p, i + 1);
      if EffectiveAlign(fs[i], p) < rest then rest else EffectiveAlign(fs[i], p)
  }

  function Offsets(s: Struct): seq<nat>
  {
    Place(s.fields, s.packing, 0, 0)
  }

  function AlignOf(s: Struct): Pos
  {
    MaxAlign(s.fields, s.packing, 0)
  }

  /** `sizeof(s)`: the end of the last member, rounded up to the struct's alignment. */
  function SizeOf(s: Struct): nat
  {
    AlignUp(EndOf(s.fields, s.packing, 0, 0), AlignOf(s))
  }

  // ---------------------------------------------------------------------
  // The reference: members back to back
  // ---------------------------------------------------------------------

  function WidthFrom(fs: seq<Field>, i: nat): nat
    requires i <= |fs|
    decreases |fs| - i
  {
    if i == |fs| then 0 else fs[i].width + WidthFrom(fs, i + 1)
  }

  function PackedFrom(fs: seq<Field>, i: nat, cursor: nat): (offs: seq<nat>)
    requires i <= |fs|
    ensures |offs| == |fs| - i
    decreases |fs| - i
  {
    if i == |fs| then [] else [cursor] + PackedFrom(fs, i + 1, cursor + fs[i].width)
  }

  function TotalWidth(s: Struct): nat
  {
    WidthFrom(s.fields, 0)
  }

  /** No implicit padding anywhere: every member starts where the previous ended. */
  ghost predicate Contiguous(s: Struct)
  {
    Offsets(s) == PackedFrom(s.fields, 0, 0) && SizeOf(s) == TotalWidth(s)
  }

  /** Every member of fields[i..], laid back to back from `cursor`, is already aligned. */
  predicate Aligned(fs: seq<Field>, p: Packing, i: nat, cursor: nat)
    requires i <= |fs|
    decreases |fs| - i
  {
    i == |fs| || (cursor % EffectiveAlign(fs[i], p) == 0 && Aligned(fs, p, i + 1, cursor + fs[i].width))
  }

  // ---------------------------------------------------------------------
  // Lemmas
  // ---------------------------------------------------------------------

  /**
   * The compiler's placement equals the back-to-back reference exactly when
   * every member is already aligned where the reference puts it.
   */
  lemma {:induction false} PlaceIsPackedIff(fs: seq<Field>, p: Packing, i: nat, cursor: nat)
    requires i <= |fs|
    ensures Place(fs, p, i, cursor) == PackedFrom(fs, i, cursor) <==> Aligned(fs, p, i, cursor)
    decreases |fs| - i
  {
    if i < |fs| {
      PlaceIsPackedIff(fs, p, i + 1, cursor + fs[i].width);
      var placed := Place(fs, p, i, cursor);
      var packed := PackedFrom(fs, i, cursor);
      if placed == packed {
        assert placed[0] == cursor;
        assert placed[1..] == Place(fs, p, i + 1, cursor + fs[i].width);
        assert packed[1..] == PackedFrom(fs, i + 1, cursor + fs[i].width);
      }
    }
  }

  /** When every member is aligned, the compiler's cursor ends after the sum of the widths. */
  lemma {:induction false} AlignedEnd(fs: seq<Field>, p: Packing, i: nat, cursor: nat)
    requires i <= |fs|
    requires Aligned(fs, p, i, cursor)
    ensures EndOf(fs, p, i, cursor) == cursor + WidthFrom(fs, i)
    decreases |fs| - i
  {
    if i < |fs| {
      AlignedEnd(fs, p, i + 1, cursor + fs[i].width);
    }
  }

  /**
   * A struct has no implicit padding exactly when every member is aligned at
   * its back-to-back offset and the sum of the widths is a multiple of the
   * struct's alignment.
   */
  lemma ContiguousIff(s: Struct)
    ensures Contiguous(s) <==> Aligned(s.fields, s.packing, 0, 0) && TotalWidth(s) % AlignOf(s) == 0
  {
    var fs, p := s.fields, s.packing;
    PlaceIsPackedIff(fs, p, 0, 0);
    if Aligned(fs, p, 0, 0) {
      AlignedEnd(fs, p, 0, 0);
    }
  }

  /** Back to back, the k-th member starts at the total width less the widths from k on. */
  lemma {:induction false} PackedFromAt(fs: seq<Field>, i: nat, cursor: nat, k: nat)
    requires i <= k < |fs|
    ensures WidthFrom(fs, k) <= WidthFrom(fs, i)
    ensures PackedFrom(fs, i, cursor)[k - i] == cursor + WidthFrom(fs, i) - WidthFrom(fs, k)
    decreases k - i
  {
    if i < k {
      PackedFromAt(fs, i + 1, cursor + fs[i].width, k);
    }
  }

  /** In a contiguous struct the k-th member starts at the total width less the widths from k on. */
  lemma OffsetAt(s: Struct, k: nat)
    requires k < |s.fields|
    requires Contiguous(s)
    ensures Offsets(s)[k] == TotalWidth(s) - WidthFrom(s.fields, k)
  {
    PackedFromAt(s.fields, 0, 0, k);
  }

  /** Under `#pragma pack(1)` every member is aligned and the struct's alignment is one. */
  lemma {:induction false} Packed1Aligned(fs: seq<Field>, i: nat, cursor: nat)
    requires i <= |fs|
    ensures Aligned(fs, Packed1, i, cursor)
    ensures MaxAlign(fs, Packed1, i) == 1
    decreases |fs| - i
  {
    if i < |fs| {
      Packed1Aligned(fs, i + 1, cursor + fs[i].width);
    }
  }

  /** So a packed struct is always contiguous. */
  lemma Packed1Contiguous(s: Struct)
    requires s.packing == Packed1
    ensures Contiguous(s) && AlignOf(s) == 1
  {
    Packed1Aligned(s.fields, 0, 0);
    ContiguousIff(s);
  }
}
