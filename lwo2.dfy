/**
 * The variable-width index ("VX") of the LWO2 format: an index into the
 * points, polygons, clips or envelopes of the object, written in two bytes
 * when it is below 0xFF00 and otherwise in four bytes whose first byte is
 * 0xFF.
 */
module Lwo2 {
  import opened Primitives

  /** The largest index the four-byte form can carry (24 bits). */
  const MaxVx: nat := 0xFF_FFFF

  /**
   * `vx`: a big-endian word below 0xFF00 is the index itself; otherwise its
   * low byte and the following word form a 24-bit index.
   */
  function Vx(data: seq<u8>, pos: nat): (r: Result<Decoded<u32>>)
    ensures r.Ok? <==> pos + 2 <= |data| && (data[pos] == 0xFF ==> pos + 4 <= |data|)
    ensures r.Ok? ==> r.value.value <= MaxVx
    ensures r.Ok? ==> r.value.next == (if data[pos] == 0xFF then pos + 4 else pos + 2)
    ensures r.Ok? && data[pos] != 0xFF ==> r.value.value == BE16(data, pos) < 0xFF00
    ensures r.Ok? && data[pos] == 0xFF ==> r.value.value == data[pos + 1] * 0x1_0000 + BE16(data, pos + 2)
    ensures r.Err? ==> r.error.kind == UnexpectedEof
  {
    var kind :- ReadU16(data, pos);
    if kind.value < 0xFF00 then Ok(Decoded(kind.value, kind.next))
    else
      var low :- ReadU16(data, kind.next);
      Ok(Decoded((kind.value % 0x100) * 0x1_0000 + low.value, low.next))
  }

  /**
   * The source assembles the long form with a mask, a shift and an or; on
   * 16-bit operands that equals the arithmetic used by `Vx` (no carry and no
   * overflow in 32 bits).
   */
  lemma VxBitFormula(kind: bv32, low: bv32)
    requires kind < 0x1_0000 && low < 0x1_0000
    ensures ((kind & 0xFF) << 16) | low == (kind % 0x100) * 0x1_0000 + low
  {
  }

  /** The canonical encoding of an index: two bytes below 0xFF00, four bytes led by 0xFF above. */
  function EncodeVx(v: nat): (b: seq<u8>)
    requires v <= MaxVx
    ensures |b| == (if v < 0xFF00 then 2 else 4)
  {
    if v < 0xFF00 then U16Bytes(v) else [0xFF, v / 0x1_0000] + U16Bytes(v % 0x1_0000)
  }

  /** Decoding a canonical encoding gives the index back and consumes exactly the encoding. */
  lemma VxRoundTrip(v: nat, data: seq<u8>, pos: nat)
    requires v <= MaxVx
    requires pos + |EncodeVx(v)| <= |data| && data[pos..pos + |EncodeVx(v)|] == EncodeVx(v)
    ensures Vx(data, pos) == Ok(Decoded(v, pos + |EncodeVx(v)|))
  {
    var e := EncodeVx(v);
    assert data[pos] == e[0] && data[pos + 1] == e[1];
    if v >= 0xFF00 {
      assert data[pos + 2] == e[2] && data[pos + 3] == e[3];
    }
  }

  /** A four-byte index at or above 0xFF00, or any two-byte index, is exactly the canonical encoding. */
  lemma VxCanonical(data: seq<u8>, pos: nat)
    requires Vx(data, pos).Ok?
    requires data[pos] != 0xFF || Vx(data, pos).value.value >= 0xFF00
    ensures data[pos..Vx(data, pos).value.next] == EncodeVx(Vx(data, pos).value.value)
  {
    var v := Vx(data, pos).value.value;
    var q := Vx(data, pos).value.next;
    var e := EncodeVx(v);
    if data[pos] == 0xFF {
      assert data[pos..q] == [data[pos], data[pos + 1], data[pos + 2], data[pos + 3]];
    } else {
      assert data[pos..q] == [data[pos], data[pos + 1]];
    }
  }

  /** Worked cases: short forms, the largest short form, and a non-canonical long form. */
  lemma VxExamples()
    ensures Vx([0x00, 0x05], 0) == Ok(Decoded(5, 2))
    ensures Vx([0xFE, 0xFF], 0) == Ok(Decoded(0xFEFF, 2))
    ensures Vx([0xFF, 0x00, 0x00, 0x0A], 0) == Ok(Decoded(10, 4))
    ensures Vx([0xFF, 0x01, 0x00, 0x01], 0) == Ok(Decoded(0x1_0001, 4))
    ensures Vx([0xFF, 0x01, 0x00], 0).Err?
    ensures Vx([0x12], 0).Err?
  {
  }
}
