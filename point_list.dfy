/**
 * `PNTS`: the coordinates of a layer's points, three floats each; the
 * number of points is the chunk length divided by 12, which must divide
 * it exactly.
 */
module PointList {
  import opened Primitives

  datatype PointList = PointList(pointLocation: seq<seq<F32>>)

  /** One point: three big-endian floats, twelve bytes. */
  function DecodePoint(data: seq<u8>, pos: nat): (r: Result<Decoded<seq<F32>>>)
    ensures r.Ok? <==> pos + 12 <= |data|
    ensures r.Ok? ==> r.value == Decoded([F32(BE32(data, pos)), F32(BE32(data, pos + 4)), F32(BE32(data, pos + 8))], pos + 12)
  {
    var r := ReadF32s(3, data, pos);
    if r.Ok? then
      var v := r.value.value;
      assert v[0] == F32(BE32(data, pos + 4 * 0)) && v[1] == F32(BE32(data, pos + 4 * 1)) && v[2] == F32(BE32(data, pos + 4 * 2));
      assert v == [F32(BE32(data, pos)), F32(BE32(data, pos + 4)), F32(BE32(data, pos + 8))];
      r
    else r
  }

  /**
   * `count = length / 12` points, then the check that the length is a
   * multiple of 12; the check fails only once the points have been read.
   */
  function DecodePointList(data: seq<u8>, pos: nat, length: u32): (r: Result<Decoded<PointList>>)
    ensures r.Ok? ==> length % 12 == 0 && |r.value.value.pointLocation| == length / 12
    ensures Count(length / 12, DecodePoint, data, pos).Ok? && length % 12 != 0 ==> r == Err(Error(AssertionFailed, pos))
  {
    var points :- Count(length / 12, DecodePoint, data, pos);
    if length % 12 != 0 then Err(Error(AssertionFailed, pos))
    else Ok(Decoded(PointList(points.value), points.next))
  }

  /**
   * A valid point list takes exactly the declared length, and its i-th point
   * is the three floats at `pos + 12 * i`; it fails only when the length is
   * not a multiple of 12 or the input is shorter than the length.
   */
  lemma PointListLayout(data: seq<u8>, pos: nat, length: u32)
    ensures DecodePointList(data, pos, length).Ok? <==> length % 12 == 0 && (length == 0 || pos + length <= |data|)
    ensures DecodePointList(data, pos, length).Ok? ==>
      var d := DecodePointList(data, pos, length).value;
      && d.next == pos + length
      && forall i :: 0 <= i < length / 12 ==>
        d.value.pointLocation[i] == [F32(BE32(data, pos + 12 * i)), F32(BE32(data, pos + 12 * i + 4)), F32(BE32(data, pos + 12 * i + 8))]
  {
    CountFixedWidth(length / 12, DecodePoint, 12, data, pos);
    var n := length / 12;
    if length % 12 == 0 {
      assert n * 12 == length;
    } else if Count(n, DecodePoint, data, pos).Err? {
      assert n > 0 && pos + n * 12 > |data|;
    }
    forall i | 0 <= i < n
      ensures pos + i * 12 == pos + 12 * i
    {
    }
  }

  /**
   * The point (1.0, 2.0, 3.0): twelve bytes holding the IEEE-754 patterns
   * 3F800000, 40000000 and 40400000.
   */
  lemma SinglePoint(data: seq<u8>)
    requires data == [0x3F, 0x80, 0, 0, 0x40, 0, 0, 0, 0x40, 0x40, 0, 0]
    ensures DecodePointList(data, 0, 12) == Ok(Decoded(PointList([[F32(0x3F80_0000), F32(0x4000_0000), F32(0x4040_0000)]]), 12))
  {
    var p := [F32(0x3F80_0000), F32(0x4000_0000), F32(0x4040_0000)];
    assert DecodePoint(data, 0) == Ok(Decoded(p, 12));
    assert Count(1, DecodePoint, data, 0) == Ok(Decoded([p] + [], 12));
    assert [p] + [] == [p];
  }
}
