/**
 * `POLS`: the polygons of a layer.  After a four-byte polygon type, each
 * polygon is a 16-bit word whose low 10 bits count its vertices and whose
 * high 6 bits are flags, followed by that many VX point indices.
 */
module PolygonList {
  import opened Primitives
  import opened Lwo2
  import opened BinrwHelpers

  datatype PolygonLists = PolygonLists(kind: seq<u8>, polygons: seq<PolygonList>)

  datatype PolygonList = PolygonList(flags: u8, vert: seq<u32>)

  /** The vertex-count-and-flags word, split, then the vertex indices. */
  function DecodePolygonList(data: seq<u8>, pos: nat, arg: ()): (r: Result<Decoded<PolygonList>>)
    ensures r.Ok? ==> pos + 2 <= |data| && pos < r.value.next
    ensures r.Ok? <==> pos + 2 <= |data| && Count(BE16(data, pos) % 0x400, Vx, data, pos + 2).Ok?
    ensures r.Ok? ==>
      && r.value.value.flags == BE16(data, pos) / 0x400 < 64
      && Count(BE16(data, pos) % 0x400, Vx, data, pos + 2) == Ok(Decoded(r.value.value.vert, r.value.next))
  {
    var word :- ReadU16(data, pos);
    var vert :- Count(word.value % 0x400, Vx, data, word.next);
    VxListWidth(word.value % 0x400, data, word.next);
    Ok(Decoded(PolygonList(word.value / 0x400, vert.value), vert.next))
  }

  /**
   * The word the polygon was read from is recovered from the polygon:
   * flags above bit 10, the vertex count below; at most 1023 vertices, each
   * an index of at most 24 bits, taking two to four bytes each.
   */
  lemma PolygonWord(data: seq<u8>, pos: nat)
    requires DecodePolygonList(data, pos, ()).Ok?
    ensures
      var d := DecodePolygonList(data, pos, ()).value;
      && BE16(data, pos) == d.value.flags * 0x400 + |d.value.vert|
      && |d.value.vert| <= 1023
      && pos + 2 + 2 * |d.value.vert| <= d.next <= pos + 2 + 4 * |d.value.vert|
      && forall i :: 0 <= i < |d.value.vert| ==> d.value.vert[i] <= MaxVx
  {
    VxListWidth(BE16(data, pos) % 0x400, data, pos + 2);
  }

  /** The bytes of a polygon: the packed word, then each index in its canonical form. */
  function EncodePolygon(flags: nat, vert: seq<nat>): (b: seq<u8>)
    requires flags < 64 && |vert| < 0x400
    requires forall i :: 0 <= i < |vert| ==> vert[i] <= MaxVx
  {
    U16Bytes(flags * 0x400 + |vert|) + EncodeVxs(vert)
  }

  /** A polygon reads back as the flags and indices it was encoded from. */
  lemma PolygonRoundTrip(flags: nat, vert: seq<nat>, data: seq<u8>, pos: nat)
    requires flags < 64 && |vert| < 0x400
    requires forall i :: 0 <= i < |vert| ==> vert[i] <= MaxVx
    requires pos + |EncodePolygon(flags, vert)| <= |data|
    requires data[pos..pos + |EncodePolygon(flags, vert)|] == EncodePolygon(flags, vert)
    ensures DecodePolygonList(data, pos, ()) == Ok(Decoded(PolygonList(flags, vert), pos + |EncodePolygon(flags, vert)|))
  {
    var w := U16Bytes(flags * 0x400 + |vert|);
    var e := EncodeVxs(vert);
    SliceSplit(data, pos, w, e);
    assert data[pos] == w[0] && data[pos + 1] == w[1];
    assert BE16(data, pos) == BE16(w, 0) == flags * 0x400 + |vert|;
    VxListRoundTrip(vert, data, pos + 2);
  }

  /**
   * The polygon type, then polygons while fewer than the declared length
   * minus four bytes have been read after it; the subtraction panics below
   * four.
   */
  function DecodePolygonLists(data: seq<u8>, pos: nat, length: u32): (r: Result<Decoded<PolygonLists>>)
    ensures r.Ok? <==> pos + 4 <= |data| && 4 <= length && SizeLimited(DecodePolygonList, (), length - 4, data, pos + 4, pos + 4).Ok?
    ensures r.Ok? ==> r.value.value.kind == data[pos..pos + 4]
    ensures r.Ok? ==> r.value.value.polygons == SizeLimited(DecodePolygonList, (), length - 4, data, pos + 4, pos + 4).value.value
    ensures r.Ok? ==> pos + length <= r.value.next
    ensures pos + 4 <= |data| && length < 4 ==> r == Err(Error(ArithmeticPanic, pos + 4))
  {
    var kind :- ReadBytes(4, data, pos);
    if length < 4 then Err(Error(ArithmeticPanic, kind.next))
    else
      var polygons :- SizeLimited(DecodePolygonList, (), length - 4, data, kind.next, kind.next);
      Ok(Decoded(PolygonLists(kind.value, polygons.value), polygons.next))
  }
}
