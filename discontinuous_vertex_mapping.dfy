/**
 * `VMAD`: vectors attached to the vertices of particular polygons.  After
 * the map type, the dimension and the map name, each element is a VX point
 * index, a VX polygon index and `dimension` floats.
 */
module DiscontinuousVertexMapping {
  import opened Primitives
  import opened Lwo2
  import opened BinrwHelpers

  /** The dimension is read to size the elements and is not kept. */
  datatype DiscontinuousVertexMappings = DiscontinuousVertexMappings(kind: seq<u8>, name: seq<u8>, mappings: seq<DiscontinuousVertexMapping>)

  datatype DiscontinuousVertexMapping = DiscontinuousVertexMapping(vert: u32, poly: u32, values: seq<F32>)

  /** Two VX indices, then `dimension` floats: four to eight bytes plus four per value. */
  function DecodeDiscontinuousVertexMapping(data: seq<u8>, pos: nat, dimension: u16): (r: Result<Decoded<DiscontinuousVertexMapping>>)
    ensures r.Ok? <==>
      && Vx(data, pos).Ok? && Vx(data, Vx(data, pos).value.next).Ok?
      && (dimension == 0 || Vx(data, Vx(data, pos).value.next).value.next + 4 * dimension <= |data|)
    ensures r.Ok? ==>
      var v := Vx(data, pos).value;
      var p := Vx(data, v.next).value;
      && r.value.value.vert == v.value && r.value.value.poly == p.value
      && r.value.next == p.next + 4 * dimension
      && |r.value.value.values| == dimension
      && forall i :: 0 <= i < dimension ==> r.value.value.values[i] == F32(BE32(data, p.next + 4 * i))
    ensures r.Ok? ==> pos + 4 + 4 * dimension <= r.value.next <= pos + 8 + 4 * dimension
    ensures r.Ok? ==> pos < |data| && pos < r.value.next
  {
    var vert :- Vx(data, pos);
    var poly :- Vx(data, vert.next);
    var values :- ReadF32s(dimension, data, poly.next);
    Ok(Decoded(DiscontinuousVertexMapping(vert.value, poly.value, values.value), values.next))
  }

  /**
   * The map type, the dimension and an aligned NUL-terminated name (not a
   * LightWave string); the elements then share the declared length minus
   * the bytes those took, and each is read with the dimension.  The
   * unsigned subtraction panics when the header alone exceeds the length.
   */
  function DecodeDiscontinuousVertexMappings(data: seq<u8>, pos: nat, length: u32): (r: Result<Decoded<DiscontinuousVertexMappings>>)
    ensures r.Ok? <==>
      && pos + 6 <= |data| && AlignedNullString(data, pos + 6).Ok?
      && AlignedNullString(data, pos + 6).value.next - pos <= length
      && SizeLimited(DecodeDiscontinuousVertexMapping, BE16(data, pos + 4), length - (AlignedNullString(data, pos + 6).value.next - pos), data,
                     AlignedNullString(data, pos + 6).value.next, AlignedNullString(data, pos + 6).value.next).Ok?
    ensures r.Ok? ==>
      var name := AlignedNullString(data, pos + 6).value;
      && r.value.value.kind == data[pos..pos + 4]
      && r.value.value.name == NullString(data, pos + 6).value.value
      && r.value.value.mappings == SizeLimited(DecodeDiscontinuousVertexMapping, BE16(data, pos + 4), length - (name.next - pos), data, name.next, name.next).value.value
      && pos + length <= r.value.next
    ensures pos + 6 <= |data| && AlignedNullString(data, pos + 6).Ok? && AlignedNullString(data, pos + 6).value.next - pos > length ==>
      r == Err(Error(ArithmeticPanic, AlignedNullString(data, pos + 6).value.next))
  {
    var start := pos;
    var kind :- ReadBytes(4, data, pos);
    var dimension :- ReadU16(data, kind.next);
    var name :- AlignedNullString(data, dimension.next);
    var end := name.next;
    if end - start > length then Err(Error(ArithmeticPanic, end))
    else
      var mappings :- SizeLimited(DecodeDiscontinuousVertexMapping, dimension.value, length - (end - start), data, end, end);
      Ok(Decoded(DiscontinuousVertexMappings(kind.value, name.value, mappings.value), mappings.next))
  }

  /** Every element of a map of dimension `d` holds exactly `d` values. */
  lemma MappingsDimension(data: seq<u8>, pos: nat, length: u32, i: nat)
    requires DecodeDiscontinuousVertexMappings(data, pos, length).Ok?
    requires i < |DecodeDiscontinuousVertexMappings(data, pos, length).value.value.mappings|
    ensures |DecodeDiscontinuousVertexMappings(data, pos, length).value.value.mappings[i].values| == BE16(data, pos + 4)
  {
    var name := AlignedNullString(data, pos + 6).value;
    SizeLimitedMember(DecodeDiscontinuousVertexMapping, BE16(data, pos + 4), length - (name.next - pos), data, name.next, name.next, i);
  }
}
