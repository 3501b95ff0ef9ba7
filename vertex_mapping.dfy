/**
 * `VMAP`: a set of vectors of one dimension attached to points.  After the
 * map type, the dimension and the map name, each element is a VX point
 * index and `dimension` floats.
 */
module VertexMapping {
  import opened Primitives
  import opened Lwo2
  import opened BinrwHelpers

  /** The dimension is read to size the elements and is not kept. */
  datatype VertexMappings = VertexMappings(kind: seq<u8>, name: seq<u8>, mapping: seq<VertexMapping>)

  datatype VertexMapping = VertexMapping(vert: u32, value: seq<F32>)

  /** A VX point index, then `dimension` floats. */
  function DecodeVertexMapping(data: seq<u8>, pos: nat, dimension: u16): (r: Result<Decoded<VertexMapping>>)
    ensures r.Ok? <==> Vx(data, pos).Ok? && (dimension == 0 || Vx(data, pos).value.next + 4 * dimension <= |data|)
    ensures r.Ok? ==>
      var v := Vx(data, pos).value;
      && r.value.value.vert == v.value
      && r.value.next == v.next + 4 * dimension
      && |r.value.value.value| == dimension
      && forall i :: 0 <= i < dimension ==> r.value.value.value[i] == F32(BE32(data, v.next + 4 * i))
    ensures r.Ok? ==> pos < |data| && pos < r.value.next
  {
    var vert :- Vx(data, pos);
    var value :- ReadF32s(dimension, data, vert.next);
    Ok(Decoded(VertexMapping(vert.value, value.value), value.next))
  }

  /**
   * The map type, the dimension and a LightWave string; the elements then
   * share the declared length minus the bytes those took, and each is read
   * with the dimension.  The unsigned subtraction panics when the header
   * alone exceeds the length.
   */
  function DecodeVertexMappings(data: seq<u8>, pos: nat, length: u32): (r: Result<Decoded<VertexMappings>>)
    ensures r.Ok? <==>
      && pos + 6 <= |data| && LwoString(data, pos + 6).Ok?
      && LwoString(data, pos + 6).value.next - pos <= length
      && SizeLimited(DecodeVertexMapping, BE16(data, pos + 4), length - (LwoString(data, pos + 6).value.next - pos), data,
                     LwoString(data, pos + 6).value.next, LwoString(data, pos + 6).value.next).Ok?
    ensures r.Ok? ==>
      var name := LwoString(data, pos + 6).value;
      && r.value.value.kind == data[pos..pos + 4]
      && r.value.value.name == name.value
      && r.value.value.mapping == SizeLimited(DecodeVertexMapping, BE16(data, pos + 4), length - (name.next - pos), data, name.next, name.next).value.value
      && pos + length <= r.value.next
    ensures pos + 6 <= |data| && LwoString(data, pos + 6).Ok? && LwoString(data, pos + 6).value.next - pos > length ==>
      r == Err(Error(ArithmeticPanic, LwoString(data, pos + 6).value.next))
  {
    var begin := pos;
    var kind :- ReadBytes(4, data, pos);
    var dimension :- ReadU16(data, kind.next);
    var name :- LwoString(data, dimension.next);
    var end := name.next;
    if end - begin > length then Err(Error(ArithmeticPanic, end))
    else
      var mapping :- SizeLimited(DecodeVertexMapping, dimension.value, length - (end - begin), data, end, end);
      Ok(Decoded(VertexMappings(kind.value, name.value, mapping.value), mapping.next))
  }

  /** Every element of a map of dimension `d` holds exactly `d` values; with dimension 0, only its index. */
  lemma MappingDimension(data: seq<u8>, pos: nat, length: u32, i: nat)
    requires DecodeVertexMappings(data, pos, length).Ok?
    requires i < |DecodeVertexMappings(data, pos, length).value.value.mapping|
    ensures |DecodeVertexMappings(data, pos, length).value.value.mapping[i].value| == BE16(data, pos + 4)
  {
    var name := LwoString(data, pos + 6).value;
    var d := BE16(data, pos + 4);
    SizeLimitedMember(DecodeVertexMapping, d, length - (name.next - pos), data, name.next, name.next, i);
  }
}
