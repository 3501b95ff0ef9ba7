/** `VMPA`: properties of a vertex map: its UV subdivision type and sketch colour. */
module VertexMapParameter {
  import opened Primitives

  datatype VertexMapParameter = VertexMapParameter(uvSubdivisionType: UvSubdivisionType, sketchColor: i32)

  datatype UvSubdivisionType = Linear | Subpatch | SubpatchLinearCorners | SubpatchLinearEdges | SubpatchDiscoEdges

  /** `repr = i32`: the five subdivision types, 0 to 4; any other signed value fails. */
  function DecodeUvSubdivisionType(data: seq<u8>, pos: nat): (r: Result<Decoded<UvSubdivisionType>>)
    ensures r.Ok? <==> pos + 4 <= |data| && 0 <= AsI32(BE32(data, pos)) <= 4
    ensures r.Ok? ==> r.value == Decoded(
      [Linear, Subpatch, SubpatchLinearCorners, SubpatchLinearEdges, SubpatchDiscoEdges][BE32(data, pos)], pos + 4)
    ensures r.Err? ==> r.error.offset == pos
  {
    ReadEnumI32([Linear, Subpatch, SubpatchLinearCorners, SubpatchLinearEdges, SubpatchDiscoEdges], 0, data, pos)
  }

  /** The subdivision type, then a signed 32-bit colour; eight bytes, the length unused. */
  function DecodeVertexMapParameter(data: seq<u8>, pos: nat, length: u32): (r: Result<Decoded<VertexMapParameter>>)
    ensures r.Ok? <==> pos + 8 <= |data| && BE32(data, pos) <= 4
    ensures r.Ok? ==> r.value.next == pos + 8
    ensures r.Ok? ==> r.value.value.uvSubdivisionType == DecodeUvSubdivisionType(data, pos).value.value
    ensures r.Ok? ==> r.value.value.sketchColor == AsI32(BE32(data, pos + 4))
  {
    var kind :- DecodeUvSubdivisionType(data, pos);
    var color :- ReadI32(data, kind.next);
    Ok(Decoded(VertexMapParameter(kind.value, color.value), color.next))
  }
}
