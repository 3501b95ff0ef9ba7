/**
 * `PTAG`: associates tags of one type with polygons.  After a four-byte
 * tag type, each mapping is a VX polygon index and a 16-bit index into the
 * tag strings.
 */
module PolygonTagMapping {
  import opened Primitives
  import opened Lwo2
  import opened BinrwHelpers

  datatype PolygonTagMappings = PolygonTagMappings(kind: seq<u8>, mappings: seq<PolygonTagMapping>)

  datatype PolygonTagMapping = PolygonTagMapping(poly: u32, tag: u16)

  /** A VX polygon index, then a 16-bit tag index: four or six bytes. */
  function DecodePolygonTagMapping(data: seq<u8>, pos: nat, arg: ()): (r: Result<Decoded<PolygonTagMapping>>)
    ensures r.Ok? <==> Vx(data, pos).Ok? && Vx(data, pos).value.next + 2 <= |data|
    ensures r.Ok? ==>
      && r.value.value.poly == Vx(data, pos).value.value
      && r.value.value.tag == BE16(data, Vx(data, pos).value.next)
      && r.value.next == Vx(data, pos).value.next + 2
      && (r.value.next == pos + 4 || r.value.next == pos + 6)
  {
    var poly :- Vx(data, pos);
    var tag :- ReadU16(data, poly.next);
    Ok(Decoded(PolygonTagMapping(poly.value, tag.value), tag.next))
  }

  /**
   * The tag type, then mappings while fewer than the declared length minus
   * four bytes have been read after it; the subtraction panics below four.
   */
  function DecodePolygonTagMappings(data: seq<u8>, pos: nat, length: u32): (r: Result<Decoded<PolygonTagMappings>>)
    ensures r.Ok? <==> pos + 4 <= |data| && 4 <= length && SizeLimited(DecodePolygonTagMapping, (), length - 4, data, pos + 4, pos + 4).Ok?
    ensures r.Ok? ==> r.value.value.kind == data[pos..pos + 4]
    ensures r.Ok? ==> r.value.value.mappings == SizeLimited(DecodePolygonTagMapping, (), length - 4, data, pos + 4, pos + 4).value.value
    ensures r.Ok? ==> pos + length <= r.value.next
    ensures pos + 4 <= |data| && length < 4 ==> r == Err(Error(ArithmeticPanic, pos + 4))
  {
    var kind :- ReadBytes(4, data, pos);
    if length < 4 then Err(Error(ArithmeticPanic, kind.next))
    else
      var mappings :- SizeLimited(DecodePolygonTagMapping, (), length - 4, data, kind.next, kind.next);
      Ok(Decoded(PolygonTagMappings(kind.value, mappings.value), mappings.next))
  }
}
