/**
 * `SURF`: a named surface, the surface it derives from, and the
 * size-bounded list of its parameter sub-chunks.
 */
module SurfaceDefinition {
  import opened Primitives
  import opened BinrwHelpers
  import opened SurfaceParameters

  datatype SurfaceDefinition = SurfaceDefinition(name: seq<u8>, source: seq<u8>, attributes: seq<SurfaceParameterSubChunk>)

  /** The parameter sub-chunks read from `start` while fewer than `limit` bytes have been consumed. */
  function Attributes(limit: nat, data: seq<u8>, start: nat): (r: Result<Decoded<seq<SurfaceParameterSubChunk>>>)
    ensures r.Ok? ==> start + limit <= r.value.next
  {
    SizeLimited(DecodeSurfaceParameterSubChunk, (), limit, data, start, start)
  }

  /**
   * Two aligned NUL-terminated names; the sub-chunks then share the
   * declared length minus the bytes the names took.  The unsigned
   * subtraction panics when the names alone exceed the length.
   */
  function DecodeSurfaceDefinition(data: seq<u8>, pos: nat, length: u32): (r: Result<Decoded<SurfaceDefinition>>)
    ensures r.Ok? ==> NullString(data, pos).Ok? && NullString(data, AlignedNullString(data, pos).value.next).Ok?
    ensures r.Ok? <==>
      && NullString(data, pos).Ok? && NullString(data, AlignedNullString(data, pos).value.next).Ok?
      && (var end := AlignedNullString(data, AlignedNullString(data, pos).value.next).value.next;
          end - pos <= length && Attributes(length - (end - pos), data, end).Ok?)
    ensures r.Ok? ==>
      var name := AlignedNullString(data, pos).value;
      var source := AlignedNullString(data, name.next).value;
      && source.next - pos <= length
      && r.value.value.name == name.value
      && r.value.value.source == source.value
      && r.value.value.attributes ==
           Attributes(length - (source.next - pos), data, source.next).value.value
      && pos + length <= r.value.next
    ensures NullString(data, pos).Ok? && NullString(data, AlignedNullString(data, pos).value.next).Ok? &&
            AlignedNullString(data, AlignedNullString(data, pos).value.next).value.next - pos > length ==>
      r == Err(Error(ArithmeticPanic, AlignedNullString(data, AlignedNullString(data, pos).value.next).value.next))
  {
    var name :- AlignedNullString(data, pos);
    var source :- AlignedNullString(data, name.next);
    var end := source.next;
    if end - pos > length then Err(Error(ArithmeticPanic, end))
    else
      var attributes :- Attributes(length - (end - pos), data, end);
      Ok(Decoded(SurfaceDefinition.SurfaceDefinition(name.value, source.value, attributes.value), attributes.next))
  }
}
