/**
 * The texture mapping sub-chunk of an image texture block: a size-bounded
 * list of centre, size, rotation, reference object, falloff and coordinate
 * system sub-chunks.
 */
module TextureMapping {
  import opened Primitives
  import opened Lwo2
  import opened BinrwHelpers
  import opened Iff
  import opened MagicDispatch
  import opened SubTags

  datatype TextureMapping = TextureMapping(attributes: seq<TextureMappingSubChunk>)

  datatype TextureMappingSubChunk =
    | Center(center: SubChunk<VectorEnvelope>)
    | Size(size: SubChunk<VectorEnvelope>)
    | Rotation(rotation: SubChunk<VectorEnvelope>)
    | ReferenceObject(referenceObject: SubChunk<ReferenceObject>)
    | Falloff(falloff: SubChunk<Falloff>)
    | CoordinateSystem(coordinateSystem: SubChunk<CoordinateSystem>)

  datatype CoordinateSystem = ObjectCoordinates | WorldCoordinates

  datatype ReferenceObject = ReferenceObject(objectName: seq<u8>)

  datatype FalloffType = Cubic | Spherical | LinearX | LinearY | LinearZ

  datatype Falloff = Falloff(kind: FalloffType, vector: seq<F32>, envelope: u32)

  /** The variants of the list, in declaration order. */
  const TextureMappingCatalog: seq<Entry<TextureMappingSubChunk>> := [
    SubChunkEntry("CNTR", DecodeVectorEnvelope, (c: SubChunk<VectorEnvelope>) => Center(c)),
    SubChunkEntry("SIZE", DecodeVectorEnvelope, (c: SubChunk<VectorEnvelope>) => Size(c)),
    SubChunkEntry("ROTA", DecodeVectorEnvelope, (c: SubChunk<VectorEnvelope>) => Rotation(c)),
    SubChunkEntry("OREF", DecodeReferenceObject, (c: SubChunk<ReferenceObject>) => TextureMappingSubChunk.ReferenceObject(c)),
    SubChunkEntry("FALL", DecodeFalloff, (c: SubChunk<Falloff>) => TextureMappingSubChunk.Falloff(c)),
    SubChunkEntry("CSYS", DecodeCoordinateSystem, (c: SubChunk<CoordinateSystem>) => TextureMappingSubChunk.CoordinateSystem(c))
  ]

  lemma TextureMappingCatalogPrefixFree()
    ensures PrefixFree(Magics(TextureMappingCatalog))
  {
    UniformDistinct(Magics(TextureMappingCatalog), 4);
  }

  /** One element of the list: the variant named by the magic at the cursor. */
  function DecodeTextureMappingSubChunk(data: seq<u8>, pos: nat, arg: ()): (r: Result<Decoded<TextureMappingSubChunk>>)
    ensures r.Ok? ==> pos < |data| && pos < r.value.next
  {
    Dispatch(TextureMappingCatalog, data, pos)
  }

  /** The sub-chunks read while fewer than `length` bytes have been consumed. */
  function DecodeTextureMapping(data: seq<u8>, pos: nat, length: u32): (r: Result<Decoded<TextureMapping>>)
    ensures r.Ok? <==> SizeLimited(DecodeTextureMappingSubChunk, (), length, data, pos, pos).Ok?
    ensures r.Ok? ==> r.value.value.attributes == SizeLimited(DecodeTextureMappingSubChunk, (), length, data, pos, pos).value.value
    ensures r.Ok? ==> pos + length <= r.value.next
  {
    var attributes :- SizeLimited(DecodeTextureMappingSubChunk, (), length, data, pos, pos);
    Ok(Decoded(TextureMapping(attributes.value), attributes.next))
  }

  /** `repr = u16`: 0 object, 1 world coordinates. */
  function DecodeCoordinateSystem(data: seq<u8>, pos: nat, length: u32): (r: Result<Decoded<CoordinateSystem>>)
    ensures r.Ok? <==> pos + 2 <= |data| && BE16(data, pos) <= 1
    ensures r.Ok? ==> r.value.next == pos + 2 && (r.value.value == WorldCoordinates <==> BE16(data, pos) == 1)
  {
    ReadEnum16([ObjectCoordinates, WorldCoordinates], 0, data, pos)
  }

  /** An aligned NUL-terminated object name. */
  function DecodeReferenceObject(data: seq<u8>, pos: nat, length: u32): (r: Result<Decoded<ReferenceObject>>)
    ensures r.Ok? <==> NullString(data, pos).Ok?
    ensures r.Ok? ==> r.value.value.objectName == NullString(data, pos).value.value
    ensures r.Ok? ==> r.value.next == AlignedNullString(data, pos).value.next
  {
    var name :- AlignedNullString(data, pos);
    Ok(Decoded(ReferenceObject.ReferenceObject(name.value), name.next))
  }

  /** `repr = u16`: cubic, spherical, linear along X, Y, Z for 0 to 4. */
  function DecodeFalloffType(data: seq<u8>, pos: nat): (r: Result<Decoded<FalloffType>>)
    ensures r.Ok? <==> pos + 2 <= |data| && BE16(data, pos) <= 4
    ensures r.Ok? ==> r.value.next == pos + 2
    ensures r.Ok? ==> r.value.value == [Cubic, Spherical, LinearX, LinearY, LinearZ][BE16(data, pos)]
  {
    ReadEnum16([Cubic, Spherical, LinearX, LinearY, LinearZ], 0, data, pos)
  }

  /** The falloff type, a vector of three floats and the VX index of its envelope. */
  function DecodeFalloff(data: seq<u8>, pos: nat, length: u32): (r: Result<Decoded<Falloff>>)
    ensures r.Ok? <==> pos + 14 <= |data| && BE16(data, pos) <= 4 && Vx(data, pos + 14).Ok?
    ensures r.Ok? ==> r.value.value.kind == DecodeFalloffType(data, pos).value.value
    ensures r.Ok? ==> r.value.value.vector == [F32(BE32(data, pos + 2)), F32(BE32(data, pos + 6)), F32(BE32(data, pos + 10))]
    ensures r.Ok? ==> Vx(data, pos + 14) == Ok(Decoded(r.value.value.envelope, r.value.next))
  {
    var kind :- DecodeFalloffType(data, pos);
    var vector :- ReadF32s(3, data, kind.next);
    var envelope :- Vx(data, vector.next);
    Ok(Decoded(Falloff.Falloff(kind.value, vector.value, envelope.value), envelope.next))
  }
}
