/**
 * The sub-chunks of an image map texture block: the texture mapping, the
 * projection and its axis, the image, how it wraps and repeats, the UV map,
 * antialiasing, pixel blending, sticky projection and amplitude.
 */
module ImageTexture {
  import opened Primitives
  import opened Lwo2
  import opened BinrwHelpers
  import opened Iff
  import opened MagicDispatch
  import opened SubTags
  import Mapping = TextureMapping

  datatype SurfaceBlockImageTextureSubChunk =
    | TextureMapping(textureMapping: SubChunk<Mapping.TextureMapping>)
    | ProjectionMode(projectionMode: SubChunk<ProjectionMode>)
    | MajorAxis(majorAxis: SubChunk<MajorAxis>)
    | ImageMap(imageMap: SubChunk<VxReference>)
    | ImageWrapOptions(imageWrapOptions: SubChunk<ImageWrapOptions>)
    | ImageWrapAmountWidth(widthWrapAmount: SubChunk<ImageWrapAmount>)
    | ImageWrapAmountHeight(heightWrapAmount: SubChunk<ImageWrapAmount>)
    | UvVertexMap(uvVertexMap: SubChunk<UvMap>)
    | AntialiasingStrength(antialiasingStrength: SubChunk<AntialiasingStrength>)
    | PixelBlending(pixelBlending: SubChunk<PixelBlending>)
    | StickyProjection(stickyProjection: SubChunk<ValueEnvelope>)
    | TextureAmplitude(textureAmplitude: SubChunk<ValueEnvelope>)

  /** 0, 1 or 2 for the X, Y or Z axis of planar, cylindrical and spherical projections. */
  datatype MajorAxis = MajorAxis(textureAxis: u16)

  /** The low bit enables pixel blending. */
  datatype PixelBlending = PixelBlending(flags: u16)

  /** The low bit enables antialiasing; the strength scales the sample filter. */
  datatype AntialiasingStrength = AntialiasingStrength(flags: u16, strength: F32)

  /** The name of the TXUV vertex map holding the UV coordinates. */
  datatype UvMap = UvMap(txuvMapName: seq<u8>)

  /** How many times the image repeats per interval, and the envelope of that number. */
  datatype ImageWrapAmount = ImageWrapAmount(cycles: F32, envelope: u32)

  datatype ImageWrapOptions = ImageWrapOptions(widthWrap: ImageWrapType, heightWrap: ImageWrapType)

  datatype ImageWrapType = Reset | Repeat | Mirror | Edge

  datatype ProjectionMode = Planar | Cylindrical | Spherical | Cubic | FrontProjection | UV

  /** The variants of the list, in declaration order; `STICK` is the one five-byte magic. */
  const ImageTextureCatalog: seq<Entry<SurfaceBlockImageTextureSubChunk>> := [
    SubChunkEntry("TMAP", Mapping.DecodeTextureMapping, (c: SubChunk<Mapping.TextureMapping>) => SurfaceBlockImageTextureSubChunk.TextureMapping(c)),
    SubChunkEntry("PROJ", DecodeProjectionMode, (c: SubChunk<ProjectionMode>) => SurfaceBlockImageTextureSubChunk.ProjectionMode(c)),
    SubChunkEntry("AXIS", DecodeMajorAxis, (c: SubChunk<MajorAxis>) => SurfaceBlockImageTextureSubChunk.MajorAxis(c)),
    SubChunkEntry("IMAG", DecodeVxReference, (c: SubChunk<VxReference>) => ImageMap(c)),
    SubChunkEntry("WRAP", DecodeImageWrapOptions, (c: SubChunk<ImageWrapOptions>) => SurfaceBlockImageTextureSubChunk.ImageWrapOptions(c)),
    SubChunkEntry("WRPW", DecodeImageWrapAmount, (c: SubChunk<ImageWrapAmount>) => ImageWrapAmountWidth(c)),
    SubChunkEntry("WRPH", DecodeImageWrapAmount, (c: SubChunk<ImageWrapAmount>) => ImageWrapAmountHeight(c)),
    SubChunkEntry("VMAP", DecodeUvMap, (c: SubChunk<UvMap>) => UvVertexMap(c)),
    SubChunkEntry("AAST", DecodeAntialiasingStrength, (c: SubChunk<AntialiasingStrength>) => SurfaceBlockImageTextureSubChunk.AntialiasingStrength(c)),
    SubChunkEntry("PIXB", DecodePixelBlending, (c: SubChunk<PixelBlending>) => SurfaceBlockImageTextureSubChunk.PixelBlending(c)),
    SubChunkEntry("STICK", DecodeValueEnvelope, (c: SubChunk<ValueEnvelope>) => StickyProjection(c)),
    SubChunkEntry("TAMP", DecodeValueEnvelope, (c: SubChunk<ValueEnvelope>) => TextureAmplitude(c))
  ]

  /** The five-byte `STICK` starts with no other magic of the list, so the list is still prefix-free. */
  lemma ImageTextureCatalogPrefixFree()
    ensures PrefixFree(Magics(ImageTextureCatalog))
  {
    var ms := Magics(ImageTextureCatalog);
    assert ms == ["TMAP", "PROJ", "AXIS", "IMAG", "WRAP", "WRPW", "WRPH", "VMAP", "AAST", "PIXB", "STICK", "TAMP"];
    var hs := Heads(ms, 4);
    forall i | 0 <= i < |ms| && i != 10
      ensures hs[i] == ms[i]
    {
      assert ms[i][..4] == ms[i];
    }
    assert hs[10] == ms[10][..4] == "STIC";
    assert hs == ["TMAP", "PROJ", "AXIS", "IMAG", "WRAP", "WRPW", "WRPH", "VMAP", "AAST", "PIXB", "STIC", "TAMP"];
    DistinctHeads(ms, 4);
  }

  /** One element of an image block's list: the variant named by the magic at the cursor. */
  function DecodeImageTextureSubChunk(data: seq<u8>, pos: nat, arg: ()): (r: Result<Decoded<SurfaceBlockImageTextureSubChunk>>)
    ensures r.Ok? ==> pos < |data| && pos < r.value.next
  {
    Dispatch(ImageTextureCatalog, data, pos)
  }

  /** A 16-bit axis number, kept as read. */
  function DecodeMajorAxis(data: seq<u8>, pos: nat, length: u32): (r: Result<Decoded<MajorAxis>>)
    ensures r.Ok? <==> pos + 2 <= |data|
    ensures r.Ok? ==> r.value == Decoded(MajorAxis.MajorAxis(BE16(data, pos)), pos + 2)
  {
    var axis :- ReadU16(data, pos);
    Ok(Decoded(MajorAxis.MajorAxis(axis.value), axis.next))
  }

  /** A 16-bit flags word, kept as read. */
  function DecodePixelBlending(data: seq<u8>, pos: nat, length: u32): (r: Result<Decoded<PixelBlending>>)
    ensures r.Ok? <==> pos + 2 <= |data|
    ensures r.Ok? ==> r.value == Decoded(PixelBlending.PixelBlending(BE16(data, pos)), pos + 2)
  {
    var flags :- ReadU16(data, pos);
    Ok(Decoded(PixelBlending.PixelBlending(flags.value), flags.next))
  }

  /** A 16-bit flags word and a float. */
  function DecodeAntialiasingStrength(data: seq<u8>, pos: nat, length: u32): (r: Result<Decoded<AntialiasingStrength>>)
    ensures r.Ok? <==> pos + 6 <= |data|
    ensures r.Ok? ==> r.value == Decoded(AntialiasingStrength.AntialiasingStrength(BE16(data, pos), F32(BE32(data, pos + 2))), pos + 6)
  {
    var flags :- ReadU16(data, pos);
    var strength :- ReadF32(data, flags.next);
    Ok(Decoded(AntialiasingStrength.AntialiasingStrength(flags.value, strength.value), strength.next))
  }

  /** A LightWave string. */
  function DecodeUvMap(data: seq<u8>, pos: nat, length: u32): (r: Result<Decoded<UvMap>>)
    ensures r.Ok? <==> LwoString(data, pos).Ok?
    ensures r.Ok? ==> r.value == Decoded(UvMap.UvMap(LwoString(data, pos).value.value), LwoString(data, pos).value.next)
  {
    var name :- LwoString(data, pos);
    Ok(Decoded(UvMap.UvMap(name.value), name.next))
  }

  /** A float, then the VX index of its envelope. */
  function DecodeImageWrapAmount(data: seq<u8>, pos: nat, length: u32): (r: Result<Decoded<ImageWrapAmount>>)
    ensures r.Ok? <==> pos + 4 <= |data| && Vx(data, pos + 4).Ok?
    ensures r.Ok? ==> r.value.value.cycles == F32(BE32(data, pos))
    ensures r.Ok? ==> Vx(data, pos + 4) == Ok(Decoded(r.value.value.envelope, r.value.next))
  {
    var cycles :- ReadF32(data, pos);
    var envelope :- Vx(data, cycles.next);
    Ok(Decoded(ImageWrapAmount(cycles.value, envelope.value), envelope.next))
  }

  /** `repr = u16`: reset, repeat, mirror, edge for 0 to 3. */
  function DecodeImageWrapType(data: seq<u8>, pos: nat): (r: Result<Decoded<ImageWrapType>>)
    ensures r.Ok? <==> pos + 2 <= |data| && BE16(data, pos) <= 3
    ensures r.Ok? ==> r.value == Decoded([Reset, Repeat, Mirror, Edge][BE16(data, pos)], pos + 2)
    ensures r.Err? ==> r.error.offset == pos
  {
    ReadEnum16([Reset, Repeat, Mirror, Edge], 0, data, pos)
  }

  /** The wrap type across the width, then across the height. */
  function DecodeImageWrapOptions(data: seq<u8>, pos: nat, length: u32): (r: Result<Decoded<ImageWrapOptions>>)
    ensures r.Ok? <==> pos + 4 <= |data| && BE16(data, pos) <= 3 && BE16(data, pos + 2) <= 3
    ensures r.Ok? ==> r.value.next == pos + 4
    ensures r.Ok? ==> r.value.value.widthWrap == DecodeImageWrapType(data, pos).value.value
    ensures r.Ok? ==> r.value.value.heightWrap == DecodeImageWrapType(data, pos + 2).value.value
  {
    var width :- DecodeImageWrapType(data, pos);
    var height :- DecodeImageWrapType(data, width.next);
    Ok(Decoded(ImageWrapOptions.ImageWrapOptions(width.value, height.value), height.next))
  }

  /** `repr = u16`: planar, cylindrical, spherical, cubic, front projection, UV for 0 to 5. */
  function DecodeProjectionMode(data: seq<u8>, pos: nat, length: u32): (r: Result<Decoded<ProjectionMode>>)
    ensures r.Ok? <==> pos + 2 <= |data| && BE16(data, pos) <= 5
    ensures r.Ok? ==> r.value == Decoded([Planar, Cylindrical, Spherical, Cubic, FrontProjection, UV][BE16(data, pos)], pos + 2)
    ensures r.Err? ==> r.error.offset == pos
  {
    ReadEnum16([Planar, Cylindrical, Spherical, Cubic, FrontProjection, UV], 0, data, pos)
  }
}
