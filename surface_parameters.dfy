/**
 * The sub-chunks of a surface definition: base colour and shading values,
 * sidedness and smoothing, reflection and refraction options and images,
 * glow, outlines, alpha, vertex colours and the surface's blocks.
 */
module SurfaceParameters {
  import opened Primitives
  import opened Lwo2
  import opened BinrwHelpers
  import opened Iff
  import opened MagicDispatch
  import opened SubTags
  import Blocks

  datatype SurfaceParameterSubChunk =
    | BaseColor(baseColor: SubChunk<VectorEnvelope>)
    | BaseShadingValueDiffuse(diffuse: SubChunk<ValueEnvelope>)
    | BaseShadingValueLuminosity(luminosity: SubChunk<ValueEnvelope>)
    | BaseShadingValueSpecular(specular: SubChunk<ValueEnvelope>)
    | BaseShadingValueReflectivity(reflectivity: SubChunk<ValueEnvelope>)
    | BaseShadingValueTransparency(transparency: SubChunk<ValueEnvelope>)
    | BaseShadingValueTranslucency(translucency: SubChunk<ValueEnvelope>)
    | SpecularGlossiness(glossiness: SubChunk<ValueEnvelope>)
    | DiffuseSharpness(sharpness: SubChunk<ValueEnvelope>)
    | BumpIntensity(bumpIntensity: SubChunk<ValueEnvelope>)
    | PolygonSidedness(sidedness: SubChunk<PolygonSidedness>)
    | MaxSmoothingAngle(maxSmoothingAngle: SubChunk<MaxSmoothingAngle>)
    | ReflectionOptions(reflectionOptions: SubChunk<ReflectionOptions>)
    | ReflectionMapImage(reflectionMapImage: SubChunk<VxReference>)
    | ReflectionMapSeamAngle(seamAngle: SubChunk<VectorEnvelope>)
    | ReflectionBlurring(reflectionBlurring: SubChunk<ValueEnvelope>)
    | RefractiveIndex(refractiveIndex: SubChunk<ValueEnvelope>)
    | TransparencyOptions(transparencyOptions: SubChunk<ReflectionOptions>)
    | RefractionMapImage(refractionMapImage: SubChunk<VxReference>)
    | RefractionBlurring(refractionBlurring: SubChunk<ValueEnvelope>)
    | ColorHighlights(colorHighlights: SubChunk<ValueEnvelope>)
    | ColorFilter(colorFilter: SubChunk<ValueEnvelope>)
    | AdditiveTransparency(additiveTransparency: SubChunk<ValueEnvelope>)
    | GlowEffect(glowEffect: SubChunk<GlowEffect>)
    | RenderOutlines(renderOutlines: SubChunk<RenderOutlines>)
    | AlphaMode(alphaMode: SubChunk<AlphaMode>)
    | VertexColorMap(vertexColorMap: SubChunk<VertexColorMap>)
    | Blocks(blocks: SubChunk<Blocks.SurfaceBlocks>)

  /** The RGB or RGBA vertex map colouring the surface: intensity, its envelope, the map's type and name. */
  datatype VertexColorMap = VertexColorMap(intensity: F32, envelope: u32, vmapType: seq<u8>, name: seq<u8>)

  datatype AlphaMode = AlphaMode(mode: AlphaModeMode, value: F32)

  datatype AlphaModeMode = UnaffectedBySurface | ConstantValue | SurfaceOpacity | ShadowDensity

  /**
   * The outline effect.  Fields the declared length leaves out hold their
   * defaults: zero floats and a zero envelope index.
   */
  datatype RenderOutlines = RenderOutlines(flags: u16, size: F32, sizeEnvelope: u32, color: seq<F32>, colorEnvelope: u32)

  /** The glow effect; the size and its envelope are zero unless the declared length covers them. */
  datatype GlowEffect = GlowEffect(kind: GlowType, intensity: F32, intensityEnvelope: u32, size: F32, sizeEnvelope: u32)

  datatype GlowType = HastingsGlow | ImageConvolution

  datatype ReflectionOptions = BackdropOnly | RaytracingAndBackdrop | SphericalMap | RaytracingAndSphericalMap

  datatype PolygonSidedness = PolygonSidedness(sidedness: u16)

  datatype MaxSmoothingAngle = MaxSmoothingAngle(maxSmoothingAngle: F32)

  /** The variants of the list, in declaration order: twenty-eight four-byte magics. */
  const SurfaceParameterCatalog: seq<Entry<SurfaceParameterSubChunk>> := ShadingCatalog + OpticsCatalog + EffectsCatalog

  /** Base colour and shading values. */
  const ShadingCatalog: seq<Entry<SurfaceParameterSubChunk>> := [
    SubChunkEntry("COLR", DecodeVectorEnvelope, (c: SubChunk<VectorEnvelope>) => BaseColor(c)),
    SubChunkEntry("DIFF", DecodeValueEnvelope, (c: SubChunk<ValueEnvelope>) => BaseShadingValueDiffuse(c)),
    SubChunkEntry("LUMI", DecodeValueEnvelope, (c: SubChunk<ValueEnvelope>) => BaseShadingValueLuminosity(c)),
    SubChunkEntry("SPEC", DecodeValueEnvelope, (c: SubChunk<ValueEnvelope>) => BaseShadingValueSpecular(c)),
    SubChunkEntry("REFL", DecodeValueEnvelope, (c: SubChunk<ValueEnvelope>) => BaseShadingValueReflectivity(c)),
    SubChunkEntry("TRAN", DecodeValueEnvelope, (c: SubChunk<ValueEnvelope>) => BaseShadingValueTransparency(c)),
    SubChunkEntry("TRNL", DecodeValueEnvelope, (c: SubChunk<ValueEnvelope>) => BaseShadingValueTranslucency(c)),
    SubChunkEntry("GLOS", DecodeValueEnvelope, (c: SubChunk<ValueEnvelope>) => SpecularGlossiness(c)),
    SubChunkEntry("SHRP", DecodeValueEnvelope, (c: SubChunk<ValueEnvelope>) => DiffuseSharpness(c)),
    SubChunkEntry("BUMP", DecodeValueEnvelope, (c: SubChunk<ValueEnvelope>) => BumpIntensity(c))
  ]

  /** Sidedness, smoothing, reflection and refraction. */
  const OpticsCatalog: seq<Entry<SurfaceParameterSubChunk>> := [
    SubChunkEntry("SIDE", DecodePolygonSidedness, (c: SubChunk<PolygonSidedness>) => SurfaceParameterSubChunk.PolygonSidedness(c)),
    SubChunkEntry("SMAN", DecodeMaxSmoothingAngle, (c: SubChunk<MaxSmoothingAngle>) => SurfaceParameterSubChunk.MaxSmoothingAngle(c)),
    SubChunkEntry("RFOP", DecodeReflectionOptions, (c: SubChunk<ReflectionOptions>) => SurfaceParameterSubChunk.ReflectionOptions(c)),
    SubChunkEntry("RIMG", DecodeVxReference, (c: SubChunk<VxReference>) => ReflectionMapImage(c)),
    SubChunkEntry("RSAN", DecodeVectorEnvelope, (c: SubChunk<VectorEnvelope>) => ReflectionMapSeamAngle(c)),
    SubChunkEntry("RBLR", DecodeValueEnvelope, (c: SubChunk<ValueEnvelope>) => ReflectionBlurring(c)),
    SubChunkEntry("RIND", DecodeValueEnvelope, (c: SubChunk<ValueEnvelope>) => RefractiveIndex(c)),
    SubChunkEntry("TROP", DecodeReflectionOptions, (c: SubChunk<ReflectionOptions>) => TransparencyOptions(c)),
    SubChunkEntry("TIMG", DecodeVxReference, (c: SubChunk<VxReference>) => RefractionMapImage(c)),
    SubChunkEntry("TBLR", DecodeValueEnvelope, (c: SubChunk<ValueEnvelope>) => RefractionBlurring(c))
  ]

  /** Highlights, filters, glow, outlines, alpha, vertex colours and blocks. */
  const EffectsCatalog: seq<Entry<SurfaceParameterSubChunk>> := [
    SubChunkEntry("CLRH", DecodeValueEnvelope, (c: SubChunk<ValueEnvelope>) => ColorHighlights(c)),
    SubChunkEntry("CLRF", DecodeValueEnvelope, (c: SubChunk<ValueEnvelope>) => ColorFilter(c)),
    SubChunkEntry("ADTR", DecodeValueEnvelope, (c: SubChunk<ValueEnvelope>) => AdditiveTransparency(c)),
    SubChunkEntry("GLOW", DecodeGlowEffect, (c: SubChunk<GlowEffect>) => SurfaceParameterSubChunk.GlowEffect(c)),
    SubChunkEntry("LINE", DecodeRenderOutlines, (c: SubChunk<RenderOutlines>) => SurfaceParameterSubChunk.RenderOutlines(c)),
    SubChunkEntry("ALPH", DecodeAlphaMode, (c: SubChunk<AlphaMode>) => SurfaceParameterSubChunk.AlphaMode(c)),
    SubChunkEntry("VCOL", DecodeVertexColorMap, (c: SubChunk<VertexColorMap>) => SurfaceParameterSubChunk.VertexColorMap(c)),
    SubChunkEntry("BLOK", Blocks.DecodeSurfaceBlocks, (c: SubChunk<Blocks.SurfaceBlocks>) => SurfaceParameterSubChunk.Blocks(c))
  ]

  lemma SurfaceParameterCatalogPrefixFree()
    ensures |SurfaceParameterCatalog| == 28
    ensures PrefixFree(Magics(SurfaceParameterCatalog))
  {
    UniformDistinct(Magics(SurfaceParameterCatalog), 4);
  }

  /** One element of a surface's list: the variant named by the magic at the cursor. */
  function DecodeSurfaceParameterSubChunk(data: seq<u8>, pos: nat, arg: ()): (r: Result<Decoded<SurfaceParameterSubChunk>>)
    ensures r.Ok? ==> pos < |data| && pos < r.value.next
  {
    Dispatch(SurfaceParameterCatalog, data, pos)
  }

  /** A float, the VX index of its envelope, four type bytes and a LightWave string. */
  function DecodeVertexColorMap(data: seq<u8>, pos: nat, length: u32): (r: Result<Decoded<VertexColorMap>>)
    ensures r.Ok? <==>
      && pos + 4 <= |data| && Vx(data, pos + 4).Ok? && Vx(data, pos + 4).value.next + 4 <= |data|
      && LwoString(data, Vx(data, pos + 4).value.next + 4).Ok?
    ensures r.Ok? ==>
      var envelope := Vx(data, pos + 4).value;
      var name := LwoString(data, envelope.next + 4).value;
      && r.value.value.intensity == F32(BE32(data, pos))
      && r.value.value.envelope == envelope.value
      && r.value.value.vmapType == data[envelope.next..envelope.next + 4]
      && r.value == Decoded(r.value.value, name.next) && r.value.value.name == name.value
  {
    var intensity :- ReadF32(data, pos);
    var envelope :- Vx(data, intensity.next);
    var vmapType :- ReadBytes(4, data, envelope.next);
    var name :- LwoString(data, vmapType.next);
    Ok(Decoded(VertexColorMap.VertexColorMap(intensity.value, envelope.value, vmapType.value, name.value), name.next))
  }

  /** `repr = u16`: the four alpha modes, 0 to 3. */
  function DecodeAlphaModeMode(data: seq<u8>, pos: nat): (r: Result<Decoded<AlphaModeMode>>)
    ensures r.Ok? <==> pos + 2 <= |data| && BE16(data, pos) <= 3
    ensures r.Ok? ==> r.value == Decoded([UnaffectedBySurface, ConstantValue, SurfaceOpacity, ShadowDensity][BE16(data, pos)], pos + 2)
    ensures r.Err? ==> r.error.offset == pos
  {
    ReadEnum16([UnaffectedBySurface, ConstantValue, SurfaceOpacity, ShadowDensity], 0, data, pos)
  }

  /** The mode, then the constant alpha value. */
  function DecodeAlphaMode(data: seq<u8>, pos: nat, length: u32): (r: Result<Decoded<AlphaMode>>)
    ensures r.Ok? <==> pos + 6 <= |data| && BE16(data, pos) <= 3
    ensures r.Ok? ==> r.value == Decoded(AlphaMode.AlphaMode(DecodeAlphaModeMode(data, pos).value.value, F32(BE32(data, pos + 2))), pos + 6)
  {
    var mode :- DecodeAlphaModeMode(data, pos);
    var value :- ReadF32(data, mode.next);
    Ok(Decoded(AlphaMode.AlphaMode(mode.value, value.value), value.next))
  }

  /**
   * The flags; the size and its envelope only when the declared length is
   * above 2; the colour and its envelope only when it is above 8.
   */
  function DecodeRenderOutlines(data: seq<u8>, pos: nat, length: u32): (r: Result<Decoded<RenderOutlines>>)
    ensures r.Ok? ==> pos + 2 <= |data| && r.value.value.flags == BE16(data, pos)
    ensures r.Ok? && length <= 2 ==> r.value == Decoded(RenderOutlines.RenderOutlines(BE16(data, pos), Zero32, 0, [Zero32, Zero32, Zero32], 0), pos + 2)
    ensures length <= 2 ==> (r.Ok? <==> pos + 2 <= |data|)
    ensures 2 < length <= 8 ==> (r.Ok? <==> pos + 6 <= |data| && Vx(data, pos + 6).Ok?)
    ensures length > 8 ==> (r.Ok? <==>
      && pos + 6 <= |data| && Vx(data, pos + 6).Ok?
      && Vx(data, pos + 6).value.next + 12 <= |data| && Vx(data, Vx(data, pos + 6).value.next + 12).Ok?)
    ensures r.Ok? && length > 2 ==>
      && pos + 6 <= |data| && Vx(data, pos + 6).Ok?
      && r.value.value.size == F32(BE32(data, pos + 2)) && r.value.value.sizeEnvelope == Vx(data, pos + 6).value.value
    ensures r.Ok? && 2 < length <= 8 ==>
      && r.value.value.color == [Zero32, Zero32, Zero32] && r.value.value.colorEnvelope == 0
      && r.value.next == Vx(data, pos + 6).value.next
    ensures r.Ok? && length > 8 ==>
      var at := Vx(data, pos + 6).value.next;
      && at + 12 <= |data| && Vx(data, at + 12).Ok?
      && r.value.value.color == [F32(BE32(data, at)), F32(BE32(data, at + 4)), F32(BE32(data, at + 8))]
      && Vx(data, at + 12) == Ok(Decoded(r.value.value.colorEnvelope, r.value.next))
  {
    var flags :- ReadU16(data, pos);
    var size :- if length > 2 then ReadF32(data, flags.next) else Ok(Decoded(Zero32, flags.next));
    var sizeEnvelope :- if length > 2 then Vx(data, size.next) else Ok(Decoded(0, size.next));
    var color :- if length > 8 then ReadF32s(3, data, sizeEnvelope.next) else Ok(Decoded([Zero32, Zero32, Zero32], sizeEnvelope.next));
    var colorEnvelope :- if length > 8 then Vx(data, color.next) else Ok(Decoded(0, color.next));
    Ok(Decoded(RenderOutlines.RenderOutlines(flags.value, size.value, sizeEnvelope.value, color.value, colorEnvelope.value), colorEnvelope.next))
  }

  /** `repr = u16`: 0 Hastings glow, 1 image convolution. */
  function DecodeGlowType(data: seq<u8>, pos: nat): (r: Result<Decoded<GlowType>>)
    ensures r.Ok? <==> pos + 2 <= |data| && BE16(data, pos) <= 1
    ensures r.Ok? ==> r.value == Decoded([HastingsGlow, ImageConvolution][BE16(data, pos)], pos + 2)
    ensures r.Err? ==> r.error.offset == pos
  {
    ReadEnum16([HastingsGlow, ImageConvolution], 0, data, pos)
  }

  /** The glow type, the intensity and its envelope, and the size and its envelope only when the declared length is above 6. */
  function DecodeGlowEffect(data: seq<u8>, pos: nat, length: u32): (r: Result<Decoded<GlowEffect>>)
    ensures r.Ok? ==>
      && pos + 6 <= |data| && BE16(data, pos) <= 1 && Vx(data, pos + 6).Ok?
      && r.value.value.kind == DecodeGlowType(data, pos).value.value
      && r.value.value.intensity == F32(BE32(data, pos + 2))
      && r.value.value.intensityEnvelope == Vx(data, pos + 6).value.value
    ensures length <= 6 ==> (r.Ok? <==> pos + 6 <= |data| && BE16(data, pos) <= 1 && Vx(data, pos + 6).Ok?)
    ensures length > 6 ==> (r.Ok? <==>
      && pos + 6 <= |data| && BE16(data, pos) <= 1 && Vx(data, pos + 6).Ok?
      && Vx(data, pos + 6).value.next + 4 <= |data| && Vx(data, Vx(data, pos + 6).value.next + 4).Ok?)
    ensures r.Ok? && length <= 6 ==>
      r.value.value.size == Zero32 && r.value.value.sizeEnvelope == 0 && r.value.next == Vx(data, pos + 6).value.next
    ensures r.Ok? && length > 6 ==>
      var at := Vx(data, pos + 6).value.next;
      && at + 4 <= |data| && r.value.value.size == F32(BE32(data, at))
      && Vx(data, at + 4) == Ok(Decoded(r.value.value.sizeEnvelope, r.value.next))
  {
    var kind :- DecodeGlowType(data, pos);
    var intensity :- ReadF32(data, kind.next);
    var intensityEnvelope :- Vx(data, intensity.next);
    var size :- if length > 6 then ReadF32(data, intensityEnvelope.next) else Ok(Decoded(Zero32, intensityEnvelope.next));
    var sizeEnvelope :- if length > 6 then Vx(data, size.next) else Ok(Decoded(0, size.next));
    Ok(Decoded(GlowEffect.GlowEffect(kind.value, intensity.value, intensityEnvelope.value, size.value, sizeEnvelope.value), sizeEnvelope.next))
  }

  /** `repr = u16`: backdrop only, ray tracing and backdrop, spherical map, ray tracing and spherical map for 0 to 3. */
  function DecodeReflectionOptions(data: seq<u8>, pos: nat, length: u32): (r: Result<Decoded<ReflectionOptions>>)
    ensures r.Ok? <==> pos + 2 <= |data| && BE16(data, pos) <= 3
    ensures r.Ok? ==> r.value == Decoded([BackdropOnly, RaytracingAndBackdrop, SphericalMap, RaytracingAndSphericalMap][BE16(data, pos)], pos + 2)
    ensures r.Err? ==> r.error.offset == pos
  {
    ReadEnum16([BackdropOnly, RaytracingAndBackdrop, SphericalMap, RaytracingAndSphericalMap], 0, data, pos)
  }

  /** A 16-bit word, kept as read. */
  function DecodePolygonSidedness(data: seq<u8>, pos: nat, length: u32): (r: Result<Decoded<PolygonSidedness>>)
    ensures r.Ok? <==> pos + 2 <= |data|
    ensures r.Ok? ==> r.value == Decoded(PolygonSidedness.PolygonSidedness(BE16(data, pos)), pos + 2)
  {
    var sidedness :- ReadU16(data, pos);
    Ok(Decoded(PolygonSidedness.PolygonSidedness(sidedness.value), sidedness.next))
  }

  /** One float. */
  function DecodeMaxSmoothingAngle(data: seq<u8>, pos: nat, length: u32): (r: Result<Decoded<MaxSmoothingAngle>>)
    ensures r.Ok? <==> pos + 4 <= |data|
    ensures r.Ok? ==> r.value == Decoded(MaxSmoothingAngle.MaxSmoothingAngle(F32(BE32(data, pos))), pos + 4)
  {
    var angle :- ReadF32(data, pos);
    Ok(Decoded(MaxSmoothingAngle.MaxSmoothingAngle(angle.value), angle.next))
  }
}
