/**
 * Surface blocks: image map, procedural and gradient textures and shader
 * plug-ins.  Every block starts with a header sub-chunk (its ordinal and a
 * list of channel, enable, opacity, axis and negative sub-chunks); a texture
 * block then holds a list of its own sub-chunks filling the block's
 * declared length, a shader block the `FUNC` sub-chunk naming its algorithm.
 */
module Blocks {
  import opened Primitives
  import opened Lwo2
  import opened BinrwHelpers
  import opened Iff
  import opened MagicDispatch
  import opened SubTags
  import opened Algorithm
  import Image = ImageTexture
  import Procedural = ProceduralTexture
  import Gradient = GradientTexture

  datatype SurfaceBlocks =
    | ImageMapTexture(header: SubChunk<SurfaceBlockHeader>, imageAttributes: seq<Image.SurfaceBlockImageTextureSubChunk>)
    | ProceduralTexture(header: SubChunk<SurfaceBlockHeader>, proceduralAttributes: seq<Procedural.ProceduralTextureSubChunk>)
    | GradientTexture(header: SubChunk<SurfaceBlockHeader>, gradientAttributes: seq<Gradient.GradientTextureSubChunk>)
    | ShaderPlugin(header: SubChunk<SurfaceBlockHeader>, algorithm: SubChunk<Algorithm>)

  datatype SurfaceBlockHeader = SurfaceBlockHeader(blockAttributes: seq<SurfaceBlockHeaderSubChunk>)

  datatype SurfaceBlockHeaderSubChunk =
    | Channel(channel: SubChunk<Channel>)
    | EnabledState(enabledState: SubChunk<EnableState>)
    | Opacity(opacity: SubChunk<Opacity>)
    | DisplacementAxis(displacementAxis: SubChunk<DisplacementAxis>)
    | Negative(negative: SubChunk<EnableState>)

  datatype DisplacementAxis = DisplacementAxis(displacementAxis: u16)

  datatype Opacity = Opacity(kind: OpacityType, opacity: F32, envelope: u32)

  datatype OpacityType = Normal | Subtractive | Difference | Multiply | Divide | Alpha | TextureDisplacement | Additive

  datatype Channel = Channel(textureChannel: TextureChannel)

  datatype TextureChannel =
    | Color | Diffuse | Luminosity | Specular | Glossy | Reflectivity | Transparency | RefractiveIndex | Translucency | Bump

  /** The block kinds, in declaration order; each body receives the block's declared length. */
  function SurfaceBlocksCatalog(length: u32): (c: seq<Entry<SurfaceBlocks>>)
    ensures Magics(c) == ["IMAP", "PROC", "GRAD", "SHDR"]
  {
    [
      Entry("IMAP", (data: seq<u8>, pos: nat) =>
        Wrap(DecodeTextureBlock(Image.DecodeImageTextureSubChunk, length, data, pos),
          (b: (SubChunk<SurfaceBlockHeader>, seq<Image.SurfaceBlockImageTextureSubChunk>)) => ImageMapTexture(b.0, b.1))),
      Entry("PROC", (data: seq<u8>, pos: nat) =>
        Wrap(DecodeTextureBlock(Procedural.DecodeProceduralTextureSubChunk, length, data, pos),
          (b: (SubChunk<SurfaceBlockHeader>, seq<Procedural.ProceduralTextureSubChunk>)) => ProceduralTexture(b.0, b.1))),
      Entry("GRAD", (data: seq<u8>, pos: nat) =>
        Wrap(DecodeTextureBlock(Gradient.DecodeGradientTextureSubChunk, length, data, pos),
          (b: (SubChunk<SurfaceBlockHeader>, seq<Gradient.GradientTextureSubChunk>)) => GradientTexture(b.0, b.1))),
      Entry("SHDR", (data: seq<u8>, pos: nat) => DecodeShaderPlugin(data, pos))
    ]
  }

  lemma SurfaceBlocksCatalogPrefixFree(length: u32)
    ensures PrefixFree(Magics(SurfaceBlocksCatalog(length)))
  {
    UniformDistinct(Magics(SurfaceBlocksCatalog(length)), 4);
  }

  /** The payload of a `BLOK` sub-chunk: the block kind named by the magic at the cursor. */
  function DecodeSurfaceBlocks(data: seq<u8>, pos: nat, length: u32): (r: Result<Decoded<SurfaceBlocks>>)
    ensures r.Ok? ==> pos < |data| && pos < r.value.next
    ensures r.Ok? && !r.value.value.ShaderPlugin? ==> pos + length <= r.value.next
  {
    var c := SurfaceBlocksCatalog(length);
    var r := Dispatch(c, data, pos);
    if r.Ok? && !r.value.value.ShaderPlugin? then
      TextureBlockLength(length, data, pos);
      r
    else r
  }

  /**
   * The body of a texture block: the header sub-chunk, then the block's own
   * sub-chunks while fewer than the declared length minus the header's
   * length, its two length bytes and the four magic bytes have been read.
   * The subtraction is unsigned and panics when the header is longer than
   * the block.
   */
  function DecodeTextureBlock<T>(f: ElementReader<(), T>, length: u32, data: seq<u8>, pos: nat)
    : (r: Result<Decoded<(SubChunk<SurfaceBlockHeader>, seq<T>)>>)
    ensures r.Ok? <==>
      var h := DecodeSubChunk(DecodeSurfaceBlockHeader, data, pos);
      && h.Ok? && h.value.value.length + 6 <= length
      && SizeLimited(f, (), length - h.value.value.length - 6, data, h.value.next, h.value.next).Ok?
    ensures r.Ok? ==>
      var h := DecodeSubChunk(DecodeSurfaceBlockHeader, data, pos).value;
      && r.value.value.0 == h.value
      && r.value.value.1 == SizeLimited(f, (), length - h.value.length - 6, data, h.next, h.next).value.value
    ensures r.Ok? ==> pos + length <= r.value.next + 4
    ensures
      var h := DecodeSubChunk(DecodeSurfaceBlockHeader, data, pos);
      h.Ok? && h.value.value.length + 6 > length ==> r == Err(Error(ArithmeticPanic, h.value.next))
  {
    var header :- DecodeSubChunk(DecodeSurfaceBlockHeader, data, pos);
    if header.value.length + 6 > length then Err(Error(ArithmeticPanic, header.next))
    else
      var attributes :- SizeLimited(f, (), length - header.value.length - 6, data, header.next, header.next);
      Ok(Decoded((header.value, attributes.value), attributes.next))
  }

  /**
   * A texture block read from just after its magic ends no earlier than its
   * declared length, counted from the magic.
   */
  lemma TextureBlockLength(length: u32, data: seq<u8>, pos: nat)
    ensures var r := Dispatch(SurfaceBlocksCatalog(length), data, pos);
      r.Ok? && !r.value.value.ShaderPlugin? ==> pos + length <= r.value.next
  {
    var c := SurfaceBlocksCatalog(length);
    SurfaceBlocksCatalogPrefixFree(length);
    assert forall i :: 0 <= i < |c| ==> c[i].magic == Magics(c)[i];
    if MagicAt("IMAP", data, pos) {
      DispatchSelects(c, data, pos, 0);
    } else if MagicAt("PROC", data, pos) {
      DispatchSelects(c, data, pos, 1);
    } else if MagicAt("GRAD", data, pos) {
      DispatchSelects(c, data, pos, 2);
    } else if MagicAt("SHDR", data, pos) {
      DispatchSelects(c, data, pos, 3);
    }
  }

  /** A shader block: the header sub-chunk, then the algorithm sub-chunk behind its `FUNC` magic. */
  function DecodeShaderPlugin(data: seq<u8>, pos: nat): (r: Result<Decoded<SurfaceBlocks>>)
    ensures r.Ok? <==>
      && DecodeSubChunk(DecodeSurfaceBlockHeader, data, pos).Ok?
      && DecodeFunction(data, DecodeSubChunk(DecodeSurfaceBlockHeader, data, pos).value.next).Ok?
    ensures r.Ok? ==>
      var h := DecodeSubChunk(DecodeSurfaceBlockHeader, data, pos).value;
      var a := DecodeFunction(data, h.next).value;
      r.value == Decoded(ShaderPlugin(h.value, a.value), a.next)
  {
    var header :- DecodeSubChunk(DecodeSurfaceBlockHeader, data, pos);
    var algorithm :- DecodeFunction(data, header.next);
    Ok(Decoded(ShaderPlugin(header.value, algorithm.value), algorithm.next))
  }

  /** The `FUNC` magic, then the algorithm sub-chunk. */
  function DecodeFunction(data: seq<u8>, pos: nat): (r: Result<Decoded<SubChunk<Algorithm>>>)
    ensures r.Ok? <==> MagicAt("FUNC", data, pos) && DecodeSubChunk(DecodeAlgorithm, data, pos + 4).Ok?
    ensures r.Ok? ==> r == DecodeSubChunk(DecodeAlgorithm, data, pos + 4)
    ensures r.Ok? ==> pos + 6 <= r.value.next
  {
    var at :- ReadMagic("FUNC", data, pos);
    DecodeSubChunk(DecodeAlgorithm, data, at)
  }

  /**
   * `pad_before = 2` skips the ordinal string's first two bytes without
   * reading them; the header's sub-chunks are then read while fewer than
   * the declared length minus four bytes have been consumed.  The unsigned
   * subtraction panics on a length below four.
   */
  function DecodeSurfaceBlockHeader(data: seq<u8>, pos: nat, length: u32): (r: Result<Decoded<SurfaceBlockHeader>>)
    ensures r.Ok? <==> 4 <= length && SizeLimited(DecodeSurfaceBlockHeaderSubChunk, (), length - 4, data, pos + 2, pos + 2).Ok?
    ensures r.Ok? ==>
      r.value.value.blockAttributes == SizeLimited(DecodeSurfaceBlockHeaderSubChunk, (), length - 4, data, pos + 2, pos + 2).value.value
    ensures r.Ok? ==> pos + length <= r.value.next + 2
    ensures length < 4 ==> r == Err(Error(ArithmeticPanic, pos))
  {
    if length < 4 then Err(Error(ArithmeticPanic, pos))
    else
      var attributes :- SizeLimited(DecodeSurfaceBlockHeaderSubChunk, (), length - 4, data, pos + 2, pos + 2);
      Ok(Decoded(SurfaceBlockHeader(attributes.value), attributes.next))
  }

  /** The variants of the header list, in declaration order. */
  const SurfaceBlockHeaderCatalog: seq<Entry<SurfaceBlockHeaderSubChunk>> := [
    SubChunkEntry("CHAN", DecodeChannel, (c: SubChunk<Channel>) => SurfaceBlockHeaderSubChunk.Channel(c)),
    SubChunkEntry("ENAB", DecodeEnableState, (c: SubChunk<EnableState>) => EnabledState(c)),
    SubChunkEntry("OPAC", DecodeOpacity, (c: SubChunk<Opacity>) => SurfaceBlockHeaderSubChunk.Opacity(c)),
    SubChunkEntry("AXIS", DecodeDisplacementAxis, (c: SubChunk<DisplacementAxis>) => SurfaceBlockHeaderSubChunk.DisplacementAxis(c)),
    SubChunkEntry("NEGA", DecodeEnableState, (c: SubChunk<EnableState>) => Negative(c))
  ]

  lemma SurfaceBlockHeaderCatalogPrefixFree()
    ensures PrefixFree(Magics(SurfaceBlockHeaderCatalog))
  {
    UniformDistinct(Magics(SurfaceBlockHeaderCatalog), 4);
  }

  /** One element of the header list: the variant named by the magic at the cursor. */
  function DecodeSurfaceBlockHeaderSubChunk(data: seq<u8>, pos: nat, arg: ()): (r: Result<Decoded<SurfaceBlockHeaderSubChunk>>)
    ensures r.Ok? ==> pos < |data| && pos < r.value.next
  {
    Dispatch(SurfaceBlockHeaderCatalog, data, pos)
  }

  /** A 16-bit axis number, kept as read. */
  function DecodeDisplacementAxis(data: seq<u8>, pos: nat, length: u32): (r: Result<Decoded<DisplacementAxis>>)
    ensures r.Ok? <==> pos + 2 <= |data|
    ensures r.Ok? ==> r.value == Decoded(DisplacementAxis.DisplacementAxis(BE16(data, pos)), pos + 2)
  {
    var axis :- ReadU16(data, pos);
    Ok(Decoded(DisplacementAxis.DisplacementAxis(axis.value), axis.next))
  }

  /** `repr = u16`: the eight opacity types, 0 to 7. */
  function DecodeOpacityType(data: seq<u8>, pos: nat): (r: Result<Decoded<OpacityType>>)
    ensures r.Ok? <==> pos + 2 <= |data| && BE16(data, pos) <= 7
    ensures r.Ok? ==> r.value == Decoded(
      [Normal, Subtractive, Difference, Multiply, Divide, Alpha, TextureDisplacement, Additive][BE16(data, pos)], pos + 2)
    ensures r.Err? ==> r.error.offset == pos
  {
    ReadEnum16([Normal, Subtractive, Difference, Multiply, Divide, Alpha, TextureDisplacement, Additive], 0, data, pos)
  }

  /** The opacity type, the opacity and the VX index of its envelope. */
  function DecodeOpacity(data: seq<u8>, pos: nat, length: u32): (r: Result<Decoded<Opacity>>)
    ensures r.Ok? <==> pos + 6 <= |data| && BE16(data, pos) <= 7 && Vx(data, pos + 6).Ok?
    ensures r.Ok? ==> r.value.value.kind == DecodeOpacityType(data, pos).value.value
    ensures r.Ok? ==> r.value.value.opacity == F32(BE32(data, pos + 2))
    ensures r.Ok? ==> Vx(data, pos + 6) == Ok(Decoded(r.value.value.envelope, r.value.next))
  {
    var kind :- DecodeOpacityType(data, pos);
    var opacity :- ReadF32(data, kind.next);
    var envelope :- Vx(data, opacity.next);
    Ok(Decoded(Opacity.Opacity(kind.value, opacity.value, envelope.value), envelope.next))
  }

  /** The channel magics, in declaration order, and the channels they stand for. */
  const ChannelMagics: seq<Magic> := ["COLR", "DIFF", "LUMI", "SPEC", "GLOS", "REFL", "TRAN", "RIND", "TRNL", "BUMP"]
  const Channels: seq<TextureChannel> :=
    [Color, Diffuse, Luminosity, Specular, Glossy, Reflectivity, Transparency, RefractiveIndex, Translucency, Bump]

  lemma ChannelMagicsPrefixFree()
    ensures PrefixFree(ChannelMagics)
  {
    UniformDistinct(ChannelMagics, 4);
  }

  /** The channel a block applies to: one of ten magics, four bytes. */
  function DecodeChannel(data: seq<u8>, pos: nat, length: u32): (r: Result<Decoded<Channel>>)
    ensures r.Ok? <==> exists i :: 0 <= i < |ChannelMagics| && MagicAt(ChannelMagics[i], data, pos)
    ensures forall i :: 0 <= i < |ChannelMagics| && MagicAt(ChannelMagics[i], data, pos) ==>
      r == Ok(Decoded(Channel.Channel(Channels[i]), pos + 4))
    ensures r.Err? ==> r.error == Error(NoVariantMatch, pos)
  {
    ChannelRead(data, pos);
    Wrap(Dispatch(UnitCatalog(ChannelMagics, Channels), data, pos), (t: TextureChannel) => Channel.Channel(t))
  }

  /** The magic at the cursor selects its channel; with none there the read fails. */
  lemma ChannelRead(data: seq<u8>, pos: nat)
    ensures forall i :: 0 <= i < |ChannelMagics| && MagicAt(ChannelMagics[i], data, pos) ==>
      Dispatch(UnitCatalog(ChannelMagics, Channels), data, pos) == Ok(Decoded(Channels[i], pos + 4))
    ensures Dispatch(UnitCatalog(ChannelMagics, Channels), data, pos).Ok? ==>
      exists i :: 0 <= i < |ChannelMagics| && MagicAt(ChannelMagics[i], data, pos)
  {
    var c := UnitCatalog(ChannelMagics, Channels);
    ChannelMagicsPrefixFree();
    forall i | 0 <= i < |ChannelMagics| && MagicAt(ChannelMagics[i], data, pos)
      ensures Dispatch(c, data, pos) == Ok(Decoded(Channels[i], pos + 4))
    {
      UnitSelects(ChannelMagics, Channels, data, pos, i);
    }
    if Dispatch(c, data, pos).Ok? {
      if forall i :: 0 <= i < |c| ==> !MagicAt(c[i].magic, data, pos) {
        assert false;
      }
    }
  }
}
