/**
 * `CLIP`: an image or a sequence of images, identified by an index and
 * described by a size-bounded list of source and filter sub-chunks.
 */
module ImageClip {
  import opened Primitives
  import opened BinrwHelpers
  import opened Iff
  import opened MagicDispatch
  import opened SubTags
  import opened Plugin

  datatype ImageClip = ImageClip(index: u32, attributes: seq<ImageClipSubChunk>)

  datatype ImageClipSubChunk =
    | StillImage(stillImage: SubChunk<StillImage>)
    | ImageSequence(imageSequence: SubChunk<ImageSequence>)
    | PluginAnimation(pluginAnimation: SubChunk<PluginAnimation>)
    | Reference(reference: SubChunk<Reference>)
    | Flag(flag: SubChunk<Flags>)
    | ColorCyclingStill(colorCyclingStill: SubChunk<ColorCyclingStill>)
    | Time(time: SubChunk<Time>)
    | ColorSpaceRgb(colorSpaceRgb: SubChunk<ColorSpace>)
    | ColorSpaceAlpha(colorSpaceAlpha: SubChunk<ColorSpace>)
    | ImageFiltering(imageFiltering: SubChunk<Flags>)
    | ImageDithering(imageDithering: SubChunk<Flags>)
    | Contrast(contrast: SubChunk<ValueEnvelope>)
    | Brightness(brightness: SubChunk<ValueEnvelope>)
    | Saturation(saturation: SubChunk<ValueEnvelope>)
    | Hue(hue: SubChunk<ValueEnvelope>)
    | GammaCorrection(gammaCorrection: SubChunk<ValueEnvelope>)
    | Negative(negative: SubChunk<EnableState>)
    | PluginImageFilters(pluginImageFilters: SubChunk<PluginServerNameAndData>)
    | PluginPixelFilters(pluginPixelFilters: SubChunk<PluginServerNameAndData>)

  /** `data` repeats as many bytes as the names and flags took, read after them. */
  datatype PluginAnimation = PluginAnimation(fileName: seq<u8>, serverName: seq<u8>, flags: u16, data: seq<u8>)

  datatype ColorSpace = ColorSpace(flags: u16, colorSpace: u16, fileName: seq<u8>)

  datatype ColorCyclingStill = ColorCyclingStill(lo: i16, hi: i16, name: seq<u8>)

  datatype Time = Time(startTime: F32, duration: F32, frameRate: F32)

  datatype Flags = Flags(flag: u32)

  datatype StillImage = StillImage(name: seq<u8>)

  datatype ImageSequence = ImageSequence(
    numDigits: u8, flags: u8, offset: i16, reserved: u16, start: i16, end: i16, prefix: seq<u8>, suffix: seq<u8>)

  datatype Reference = Reference(index: u32, string: seq<u8>)

  /** The sources of a clip and its first modifiers. */
  const SourceCatalog: seq<Entry<ImageClipSubChunk>> := [
    SubChunkEntry("STIL", DecodeStillImage, (c: SubChunk<StillImage>) => ImageClipSubChunk.StillImage(c)),
    SubChunkEntry("ISEQ", DecodeImageSequence, (c: SubChunk<ImageSequence>) => ImageClipSubChunk.ImageSequence(c)),
    SubChunkEntry("ANIM", DecodePluginAnimation, (c: SubChunk<PluginAnimation>) => ImageClipSubChunk.PluginAnimation(c)),
    SubChunkEntry("XREF", DecodeReference, (c: SubChunk<Reference>) => ImageClipSubChunk.Reference(c)),
    SubChunkEntry("FLAG", DecodeFlags, (c: SubChunk<Flags>) => Flag(c)),
    SubChunkEntry("STCC", DecodeColorCyclingStill, (c: SubChunk<ColorCyclingStill>) => ImageClipSubChunk.ColorCyclingStill(c)),
    SubChunkEntry("TIME", DecodeTime, (c: SubChunk<Time>) => ImageClipSubChunk.Time(c)),
    SubChunkEntry("CLRS", DecodeColorSpace, (c: SubChunk<ColorSpace>) => ColorSpaceRgb(c)),
    SubChunkEntry("CLRA", DecodeColorSpace, (c: SubChunk<ColorSpace>) => ColorSpaceAlpha(c))
  ]

  /** The image processing filters. */
  const FilterCatalog: seq<Entry<ImageClipSubChunk>> := [
    SubChunkEntry("FILT", DecodeFlags, (c: SubChunk<Flags>) => ImageFiltering(c)),
    SubChunkEntry("DITH", DecodeFlags, (c: SubChunk<Flags>) => ImageDithering(c)),
    SubChunkEntry("CONT", DecodeValueEnvelope, (c: SubChunk<ValueEnvelope>) => Contrast(c)),
    SubChunkEntry("BRIT", DecodeValueEnvelope, (c: SubChunk<ValueEnvelope>) => Brightness(c)),
    SubChunkEntry("SATR", DecodeValueEnvelope, (c: SubChunk<ValueEnvelope>) => Saturation(c)),
    SubChunkEntry("HUE\0", DecodeValueEnvelope, (c: SubChunk<ValueEnvelope>) => Hue(c)),
    SubChunkEntry("GAMM", DecodeValueEnvelope, (c: SubChunk<ValueEnvelope>) => GammaCorrection(c)),
    SubChunkEntry("NEGA", DecodeEnableState, (c: SubChunk<EnableState>) => Negative(c)),
    SubChunkEntry("IFLT", DecodePluginServerNameAndData, (c: SubChunk<PluginServerNameAndData>) => PluginImageFilters(c)),
    SubChunkEntry("PFLT", DecodePluginServerNameAndData, (c: SubChunk<PluginServerNameAndData>) => PluginPixelFilters(c))
  ]

  /** The variants of a clip's list, in declaration order: nineteen four-byte magics. */
  const ImageClipCatalog: seq<Entry<ImageClipSubChunk>> := SourceCatalog + FilterCatalog

  lemma ImageClipCatalogPrefixFree()
    ensures |ImageClipCatalog| == 19
    ensures PrefixFree(Magics(ImageClipCatalog))
  {
    UniformDistinct(Magics(ImageClipCatalog), 4);
  }

  /** One element of a clip's list: the variant named by the magic at the cursor. */
  function DecodeImageClipSubChunk(data: seq<u8>, pos: nat, arg: ()): (r: Result<Decoded<ImageClipSubChunk>>)
    ensures r.Ok? ==> pos < |data| && pos < r.value.next
  {
    Dispatch(ImageClipCatalog, data, pos)
  }

  /**
   * The clip index, then the sub-chunks read while fewer than `length - 4`
   * bytes have been consumed after it; the unsigned subtraction panics on a
   * length below 4.
   */
  function DecodeImageClip(data: seq<u8>, pos: nat, length: u32): (r: Result<Decoded<ImageClip>>)
    ensures r.Ok? <==>
      pos + 4 <= |data| && length >= 4 && SizeLimited(DecodeImageClipSubChunk, (), length - 4, data, pos + 4, pos + 4).Ok?
    ensures r.Ok? ==>
      && r.value.value.index == BE32(data, pos)
      && r.value.value.attributes == SizeLimited(DecodeImageClipSubChunk, (), length - 4, data, pos + 4, pos + 4).value.value
      && pos + length <= r.value.next
    ensures pos + 4 <= |data| && length < 4 ==> r == Err(Error(ArithmeticPanic, pos + 4))
  {
    var index :- ReadU32(data, pos);
    if length < 4 then Err(Error(ArithmeticPanic, index.next))
    else
      var attributes :- SizeLimited(DecodeImageClipSubChunk, (), length - 4, data, index.next, index.next);
      Ok(Decoded(ImageClip.ImageClip(index.value, attributes.value), attributes.next))
  }

  /**
   * An aligned file name, an aligned server name and a flags word; then as
   * many bytes as those three took, counted from the start of the payload.
   */
  function DecodePluginAnimation(data: seq<u8>, pos: nat, length: u32): (r: Result<Decoded<PluginAnimation>>)
    ensures r.Ok? ==>
      AlignedNullString(data, pos).Ok? && AlignedNullString(data, AlignedNullString(data, pos).value.next).Ok?
    ensures r.Ok? ==>
      var file := AlignedNullString(data, pos).value;
      var server := AlignedNullString(data, file.next).value;
      && r.value.value.fileName == file.value
      && r.value.value.serverName == server.value
      && server.next + 2 <= |data|
      && r.value.value.flags == BE16(data, server.next)
      && r.value.next - pos == 2 * (server.next + 2 - pos) && r.value.next <= |data|
      && r.value.value.data == data[server.next + 2..r.value.next]
    ensures r.Ok? <==>
      && AlignedNullString(data, pos).Ok?
      && AlignedNullString(data, AlignedNullString(data, pos).value.next).Ok?
      && 2 * AlignedNullString(data, AlignedNullString(data, pos).value.next).value.next + 4 - pos <= |data|
  {
    var file :- AlignedNullString(data, pos);
    var server :- AlignedNullString(data, file.next);
    var flags :- ReadU16(data, server.next);
    var bytes :- ReadBytes(flags.next - pos, data, flags.next);
    Ok(Decoded(PluginAnimation.PluginAnimation(file.value, server.value, flags.value, bytes.value), bytes.next))
  }

  /** Two words and an aligned NUL-terminated file name. */
  function DecodeColorSpace(data: seq<u8>, pos: nat, length: u32): (r: Result<Decoded<ColorSpace>>)
    ensures r.Ok? <==> pos + 4 <= |data| && NullString(data, pos + 4).Ok?
    ensures r.Ok? ==>
      && r.value.value == ColorSpace.ColorSpace(BE16(data, pos), BE16(data, pos + 2), NullString(data, pos + 4).value.value)
      && r.value.next == AlignedNullString(data, pos + 4).value.next
  {
    var flags :- ReadU16(data, pos);
    var space :- ReadU16(data, flags.next);
    var name :- AlignedNullString(data, space.next);
    Ok(Decoded(ColorSpace.ColorSpace(flags.value, space.value, name.value), name.next))
  }

  /** Two signed colour-table indices and an aligned NUL-terminated name. */
  function DecodeColorCyclingStill(data: seq<u8>, pos: nat, length: u32): (r: Result<Decoded<ColorCyclingStill>>)
    ensures r.Ok? <==> pos + 4 <= |data| && NullString(data, pos + 4).Ok?
    ensures r.Ok? ==>
      && r.value.value == ColorCyclingStill.ColorCyclingStill(
           AsI16(BE16(data, pos)), AsI16(BE16(data, pos + 2)), NullString(data, pos + 4).value.value)
      && r.value.next == AlignedNullString(data, pos + 4).value.next
  {
    var lo :- ReadI16(data, pos);
    var hi :- ReadI16(data, lo.next);
    var name :- AlignedNullString(data, hi.next);
    Ok(Decoded(ColorCyclingStill.ColorCyclingStill(lo.value, hi.value, name.value), name.next))
  }

  /** Start time, duration and frame rate: three floats. */
  function DecodeTime(data: seq<u8>, pos: nat, length: u32): (r: Result<Decoded<Time>>)
    ensures r.Ok? <==> pos + 12 <= |data|
    ensures r.Ok? ==> r.value == Decoded(Time.Time(F32(BE32(data, pos)), F32(BE32(data, pos + 4)), F32(BE32(data, pos + 8))), pos + 12)
  {
    var start :- ReadF32(data, pos);
    var duration :- ReadF32(data, start.next);
    var rate :- ReadF32(data, duration.next);
    Ok(Decoded(Time.Time(start.value, duration.value, rate.value), rate.next))
  }

  /** One 32-bit flags word. */
  function DecodeFlags(data: seq<u8>, pos: nat, length: u32): (r: Result<Decoded<Flags>>)
    ensures r.Ok? <==> pos + 4 <= |data|
    ensures r.Ok? ==> r.value == Decoded(Flags.Flags(BE32(data, pos)), pos + 4)
  {
    var flag :- ReadU32(data, pos);
    Ok(Decoded(Flags.Flags(flag.value), flag.next))
  }

  /** An aligned NUL-terminated file name. */
  function DecodeStillImage(data: seq<u8>, pos: nat, length: u32): (r: Result<Decoded<StillImage>>)
    ensures r.Ok? <==> NullString(data, pos).Ok?
    ensures r.Ok? ==> r.value.value.name == NullString(data, pos).value.value
    ensures r.Ok? ==> r.value.next == AlignedNullString(data, pos).value.next
  {
    var name :- AlignedNullString(data, pos);
    Ok(Decoded(StillImage.StillImage(name.value), name.next))
  }

  /** Ten bytes of numbering parameters, then an aligned prefix and an aligned suffix. */
  function DecodeImageSequence(data: seq<u8>, pos: nat, length: u32): (r: Result<Decoded<ImageSequence>>)
    ensures r.Ok? <==>
      && pos + 10 <= |data| && NullString(data, pos + 10).Ok?
      && NullString(data, AlignedNullString(data, pos + 10).value.next).Ok?
    ensures r.Ok? ==>
      var prefix := AlignedNullString(data, pos + 10).value;
      && r.value.value == ImageSequence.ImageSequence(
           data[pos], data[pos + 1], AsI16(BE16(data, pos + 2)), BE16(data, pos + 4),
           AsI16(BE16(data, pos + 6)), AsI16(BE16(data, pos + 8)),
           prefix.value, NullString(data, prefix.next).value.value)
      && r.value.next == AlignedNullString(data, prefix.next).value.next
  {
    var digits :- ReadU8(data, pos);
    var flags :- ReadU8(data, digits.next);
    var offset :- ReadI16(data, flags.next);
    var reserved :- ReadU16(data, offset.next);
    var start :- ReadI16(data, reserved.next);
    var end :- ReadI16(data, start.next);
    var prefix :- AlignedNullString(data, end.next);
    var suffix :- AlignedNullString(data, prefix.next);
    Ok(Decoded(ImageSequence.ImageSequence(digits.value, flags.value, offset.value, reserved.value, start.value, end.value,
                                           prefix.value, suffix.value), suffix.next))
  }

  /** The index of the referenced clip and an aligned NUL-terminated instance name. */
  function DecodeReference(data: seq<u8>, pos: nat, length: u32): (r: Result<Decoded<Reference>>)
    ensures r.Ok? <==> pos + 4 <= |data| && NullString(data, pos + 4).Ok?
    ensures r.Ok? ==>
      && r.value.value == Reference.Reference(BE32(data, pos), NullString(data, pos + 4).value.value)
      && r.value.next == AlignedNullString(data, pos + 4).value.next
  {
    var index :- ReadU32(data, pos);
    var name :- AlignedNullString(data, index.next);
    Ok(Decoded(Reference.Reference(index.value, name.value), name.next))
  }
}
