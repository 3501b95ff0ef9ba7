/**
 * Envelopes: a VX index followed by a size-bounded list of sub-chunks giving
 * the envelope's type, its behaviour before and after the keys, its keys,
 * the interpolation of the intervals between them, plug-in channel
 * modifiers and a name.
 */
module Envelope {
  import opened Primitives
  import opened Lwo2
  import opened BinrwHelpers
  import opened Iff
  import opened MagicDispatch
  import opened Plugin

  datatype EnvelopeDefinition = EnvelopeDefinition(index: u32, attributes: seq<EnvelopeSubChunk>)

  datatype EnvelopeSubChunk =
    | EnvelopeType(envelopeType: SubChunk<EnvelopeType>)
    | PreBehavior(preBehavior: SubChunk<Behavior>)
    | PostBehavior(postBehavior: SubChunk<Behavior>)
    | KeyframeTimeAndValue(keyframe: SubChunk<KeyframeTimeAndValue>)
    | IntervalInterpolation(interpolation: SubChunk<IntervalInterpolation>)
    | PluginChannelModifiers(modifiers: SubChunk<PluginServerNameAndData>)
    | ChannelName(channelName: SubChunk<PluginChannelName>)

  datatype PluginChannelName = PluginChannelName(channelName: seq<u8>)

  datatype IntervalInterpolation = IntervalInterpolation(kind: IntervalInterpolationType, parameters: seq<F32>)

  datatype IntervalInterpolationType = Step | Line | KochanekBartels | Hermite | Bezier1D | Bezier2D

  datatype KeyframeTimeAndValue = KeyframeTimeAndValue(time: F32, value: F32)

  datatype Behavior = Reset | Constant | Repeat | Oscillate | OffsetRepeat | Linear

  datatype EnvelopeType = EnvelopeType(userFormat: UserFormat, kind: EnvelopeKind)

  datatype UserFormat = Float | Distance | Percent | Angle

  datatype EnvelopeKind =
    | PositionX | PositionY | PositionZ
    | RotHeading | RotPitch | RotBank
    | ScaleX | ScaleY | ScaleZ
    | ColorR | ColorG | ColorB
    | FalloffX | FalloffY | FalloffZ

  /**
   * The variants of the list, in declaration order.  The pre-behaviour and
   * key magics are three bytes long, as written.
   */
  const EnvelopeCatalog: seq<Entry<EnvelopeSubChunk>> := [
    SubChunkEntry("TYPE", DecodeEnvelopeType, (c: SubChunk<EnvelopeType>) => EnvelopeSubChunk.EnvelopeType(c)),
    SubChunkEntry("PRE", DecodeBehavior, (c: SubChunk<Behavior>) => PreBehavior(c)),
    SubChunkEntry("POST", DecodeBehavior, (c: SubChunk<Behavior>) => PostBehavior(c)),
    SubChunkEntry("KEY", DecodeKeyframeTimeAndValue, (c: SubChunk<KeyframeTimeAndValue>) => EnvelopeSubChunk.KeyframeTimeAndValue(c)),
    SubChunkEntry("SPAN", DecodeIntervalInterpolation, (c: SubChunk<IntervalInterpolation>) => EnvelopeSubChunk.IntervalInterpolation(c)),
    SubChunkEntry("CHAN", DecodePluginServerNameAndData, (c: SubChunk<PluginServerNameAndData>) => PluginChannelModifiers(c)),
    SubChunkEntry("NAME", DecodePluginChannelName, (c: SubChunk<PluginChannelName>) => ChannelName(c))
  ]

  /** The three- and four-byte magics differ in their first three bytes, so none is a prefix of another. */
  lemma EnvelopeCatalogPrefixFree()
    ensures PrefixFree(Magics(EnvelopeCatalog))
  {
    var ms := Magics(EnvelopeCatalog);
    assert ms == ["TYPE", "PRE", "POST", "KEY", "SPAN", "CHAN", "NAME"];
    var hs := Heads(ms, 3);
    assert hs[0] == ms[0][..3] == "TYP" && hs[1] == ms[1][..3] == "PRE" && hs[2] == ms[2][..3] == "POS";
    assert hs[3] == ms[3][..3] == "KEY" && hs[4] == ms[4][..3] == "SPA" && hs[5] == ms[5][..3] == "CHA";
    assert hs[6] == ms[6][..3] == "NAM";
    assert hs == ["TYP", "PRE", "POS", "KEY", "SPA", "CHA", "NAM"];
    DistinctHeads(ms, 3);
  }

  /** One element of the list: the variant named by the magic at the cursor. */
  function DecodeEnvelopeSubChunk(data: seq<u8>, pos: nat, arg: ()): (r: Result<Decoded<EnvelopeSubChunk>>)
    ensures r.Ok? ==> pos < |data| && pos < r.value.next
  {
    Dispatch(EnvelopeCatalog, data, pos)
  }

  /**
   * A VX index, then the sub-chunks read while fewer than the declared
   * length minus the index's width have been consumed; the unsigned
   * subtraction panics when the index alone exceeds the length.
   */
  function DecodeEnvelopeDefinition(data: seq<u8>, pos: nat, length: u32): (r: Result<Decoded<EnvelopeDefinition>>)
    ensures r.Ok? <==>
      && Vx(data, pos).Ok? && Vx(data, pos).value.next - pos <= length
      && SizeLimited(DecodeEnvelopeSubChunk, (), length - (Vx(data, pos).value.next - pos), data,
                     Vx(data, pos).value.next, Vx(data, pos).value.next).Ok?
    ensures r.Ok? ==>
      var index := Vx(data, pos).value;
      && r.value.value.index == index.value
      && r.value.value.attributes == SizeLimited(DecodeEnvelopeSubChunk, (), length - (index.next - pos), data, index.next, index.next).value.value
      && pos + length <= r.value.next
    ensures Vx(data, pos).Ok? && Vx(data, pos).value.next - pos > length ==>
      r == Err(Error(ArithmeticPanic, Vx(data, pos).value.next))
  {
    var index :- Vx(data, pos);
    var end := index.next;
    if end - pos > length then Err(Error(ArithmeticPanic, end))
    else
      var attributes :- SizeLimited(DecodeEnvelopeSubChunk, (), length - (end - pos), data, end, end);
      Ok(Decoded(EnvelopeDefinition(index.value, attributes.value), attributes.next))
  }

  /** An aligned NUL-terminated channel name. */
  function DecodePluginChannelName(data: seq<u8>, pos: nat, length: u32): (r: Result<Decoded<PluginChannelName>>)
    ensures r.Ok? <==> NullString(data, pos).Ok?
    ensures r.Ok? ==> r.value.value.channelName == NullString(data, pos).value.value
    ensures r.Ok? ==> r.value.next == AlignedNullString(data, pos).value.next
  {
    var name :- AlignedNullString(data, pos);
    Ok(Decoded(PluginChannelName.PluginChannelName(name.value), name.next))
  }

  /** The interpolation type magics, in declaration order, and the variants they stand for. */
  const InterpolationMagics: seq<Magic> := ["STEP", "LINE", "TCB\0", "HERM", "BEZI", "BEZ2"]
  const InterpolationTypes: seq<IntervalInterpolationType> := [Step, Line, KochanekBartels, Hermite, Bezier1D, Bezier2D]

  lemma InterpolationMagicsPrefixFree()
    ensures PrefixFree(InterpolationMagics)
  {
    UniformDistinct(InterpolationMagics, 4);
  }

  /** The interpolation type is exactly four bytes: one of the six magics. */
  function DecodeIntervalInterpolationType(data: seq<u8>, pos: nat): (r: Result<Decoded<IntervalInterpolationType>>)
    ensures r.Ok? <==> exists i :: 0 <= i < |InterpolationMagics| && MagicAt(InterpolationMagics[i], data, pos)
    ensures forall i :: 0 <= i < |InterpolationMagics| && MagicAt(InterpolationMagics[i], data, pos) ==>
      r == Ok(Decoded(InterpolationTypes[i], pos + 4))
    ensures r.Err? ==> r.error == Error(NoVariantMatch, pos)
  {
    InterpolationRead(data, pos);
    Dispatch(UnitCatalog(InterpolationMagics, InterpolationTypes), data, pos)
  }

  /** The magic at the cursor selects its type; with none there the read fails. */
  lemma InterpolationRead(data: seq<u8>, pos: nat)
    ensures forall i :: 0 <= i < |InterpolationMagics| && MagicAt(InterpolationMagics[i], data, pos) ==>
      Dispatch(UnitCatalog(InterpolationMagics, InterpolationTypes), data, pos) == Ok(Decoded(InterpolationTypes[i], pos + 4))
    ensures Dispatch(UnitCatalog(InterpolationMagics, InterpolationTypes), data, pos).Ok? ==>
      exists i :: 0 <= i < |InterpolationMagics| && MagicAt(InterpolationMagics[i], data, pos)
  {
    var c := UnitCatalog(InterpolationMagics, InterpolationTypes);
    InterpolationMagicsPrefixFree();
    forall i | 0 <= i < |InterpolationMagics| && MagicAt(InterpolationMagics[i], data, pos)
      ensures Dispatch(c, data, pos) == Ok(Decoded(InterpolationTypes[i], pos + 4))
    {
      UnitSelects(InterpolationMagics, InterpolationTypes, data, pos, i);
    }
    if Dispatch(c, data, pos).Ok? {
      if forall i :: 0 <= i < |c| ==> !MagicAt(c[i].magic, data, pos) {
        assert false;
      }
    }
  }

  /**
   * The interpolation type, then `(length - 4) / 4` floats: the whole
   * parameters that fit after the type.  The unsigned subtraction panics on
   * a length below 4, once the type has been read.
   */
  function DecodeIntervalInterpolation(data: seq<u8>, pos: nat, length: u32): (r: Result<Decoded<IntervalInterpolation>>)
    ensures r.Ok? <==>
      && DecodeIntervalInterpolationType(data, pos).Ok? && length >= 4
      && ((length - 4) / 4 == 0 || pos + 4 + 4 * ((length - 4) / 4) <= |data|)
    ensures r.Ok? ==>
      && r.value.value.kind == DecodeIntervalInterpolationType(data, pos).value.value
      && |r.value.value.parameters| == (length - 4) / 4
      && (forall i :: 0 <= i < |r.value.value.parameters| ==> r.value.value.parameters[i] == F32(BE32(data, pos + 4 + 4 * i)))
      && length - 3 <= r.value.next - pos <= length
    ensures DecodeIntervalInterpolationType(data, pos).Ok? && length < 4 ==> r == Err(Error(ArithmeticPanic, pos + 4))
  {
    var kind :- DecodeIntervalInterpolationType(data, pos);
    if length < 4 then Err(Error(ArithmeticPanic, kind.next))
    else
      var parameters :- ReadF32s((length - 4) / 4, data, kind.next);
      Ok(Decoded(IntervalInterpolation.IntervalInterpolation(kind.value, parameters.value), parameters.next))
  }

  /** A time in seconds and a value, eight bytes. */
  function DecodeKeyframeTimeAndValue(data: seq<u8>, pos: nat, length: u32): (r: Result<Decoded<KeyframeTimeAndValue>>)
    ensures r.Ok? <==> pos + 8 <= |data|
    ensures r.Ok? ==> r.value == Decoded(KeyframeTimeAndValue.KeyframeTimeAndValue(F32(BE32(data, pos)), F32(BE32(data, pos + 4))), pos + 8)
  {
    var time :- ReadF32(data, pos);
    var value :- ReadF32(data, time.next);
    Ok(Decoded(KeyframeTimeAndValue.KeyframeTimeAndValue(time.value, value.value), value.next))
  }

  /** `repr = u16`: the six behaviours, 0 to 5. */
  function DecodeBehavior(data: seq<u8>, pos: nat, length: u32): (r: Result<Decoded<Behavior>>)
    ensures r.Ok? <==> pos + 2 <= |data| && BE16(data, pos) <= 5
    ensures r.Ok? ==> r.value == Decoded([Reset, Constant, Repeat, Oscillate, OffsetRepeat, Linear][BE16(data, pos)], pos + 2)
    ensures r.Err? ==> r.error.offset == pos
  {
    ReadEnum16([Reset, Constant, Repeat, Oscillate, OffsetRepeat, Linear], 0, data, pos)
  }

  /** `repr = u8`: the user formats, 2 to 5. */
  function DecodeUserFormat(data: seq<u8>, pos: nat): (r: Result<Decoded<UserFormat>>)
    ensures r.Ok? <==> pos < |data| && 2 <= data[pos] <= 5
    ensures r.Ok? ==> r.value == Decoded([Float, Distance, Percent, Angle][data[pos] - 2], pos + 1)
  {
    ReadEnum8([Float, Distance, Percent, Angle], 2, data, pos)
  }

  const EnvelopeKinds: seq<EnvelopeKind> := [
    PositionX, PositionY, PositionZ, RotHeading, RotPitch, RotBank,
    ScaleX, ScaleY, ScaleZ, ColorR, ColorG, ColorB, FalloffX, FalloffY, FalloffZ
  ]

  /** `repr = u8`: the fifteen envelope kinds, 1 to 15. */
  function DecodeEnvelopeKind(data: seq<u8>, pos: nat): (r: Result<Decoded<EnvelopeKind>>)
    ensures r.Ok? <==> pos < |data| && 1 <= data[pos] <= 15
    ensures r.Ok? ==> r.value == Decoded(EnvelopeKinds[data[pos] - 1], pos + 1)
  {
    ReadEnum8(EnvelopeKinds, 1, data, pos)
  }

  /** The user format byte, then the kind byte. */
  function DecodeEnvelopeType(data: seq<u8>, pos: nat, length: u32): (r: Result<Decoded<EnvelopeType>>)
    ensures r.Ok? <==> pos + 2 <= |data| && 2 <= data[pos] <= 5 && 1 <= data[pos + 1] <= 15
    ensures r.Ok? ==> r.value.next == pos + 2
    ensures r.Ok? ==> r.value.value == EnvelopeType.EnvelopeType(
      [Float, Distance, Percent, Angle][data[pos] - 2], EnvelopeKinds[data[pos + 1] - 1])
  {
    var format :- DecodeUserFormat(data, pos);
    var kind :- DecodeEnvelopeKind(data, format.next);
    Ok(Decoded(EnvelopeType.EnvelopeType(format.value, kind.value), kind.next))
  }

  /**
   * The three-byte pre-behaviour magic meets a four-byte tag: where the
   * tag is `PRE ` the space is taken as the high byte of the sub-chunk
   * length, so a pre-behaviour read from it always declares at least 0x2000
   * bytes.
   */
  lemma PreTagSpaceInLength(data: seq<u8>, pos: nat)
    requires MagicAt("PRE ", data, pos)
    requires DecodeEnvelopeSubChunk(data, pos, ()).Ok?
    ensures DecodeEnvelopeSubChunk(data, pos, ()).value.value.PreBehavior?
    ensures DecodeEnvelopeSubChunk(data, pos, ()).value.value.preBehavior.length >= 0x2000
  {
    var c := EnvelopeCatalog;
    EnvelopeCatalogPrefixFree();
    assert c[1].magic == Magics(c)[1] == "PRE";
    assert forall k :: 0 <= k < 3 ==> "PRE"[k] == "PRE "[k];
    assert MagicAt(c[1].magic, data, pos);
    DispatchSelects(c, data, pos, 1);
    assert data[pos + 3] == "PRE "[3] as int == 0x20;
  }
}
