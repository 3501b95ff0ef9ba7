/**
 * The sub-chunks of a gradient texture block: parameter and item names,
 * the displayed input range, the repeat mode, and the keys of the transfer
 * function with their per-key parameters.
 */
module GradientTexture {
  import opened Primitives
  import opened Iff
  import opened MagicDispatch
  import opened SubTags

  datatype GradientTextureSubChunk =
    | ParameterName(parameterName: SubChunk<Name>)
    | ItemName(itemName: SubChunk<Name>)
    | GradientRangeStart(rangeStart: SubChunk<GradientRange>)
    | GradientRangeEnd(rangeEnd: SubChunk<GradientRange>)
    | RepeatMode(repeatMode: SubChunk<RepeatMode>)
    | KeyValues(keyValues: SubChunk<KeyValues>)
    | KeyParameters(keyParameters: SubChunk<KeyParameters>)

  datatype KeyParameters = KeyParameters(repeatMode: seq<u16>)

  datatype KeyValues = KeyValues(keyValues: seq<KeyValue>)

  /** A key of the transfer function: an input value and an RGBA output. */
  datatype KeyValue = KeyValue(input: F32, output: seq<F32>)

  datatype GradientRange = GradientRange(name: F32)

  datatype RepeatMode = RepeatMode(repeatMode: u16)

  /** The variants of the list, in declaration order. */
  const GradientTextureCatalog: seq<Entry<GradientTextureSubChunk>> := [
    SubChunkEntry("PNAM", DecodeName, (c: SubChunk<Name>) => ParameterName(c)),
    SubChunkEntry("INAM", DecodeName, (c: SubChunk<Name>) => ItemName(c)),
    SubChunkEntry("GRST", DecodeGradientRange, (c: SubChunk<GradientRange>) => GradientRangeStart(c)),
    SubChunkEntry("GREN", DecodeGradientRange, (c: SubChunk<GradientRange>) => GradientRangeEnd(c)),
    SubChunkEntry("GRPT", DecodeRepeatMode, (c: SubChunk<RepeatMode>) => GradientTextureSubChunk.RepeatMode(c)),
    SubChunkEntry("FKEY", DecodeKeyValues, (c: SubChunk<KeyValues>) => GradientTextureSubChunk.KeyValues(c)),
    SubChunkEntry("IKEY", DecodeKeyParameters, (c: SubChunk<KeyParameters>) => GradientTextureSubChunk.KeyParameters(c))
  ]

  lemma GradientTextureCatalogPrefixFree()
    ensures PrefixFree(Magics(GradientTextureCatalog))
  {
    UniformDistinct(Magics(GradientTextureCatalog), 4);
  }

  /** One element of a gradient block's list: the variant named by the magic at the cursor. */
  function DecodeGradientTextureSubChunk(data: seq<u8>, pos: nat, arg: ()): (r: Result<Decoded<GradientTextureSubChunk>>)
    ensures r.Ok? ==> pos < |data| && pos < r.value.next
  {
    Dispatch(GradientTextureCatalog, data, pos)
  }

  /** `count = length / 2` big-endian words. */
  function DecodeKeyParameters(data: seq<u8>, pos: nat, length: u32): (r: Result<Decoded<KeyParameters>>)
    ensures r.Ok? <==> length < 2 || pos + 2 * (length / 2) <= |data|
    ensures r.Ok? ==> r.value.next == pos + 2 * (length / 2) <= pos + length
    ensures r.Ok? ==> |r.value.value.repeatMode| == length / 2
    ensures r.Ok? ==> forall i :: 0 <= i < length / 2 ==> r.value.value.repeatMode[i] == BE16(data, pos + 2 * i)
  {
    var words :- ReadU16s(length / 2, data, pos);
    Ok(Decoded(KeyParameters.KeyParameters(words.value), words.next))
  }

  /** A key: the input float, then four output floats; always 20 bytes. */
  function DecodeKeyValue(data: seq<u8>, pos: nat): (r: Result<Decoded<KeyValue>>)
    ensures r.Ok? <==> pos + 20 <= |data|
    ensures r.Ok? ==> r.value.next == pos + 20
    ensures r.Ok? ==> r.value.value.input == F32(BE32(data, pos))
    ensures r.Ok? ==> (r.value.value.output ==
      [F32(BE32(data, pos + 4)), F32(BE32(data, pos + 8)), F32(BE32(data, pos + 12)), F32(BE32(data, pos + 16))])
  {
    var input :- ReadF32(data, pos);
    var output :- ReadF32s(4, data, input.next);
    Ok(Decoded(KeyValue(input.value, output.value), output.next))
  }

  /** `count = length / 18` keys of 20 bytes each. */
  function DecodeKeyValues(data: seq<u8>, pos: nat, length: u32): (r: Result<Decoded<KeyValues>>)
    ensures r.Ok? ==> |r.value.value.keyValues| == length / 18
  {
    var keys :- Count(length / 18, DecodeKeyValue, data, pos);
    Ok(Decoded(KeyValues.KeyValues(keys.value), keys.next))
  }

  /**
   * The keys are read as 20-byte records although their number is the
   * length divided by 18: the list takes `20 * (length / 18)` bytes and its
   * i-th key is the one at `pos + 20 * i`.
   */
  lemma KeyValuesLayout(data: seq<u8>, pos: nat, length: u32)
    ensures DecodeKeyValues(data, pos, length).Ok? <==> length < 18 || pos + 20 * (length / 18) <= |data|
    ensures DecodeKeyValues(data, pos, length).Ok? ==> DecodeKeyValues(data, pos, length).value.next == pos + 20 * (length / 18)
    ensures DecodeKeyValues(data, pos, length).Ok? ==>
      forall i :: 0 <= i < length / 18 ==>
        DecodeKeyValue(data, pos + 20 * i) == Ok(Decoded(DecodeKeyValues(data, pos, length).value.value.keyValues[i], pos + 20 * i + 20))
  {
    CountFixedWidth(length / 18, DecodeKeyValue, 20, data, pos);
    forall i | 0 <= i < length / 18
      ensures pos + i * 20 == pos + 20 * i
    {
    }
  }

  /**
   * A sub-chunk holding `k` whole keys declares `20 * k` bytes; from nine
   * keys on the list is one key or more longer than that and reaches past
   * the sub-chunk.
   */
  lemma KeyValuesOverread(data: seq<u8>, pos: nat, k: nat)
    requires 9 <= k && 20 * k < 0x1_0000_0000
    requires DecodeKeyValues(data, pos, 20 * k).Ok?
    ensures |DecodeKeyValues(data, pos, 20 * k).value.value.keyValues| > k
    ensures DecodeKeyValues(data, pos, 20 * k).value.next > pos + 20 * k
  {
    KeyValuesLayout(data, pos, 20 * k);
    assert 18 * (k + 1) <= 20 * k;
    assert (20 * k) / 18 >= k + 1;
  }

  /** While fewer than nine keys are declared, exactly the declared keys are read. */
  lemma KeyValuesExact(data: seq<u8>, pos: nat, k: nat)
    requires k < 9
    requires DecodeKeyValues(data, pos, 20 * k).Ok?
    ensures |DecodeKeyValues(data, pos, 20 * k).value.value.keyValues| == k
    ensures DecodeKeyValues(data, pos, 20 * k).value.next == pos + 20 * k
  {
    KeyValuesLayout(data, pos, 20 * k);
    assert 18 * k <= 20 * k < 18 * (k + 1);
  }

  /** One float shown as an end of the range. */
  function DecodeGradientRange(data: seq<u8>, pos: nat, length: u32): (r: Result<Decoded<GradientRange>>)
    ensures r.Ok? <==> pos + 4 <= |data|
    ensures r.Ok? ==> r.value == Decoded(GradientRange(F32(BE32(data, pos))), pos + 4)
  {
    var value :- ReadF32(data, pos);
    Ok(Decoded(GradientRange(value.value), value.next))
  }

  /** A 16-bit word, kept as read. */
  function DecodeRepeatMode(data: seq<u8>, pos: nat, length: u32): (r: Result<Decoded<RepeatMode>>)
    ensures r.Ok? <==> pos + 2 <= |data|
    ensures r.Ok? ==> r.value == Decoded(RepeatMode.RepeatMode(BE16(data, pos)), pos + 2)
  {
    var mode :- ReadU16(data, pos);
    Ok(Decoded(RepeatMode.RepeatMode(mode.value), mode.next))
  }
}
