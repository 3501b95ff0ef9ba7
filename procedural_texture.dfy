/**
 * The sub-chunks of a procedural texture block: the axis, the basic value
 * the procedural modulates towards, and the algorithm with its parameters.
 */
module ProceduralTexture {
  import opened Primitives
  import opened Iff
  import opened MagicDispatch
  import opened Algorithm

  datatype ProceduralTextureSubChunk =
    | Axis(axis: SubChunk<Axis>)
    | BasicValue(basicValue: SubChunk<BasicValue>)
    | AlgorithmAndParameters(algorithm: SubChunk<Algorithm>)

  datatype BasicValue = BasicValue(value: seq<F32>)

  datatype Axis = Axis(axis: u16)

  /** The variants of the list, in declaration order. */
  const ProceduralTextureCatalog: seq<Entry<ProceduralTextureSubChunk>> := [
    SubChunkEntry("AXIS", DecodeAxis, (c: SubChunk<Axis>) => ProceduralTextureSubChunk.Axis(c)),
    SubChunkEntry("VALU", DecodeBasicValue, (c: SubChunk<BasicValue>) => ProceduralTextureSubChunk.BasicValue(c)),
    SubChunkEntry("FUNC", DecodeAlgorithm, (c: SubChunk<Algorithm>) => AlgorithmAndParameters(c))
  ]

  lemma ProceduralTextureCatalogPrefixFree()
    ensures PrefixFree(Magics(ProceduralTextureCatalog))
  {
    UniformDistinct(Magics(ProceduralTextureCatalog), 4);
  }

  /** One element of a procedural block's list: the variant named by the magic at the cursor. */
  function DecodeProceduralTextureSubChunk(data: seq<u8>, pos: nat, arg: ()): (r: Result<Decoded<ProceduralTextureSubChunk>>)
    ensures r.Ok? ==> pos < |data| && pos < r.value.next
  {
    Dispatch(ProceduralTextureCatalog, data, pos)
  }

  /** `count = length / 4` floats: a scalar or a vector, within the declared length. */
  function DecodeBasicValue(data: seq<u8>, pos: nat, length: u32): (r: Result<Decoded<BasicValue>>)
    ensures r.Ok? <==> length < 4 || pos + 4 * (length / 4) <= |data|
    ensures r.Ok? ==> r.value.next == pos + 4 * (length / 4) <= pos + length
    ensures r.Ok? ==> |r.value.value.value| == length / 4
    ensures r.Ok? ==> forall i :: 0 <= i < length / 4 ==> r.value.value.value[i] == F32(BE32(data, pos + 4 * i))
  {
    var values :- ReadF32s(length / 4, data, pos);
    Ok(Decoded(BasicValue.BasicValue(values.value), values.next))
  }

  /** A 16-bit axis number, kept as read. */
  function DecodeAxis(data: seq<u8>, pos: nat, length: u32): (r: Result<Decoded<Axis>>)
    ensures r.Ok? <==> pos + 2 <= |data|
    ensures r.Ok? ==> r.value == Decoded(Axis.Axis(BE16(data, pos)), pos + 2)
  {
    var axis :- ReadU16(data, pos);
    Ok(Decoded(Axis.Axis(axis.value), axis.next))
  }
}
