/**
 * The small payloads shared by many sub-chunks: a colour or vector with an
 * envelope, a name, a value with an envelope, a reference to another
 * element and an on/off state.  Each receives the declared length of its
 * sub-chunk and ignores it.
 */
module SubTags {
  import opened Primitives
  import opened Lwo2
  import opened BinrwHelpers

  datatype VectorEnvelope = VectorEnvelope(baseColor: seq<F32>, envelope: u32)

  /** Three floats, then the VX index of their envelope. */
  function DecodeVectorEnvelope(data: seq<u8>, pos: nat, length: u32): (r: Result<Decoded<VectorEnvelope>>)
    ensures r.Ok? <==> pos + 12 <= |data| && Vx(data, pos + 12).Ok?
    ensures r.Ok? ==> r.value.value.baseColor == [F32(BE32(data, pos)), F32(BE32(data, pos + 4)), F32(BE32(data, pos + 8))]
    ensures r.Ok? ==> Vx(data, pos + 12) == Ok(Decoded(r.value.value.envelope, r.value.next))
    ensures r.Ok? ==> pos + 14 <= r.value.next <= pos + 16
  {
    var color :- ReadF32s(3, data, pos);
    var envelope :- Vx(data, color.next);
    Ok(Decoded(VectorEnvelope(color.value, envelope.value), envelope.next))
  }

  datatype Name = Name(name: seq<u8>)

  /** A LightWave string. */
  function DecodeName(data: seq<u8>, pos: nat, length: u32): (r: Result<Decoded<Name>>)
    ensures r.Ok? <==> LwoString(data, pos).Ok?
    ensures r.Ok? ==> r.value == Decoded(Name(LwoString(data, pos).value.value), LwoString(data, pos).value.next)
    ensures r.Ok? ==> ValidUtf8(r.value.value.name) && r.value.next % 2 == 0
  {
    var name :- LwoString(data, pos);
    Ok(Decoded(Name(name.value), name.next))
  }

  datatype ValueEnvelope = ValueEnvelope(value: F32, envelope: u32)

  /** One float, then the VX index of its envelope. */
  function DecodeValueEnvelope(data: seq<u8>, pos: nat, length: u32): (r: Result<Decoded<ValueEnvelope>>)
    ensures r.Ok? <==> pos + 4 <= |data| && Vx(data, pos + 4).Ok?
    ensures r.Ok? ==> r.value.value.value == F32(BE32(data, pos))
    ensures r.Ok? ==> Vx(data, pos + 4) == Ok(Decoded(r.value.value.envelope, r.value.next))
    ensures r.Ok? ==> pos + 6 <= r.value.next <= pos + 8
  {
    var value :- ReadF32(data, pos);
    var envelope :- Vx(data, value.next);
    Ok(Decoded(ValueEnvelope(value.value, envelope.value), envelope.next))
  }

  datatype VxReference = VxReference(textureImage: u32)

  /** A VX index naming another element. */
  function DecodeVxReference(data: seq<u8>, pos: nat, length: u32): (r: Result<Decoded<VxReference>>)
    ensures r.Ok? <==> Vx(data, pos).Ok?
    ensures r.Ok? ==> Vx(data, pos) == Ok(Decoded(r.value.value.textureImage, r.value.next))
  {
    var index :- Vx(data, pos);
    Ok(Decoded(VxReference(index.value), index.next))
  }

  datatype EnableState = EnableState(enable: u16)

  /** A 16-bit switch. */
  function DecodeEnableState(data: seq<u8>, pos: nat, length: u32): (r: Result<Decoded<EnableState>>)
    ensures r.Ok? <==> pos + 2 <= |data|
    ensures r.Ok? ==> r.value == Decoded(EnableState(BE16(data, pos)), pos + 2)
  {
    var enable :- ReadU16(data, pos);
    Ok(Decoded(EnableState(enable.value), enable.next))
  }
}
