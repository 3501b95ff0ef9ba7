/** `BBOX`: the lower and upper corners of a layer's bounding box. */
module BoundingBox {
  import opened Primitives

  datatype BoundingBox = BoundingBox(min: seq<F32>, max: seq<F32>)

  /** Three floats, then three more; the declared length is not used. */
  function DecodeBoundingBox(data: seq<u8>, pos: nat, length: u32): (r: Result<Decoded<BoundingBox>>)
    ensures r.Ok? <==> pos + 24 <= |data|
    ensures r.Ok? ==> r.value.next == pos + 24
    ensures r.Ok? ==> |r.value.value.min| == 3 && |r.value.value.max| == 3
    ensures r.Ok? ==> forall i :: 0 <= i < 3 ==>
      r.value.value.min[i] == F32(BE32(data, pos + 4 * i)) && r.value.value.max[i] == F32(BE32(data, pos + 12 + 4 * i))
  {
    var min :- ReadF32s(3, data, pos);
    var max :- ReadF32s(3, data, min.next);
    Ok(Decoded(BoundingBox(min.value, max.value), max.next))
  }
}
