/**
 * `LAYR`: the start of a layer: its number, flags, pivot point, name and,
 * optionally, the number of its parent layer.
 */
module Layer {
  import opened Primitives

  /** `status` is the absolute position after the name; it records where the optional parent starts. */
  datatype Layer = Layer(number: u16, flags: u16, pivot: seq<F32>, name: seq<u8>, status: nat, parent: Option<u16>)

  /**
   * Two words, three floats and an aligned NUL-terminated name; the parent
   * is read only when the absolute position after the name is below the
   * declared length.
   */
  function DecodeLayer(data: seq<u8>, pos: nat, length: u32): (r: Result<Decoded<Layer>>)
    ensures r.Ok? ==>
      && pos + 16 <= |data| && NullString(data, pos + 16).Ok?
      && r.value.value.number == BE16(data, pos) && r.value.value.flags == BE16(data, pos + 2)
      && r.value.value.pivot == [F32(BE32(data, pos + 4)), F32(BE32(data, pos + 8)), F32(BE32(data, pos + 12))]
      && r.value.value.name == NullString(data, pos + 16).value.value
      && r.value.value.status == AlignedNullString(data, pos + 16).value.next
    ensures r.Ok? && r.value.value.status < length ==>
      && r.value.value.status + 2 <= |data|
      && r.value == Decoded(r.value.value, r.value.value.status + 2)
      && r.value.value.parent == Some(BE16(data, r.value.value.status))
    ensures r.Ok? && r.value.value.status >= length ==>
      r.value == Decoded(r.value.value, r.value.value.status) && r.value.value.parent == None
    ensures r.Ok? <==>
      && pos + 16 <= |data| && NullString(data, pos + 16).Ok?
      && (AlignedNullString(data, pos + 16).value.next < length ==> AlignedNullString(data, pos + 16).value.next + 2 <= |data|)
  {
    var number :- ReadU16(data, pos);
    var flags :- ReadU16(data, number.next);
    var pivot :- ReadF32s(3, data, flags.next);
    var name :- AlignedNullString(data, pivot.next);
    var status := name.next;
    var parent :- if status < length then Wrap(ReadU16(data, status), (p: u16) => Some(p)) else Ok(Decoded(None, status));
    var v := pivot.value;
    assert v[0] == F32(BE32(data, flags.next + 4 * 0)) && v[1] == F32(BE32(data, flags.next + 4 * 1)) && v[2] == F32(BE32(data, flags.next + 4 * 2));
    assert v == [F32(BE32(data, pos + 4)), F32(BE32(data, pos + 8)), F32(BE32(data, pos + 12))];
    Ok(Decoded(Layer(number.value, flags.value, pivot.value, name.value, status, parent.value), parent.next))
  }

  /**
   * The test compares an absolute position with a chunk length: a layer
   * chunk whose payload starts at or beyond its own length never has a
   * parent, whatever bytes follow its name.
   */
  lemma ParentNeedsLowOffset(data: seq<u8>, pos: nat, length: u32)
    requires pos >= length
    requires DecodeLayer(data, pos, length).Ok?
    ensures DecodeLayer(data, pos, length).value.value.parent == None
  {
  }
}
