/**
 * The algorithm of a procedural texture or a shader: its name and the
 * opaque parameter bytes after it.  Kept apart from the block module so
 * that the procedural texture module, which the block module reads, can
 * use it.
 */
module Algorithm {
  import opened Primitives
  import opened BinrwHelpers

  datatype Algorithm = Algorithm(algorithmName: seq<u8>, data: seq<u8>)

  /**
   * A LightWave string, then as many bytes as the declared length minus the
   * name's length and one; the subtraction is unsigned and panics when the
   * name is longer than the length allows.  The string's padding byte is
   * not counted, so after a name of even length one byte past the declared
   * length is read.
   */
  function DecodeAlgorithm(data: seq<u8>, pos: nat, length: u32): (r: Result<Decoded<Algorithm>>)
    ensures r.Ok? <==>
      && LwoString(data, pos).Ok?
      && |LwoString(data, pos).value.value| + 1 <= length
      && LwoString(data, pos).value.next + (length - |LwoString(data, pos).value.value| - 1) <= |data|
    ensures r.Ok? ==>
      var name := LwoString(data, pos).value;
      && r.value.value.algorithmName == name.value
      && r.value.next == name.next + length - |name.value| - 1
      && r.value.value.data == data[name.next..r.value.next]
    ensures r.Err? && r.error.kind == ArithmeticPanic ==>
      LwoString(data, pos).Ok? && |LwoString(data, pos).value.value| + 1 > length
  {
    var name :- LwoString(data, pos);
    if |name.value| + 1 > length then Err(Error(ArithmeticPanic, name.next))
    else
      var bytes :- ReadBytes(length - (|name.value| + 1), data, name.next);
      Ok(Decoded(Algorithm(name.value, bytes.value), bytes.next))
  }
}
