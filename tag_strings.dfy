/**
 * `TAGS`: the tag strings polygons refer to by index, read as NUL-terminated
 * strings while fewer than the chunk's length has been consumed.
 */
module TagStrings {
  import opened Primitives
  import opened BinrwHelpers

  datatype TagStrings = TagStrings(tagStrings: seq<seq<u8>>)

  /** One string: the bytes up to the first zero, which is consumed; no alignment. */
  function DecodeTagString(data: seq<u8>, pos: nat, arg: ()): (r: Result<Decoded<seq<u8>>>)
    ensures r == NullString(data, pos)
    ensures r.Ok? ==> pos < |data| && pos < r.value.next
  {
    NullString(data, pos)
  }

  /** Strings while fewer than the declared length has been read. */
  function DecodeTagStrings(data: seq<u8>, pos: nat, length: u32): (r: Result<Decoded<TagStrings>>)
    ensures r.Ok? <==> SizeLimited(DecodeTagString, (), length, data, pos, pos).Ok?
    ensures r.Ok? ==> r.value.value.tagStrings == SizeLimited(DecodeTagString, (), length, data, pos, pos).value.value
    ensures r.Ok? ==> pos + length <= r.value.next
  {
    var strings :- SizeLimited(DecodeTagString, (), length, data, pos, pos);
    Ok(Decoded(TagStrings(strings.value), strings.next))
  }

  /**
   * The zero written to pad an odd-length string to an even length is read
   * as one more, empty, string: `41 42 00 00` gives "AB" and "".
   */
  lemma PadByteIsEmptyString()
    ensures DecodeTagStrings([0x41, 0x42, 0, 0], 0, 4) == Ok(Decoded(TagStrings([[0x41, 0x42], []]), 4))
  {
    var data: seq<u8> := [0x41, 0x42, 0, 0];
    var nil: seq<u8> := [];
    assert NullString(data, 3) == Ok(Decoded(nil, 4));
    assert NullString(data, 2) == Ok(Decoded(nil, 3));
    var b: seq<u8> := [0x42];
    var ab: seq<u8> := [0x41, 0x42];
    assert b + nil == b;
    assert NullString(data, 1) == Ok(Decoded(b, 3));
    assert [data[0]] + b == ab;
    assert NullString(data, 0) == Ok(Decoded([0x41, 0x42], 3));
    assert SizeLimited(DecodeTagString, (), 4, data, 0, 4) == Ok(Decoded([], 4));
    assert SizeLimited(DecodeTagString, (), 4, data, 0, 3) == Ok(Decoded([nil] + [], 4));
    assert [nil] + [] == [nil];
    assert [[0x41, 0x42]] + [nil] == [[0x41, 0x42], nil];
  }
}
