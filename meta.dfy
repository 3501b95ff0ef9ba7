/**
 * `DESC`/`TEXT` and `ICON`: a line of description or commentary, and a
 * thumbnail image of uncompressed RGB triples.
 */
module Meta {
  import opened Primitives

  datatype DescriptionLine = DescriptionLine(descriptionLine: seq<u8>)

  /** An aligned NUL-terminated line. */
  function DecodeDescriptionLine(data: seq<u8>, pos: nat, length: u32): (r: Result<Decoded<DescriptionLine>>)
    ensures r.Ok? <==> NullString(data, pos).Ok?
    ensures r.Ok? ==> r.value.value.descriptionLine == NullString(data, pos).value.value
    ensures r.Ok? ==> r.value.next == AlignEven(NullString(data, pos).value.next)
  {
    var line :- AlignedNullString(data, pos);
    Ok(Decoded(DescriptionLine(line.value), line.next))
  }

  datatype ThumbnailImageEncoding = UncompressedRgb

  /** `height` is computed from the length and the width, not read. */
  datatype ThumbnailIconImage = ThumbnailIconImage(encoding: ThumbnailImageEncoding, width: u16, height: u16, data: seq<u8>)

  /**
   * The encoding (only 0 is known), the width, then `length - 4` image bytes.
   * The height is `(length as u16 - 4) / width`: the length truncated to 16
   * bits, an unsigned subtraction that panics below 4, and a division that
   * panics on a zero width.
   */
  function DecodeThumbnailIconImage(data: seq<u8>, pos: nat, length: u32): (r: Result<Decoded<ThumbnailIconImage>>)
    ensures r.Ok? <==>
      && pos + 4 <= |data| && BE16(data, pos) == 0
      && length % 0x1_0000 >= 4 && BE16(data, pos + 2) != 0
      && pos + length <= |data|
    ensures r.Ok? ==>
      && r.value.value.width == BE16(data, pos + 2)
      && r.value.value.height == IconHeight(length, BE16(data, pos + 2))
      && r.value.value.data == data[pos + 4..pos + length]
      && r.value.next == pos + length
    ensures pos + 4 <= |data| && BE16(data, pos) == 0 && (length % 0x1_0000 < 4 || BE16(data, pos + 2) == 0) ==>
      r == Err(Error(ArithmeticPanic, pos + 4))
  {
    var encoding :- ReadEnum16([UncompressedRgb], 0, data, pos);
    var width :- ReadU16(data, encoding.next);
    var truncated := length % 0x1_0000;
    if truncated < 4 || width.value == 0 then Err(Error(ArithmeticPanic, width.next))
    else
      var height := IconHeight(length, width.value);
      var bytes :- ReadBytes(length - 4, data, width.next);
      Ok(Decoded(ThumbnailIconImage(encoding.value, width.value, height, bytes.value), bytes.next))
  }

  /**
   * `(length as u16 - 4) / width`, for a truncated length of at least 4 and
   * a non-zero width: the number of whole rows of `width` that fit in it.
   */
  function IconHeight(length: u32, width: u16): (h: u16)
    requires length % 0x1_0000 >= 4 && width != 0
    ensures h * width <= length % 0x1_0000 - 4 < (h + 1) * width
  {
    var t := length % 0x1_0000 - 4;
    var h := t / width;
    assert h * width + t % width == t;
    h
  }

  /**
   * The height follows the truncated length: a length of 65540 with a width
   * of 1 gives a height of 0 while 65536 image bytes are read.
   */
  lemma HeightTruncates(data: seq<u8>, pos: nat)
    requires pos + 65540 <= |data| && BE16(data, pos) == 0 && BE16(data, pos + 2) == 1
    ensures DecodeThumbnailIconImage(data, pos, 65540).Ok?
    ensures DecodeThumbnailIconImage(data, pos, 65540).value.value.height == 0
    ensures |DecodeThumbnailIconImage(data, pos, 65540).value.value.data| == 65536
  {
  }
}
