/**
 * An LWO2 object file: `FORM`, a 32-bit size, `LWO2`, then top-level tags
 * read until the input ends.
 */
module LightWaveFile {
  import opened Primitives
  import opened Iff
  import opened MagicDispatch
  import opened Tags
  import Points = PointList

  /** `fileSize` is kept as read; nothing compares it with the input. */
  datatype LightWaveObject = LightWaveObject(fileSize: u32, data: seq<Tag>)

  /** A reader that, when it succeeds, has consumed at least one byte. */
  ghost predicate Advances<T>(f: (seq<u8>, nat) -> Result<Decoded<T>>)
  {
    forall data: seq<u8>, pos: nat :: f(data, pos).Ok? ==> pos < f(data, pos).value.next
  }

  type Reader<T> = f: (seq<u8>, nat) -> Result<Decoded<T>> | Advances(f)
    witness (data: seq<u8>, pos: nat) => Err(Error(UnexpectedEof, pos))

  /**
   * binrw's `until_eof` over elements that start with a four-byte magic:
   * elements are read until one fails because the input ended.  All the
   * variants of such an element fail at end of input exactly when fewer
   * than four bytes remain; an element that fails any other way, including
   * a chunk cut short, fails the list.
   */
  function ReadUntilEof<T>(f: Reader<T>, data: seq<u8>, pos: nat): (r: Result<Decoded<seq<T>>>)
    ensures r.Ok? ==> pos <= r.value.next && |data| < r.value.next + 4
    decreases Remaining(data, pos)
  {
    if pos + 4 > |data| then Ok(Decoded([], pos))
    else
      var x :- f(data, pos);
      var rest :- ReadUntilEof(f, data, x.next);
      Ok(Decoded([x.value] + rest.value, rest.next))
  }

  /** The top-level tags of the file, read until the input ends. */
  function UntilEof(data: seq<u8>, pos: nat): (r: Result<Decoded<seq<Tag>>>)
    ensures r.Ok? ==> pos <= r.value.next && |data| < r.value.next + 4
  {
    ReadUntilEof(DecodeTag, data, pos)
  }

  /**
   * `ps` are the boundaries of the elements `xs`: element `i` is read from
   * `ps[i]`, where at least four bytes remain, and ends at `ps[i + 1]`.
   */
  ghost predicate EofSteps<T>(f: Reader<T>, data: seq<u8>, ps: seq<nat>, xs: seq<T>)
  {
    && |ps| == |xs| + 1
    && (forall i :: 0 <= i < |xs| ==> ps[i] + 4 <= |data| && f(data, ps[i]) == Ok(Decoded(xs[i], ps[i + 1])))
  }

  /** Elements read one after another up to fewer than four remaining bytes are the list, in file order. */
  lemma {:induction false} UntilEofComplete<T>(f: Reader<T>, data: seq<u8>, ps: seq<nat>, xs: seq<T>)
    requires EofSteps(f, data, ps, xs)
    requires ps[|xs|] + 4 > |data|
    ensures ReadUntilEof(f, data, ps[0]) == Ok(Decoded(xs, ps[|xs|]))
    decreases |xs|
  {
    if |xs| > 0 {
      assert EofSteps(f, data, ps[1..], xs[1..]);
      UntilEofComplete(f, data, ps[1..], xs[1..]);
      assert xs == [xs[0]] + xs[1..];
    }
  }

  /** Every list read is such a chain, from the cursor to where it stopped. */
  lemma {:induction false} UntilEofSound<T>(f: Reader<T>, data: seq<u8>, pos: nat)
    requires ReadUntilEof(f, data, pos).Ok?
    ensures exists ps :: EofSteps(f, data, ps, ReadUntilEof(f, data, pos).value.value) &&
                         ps[0] == pos && ps[|ps| - 1] == ReadUntilEof(f, data, pos).value.next
    decreases Remaining(data, pos)
  {
    var r := ReadUntilEof(f, data, pos);
    if pos + 4 > |data| {
      assert EofSteps(f, data, [pos], r.value.value);
    } else {
      var x := f(data, pos);
      UntilEofSound(f, data, x.value.next);
      var rest := ReadUntilEof(f, data, x.value.next);
      var qs :| EofSteps(f, data, qs, rest.value.value) && qs[0] == x.value.next && qs[|qs| - 1] == rest.value.next;
      assert r.value.value == [x.value.value] + rest.value.value;
      EofStepsCons(f, data, pos, x.value.value, qs, rest.value.value);
    }
  }

  /**
   * A failing list fails with the error of its first failing element, read
   * where four bytes remained after a chain of elements; no partial list is
   * returned.
   */
  lemma {:induction false} UntilEofFailure<T>(f: Reader<T>, data: seq<u8>, pos: nat)
    requires ReadUntilEof(f, data, pos).Err?
    ensures exists ps, xs :: EofSteps(f, data, ps, xs) && ps[0] == pos && ps[|xs|] + 4 <= |data| &&
                             f(data, ps[|xs|]) == Err(ReadUntilEof(f, data, pos).error)
    decreases Remaining(data, pos)
  {
    var x := f(data, pos);
    if x.Err? {
      assert EofSteps(f, data, [pos], []);
    } else {
      UntilEofFailure(f, data, x.value.next);
      var qs, ys :| EofSteps(f, data, qs, ys) && qs[0] == x.value.next && qs[|ys|] + 4 <= |data| &&
                    f(data, qs[|ys|]) == Err(ReadUntilEof(f, data, x.value.next).error);
      EofStepsCons(f, data, pos, x.value.value, qs, ys);
      var ps, xs := [pos] + qs, [x.value.value] + ys;
      assert ps[|xs|] == qs[|ys|];
      assert ReadUntilEof(f, data, pos).error == ReadUntilEof(f, data, x.value.next).error;
      assert EofSteps(f, data, ps, xs) && ps[0] == pos && ps[|xs|] + 4 <= |data| &&
             f(data, ps[|xs|]) == Err(ReadUntilEof(f, data, pos).error);
    }
  }

  /** An element read at `pos` in front of a chain that starts where it ends is a chain. */
  lemma EofStepsCons<T>(f: Reader<T>, data: seq<u8>, pos: nat, x: T, qs: seq<nat>, ys: seq<T>)
    requires pos + 4 <= |data| && EofSteps(f, data, qs, ys)
    requires f(data, pos) == Ok(Decoded(x, qs[0]))
    ensures EofSteps(f, data, [pos] + qs, [x] + ys)
  {
    var ps, xs := [pos] + qs, [x] + ys;
    forall i | 0 <= i < |xs|
      ensures ps[i] + 4 <= |data| && f(data, ps[i]) == Ok(Decoded(xs[i], ps[i + 1]))
    {
      if i > 0 {
        assert ps[i] == qs[i - 1] && ps[i + 1] == qs[i] && xs[i] == ys[i - 1];
      }
    }
  }

  /** The `FORM` magic, the file size, the `LWO2` magic and the tags after them. */
  function DecodeLightWaveObject(data: seq<u8>): (r: Result<Decoded<LightWaveObject>>)
    ensures r.Ok? <==> MagicAt("FORM", data, 0) && MagicAt("LWO2", data, 8) && UntilEof(data, 12).Ok?
    ensures r.Ok? ==> r.value.value == LightWaveObject(BE32(data, 4), UntilEof(data, 12).value.value)
    ensures !MagicAt("FORM", data, 0) ==> r.Err? && r.error.offset == 0
    ensures MagicAt("FORM", data, 0) && |data| >= 12 && !MagicAt("LWO2", data, 8) ==> r.Err? && r.error.offset == 8
  {
    var form :- ReadMagic("FORM", data, 0);
    var size :- ReadU32(data, form);
    var lwo2 :- ReadMagic("LWO2", data, size.next);
    var tags :- UntilEof(data, lwo2);
    Ok(Decoded(LightWaveObject(size.value, tags.value), tags.next))
  }

  /** One to three bytes left after the last tag are not a tag and end the list without error. */
  lemma TrailingBytesIgnored(data: seq<u8>, pos: nat)
    requires pos + 4 > |data|
    ensures UntilEof(data, pos) == Ok(Decoded([], pos))
  {
  }

  /** Four or more bytes that start with no known magic fail the whole file at their offset. */
  lemma UnknownTagFails(data: seq<u8>, pos: nat)
    requires pos + 4 <= |data|
    requires forall i :: 0 <= i < |TagCatalog| ==> !MagicAt(TagCatalog[i].magic, data, pos)
    ensures UntilEof(data, pos) == Err(Error(NoVariantMatch, pos))
  {
  }

  /** A file holding only its header has no tags, whatever its declared size. */
  lemma HeaderOnly(data: seq<u8>)
    requires |data| == 12 && MagicAt("FORM", data, 0) && MagicAt("LWO2", data, 8)
    ensures DecodeLightWaveObject(data) == Ok(Decoded(LightWaveObject(BE32(data, 4), []), 12))
  {
  }

  /**
   * A file with a single point list chunk of one point decodes to one
   * `PNTS` tag holding that point.
   */
  lemma SinglePointFile(data: seq<u8>)
    requires |data| == 32 && MagicAt("FORM", data, 0) && MagicAt("LWO2", data, 8)
    requires MagicAt("PNTS", data, 12) && BE32(data, 16) == 12
    ensures DecodeLightWaveObject(data).Ok?
    ensures DecodeLightWaveObject(data).value.value.data ==
      [PointList(Chunk(12, Points.PointList([[F32(BE32(data, 20)), F32(BE32(data, 24)), F32(BE32(data, 28))]])))]
  {
    Points.PointListLayout(data, 20, 12);
    var points := Points.DecodePointList(data, 20, 12).value;
    assert points.next == 32;
    assert points.value.pointLocation[0] == [F32(BE32(data, 20)), F32(BE32(data, 24)), F32(BE32(data, 28))];
    assert points.value == Points.PointList([[F32(BE32(data, 20)), F32(BE32(data, 24)), F32(BE32(data, 28))]]);
    assert DecodeChunk(Points.DecodePointList, data, 16) == Ok(Decoded(Chunk(12, points.value), 32));
    PointListTag(data, 12);
    assert UntilEof(data, 32) == Ok(Decoded([], 32));
  }
}
