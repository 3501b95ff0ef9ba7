/**
 * The three reading helpers the LWO2 records use beyond plain binrw
 * attributes: the size-bounded list (`until_size_limit`,
 * `until_size_limit_with`), the fixed-count list of VX indices
 * (`count_with_vx`) and the LightWave string (`lwo_null_string`).
 *
 * Each helper is a loop in the source and a method here, proved equal to a
 * recursive specification function; the lemmas state what the
 * specification functions mean.
 */
module BinrwHelpers {
  import opened Primitives
  import opened Lwo2

  // ---------------------------------------------------------------------------
  // until_size_limit / until_size_limit_with
  // ---------------------------------------------------------------------------

  /**
   * An element reader that succeeds only on at least one byte of input and
   * then moves the cursor forward; every record decoder used in a
   * size-bounded list is one, which is what makes the list finite.
   */
  ghost predicate Advances<A(!new), T>(f: (seq<u8>, nat, A) -> Result<Decoded<T>>)
  {
    forall data: seq<u8>, pos: nat, arg: A ::
      f(data, pos, arg).Ok? ==> pos < |data| && pos < f(data, pos, arg).value.next
  }

  type ElementReader<!A(!new), T> = f: (seq<u8>, nat, A) -> Result<Decoded<T>> | Advances(f)
    witness (data: seq<u8>, pos: nat, arg: A) => Err(Error(UnexpectedEof, pos))

  /**
   * The elements read from `pos` on, each with the same argument, for as
   * long as fewer than `limit` bytes lie between `start` and the cursor.
   */
  function SizeLimited<A(!new), T>(f: ElementReader<A, T>, arg: A, limit: nat, data: seq<u8>, start: nat, pos: nat)
    : (r: Result<Decoded<seq<T>>>)
    requires start <= pos
    ensures r.Ok? ==> pos <= r.value.next && start + limit <= r.value.next
    decreases Remaining(data, pos)
  {
    if pos - start >= limit then Ok(Decoded([], pos))
    else
      var x :- f(data, pos, arg);
      var rest :- SizeLimited(f, arg, limit, data, start, x.next);
      Ok(Decoded([x.value] + rest.value, rest.next))
  }

  /** `until_size_limit_with(limit, reader_fn)`: the loop of the source, proved equal to `SizeLimited`. */
  method UntilSizeLimitWith<A(!new), T>(limit: nat, f: ElementReader<A, T>, arg: A, data: seq<u8>, pos: nat)
    returns (r: Result<Decoded<seq<T>>>)
    ensures r == SizeLimited(f, arg, limit, data, pos, pos)
  {
    var items: seq<T> := [];
    var now := pos;
    PrependNil(SizeLimited(f, arg, limit, data, pos, pos));
    while now - pos < limit
      invariant pos <= now
      invariant SizeLimited(f, arg, limit, data, pos, pos) == Prepend(items, SizeLimited(f, arg, limit, data, pos, now))
      decreases Remaining(data, now)
    {
      var x := f(data, now, arg);
      if x.Err? {
        return Err(x.error);
      }
      PrependAppend(items, x.value.value, SizeLimited(f, arg, limit, data, pos, x.value.next));
      items := items + [x.value.value];
      now := x.value.next;
    }
    assert items + [] == items;
    r := Ok(Decoded(items, now));
  }

  /**
   * `ps` are the boundaries of the elements `xs`: element `i` is read from
   * `ps[i]`, where fewer than `limit` bytes have been consumed since
   * `start`, and ends at `ps[i + 1]`.
   */
  ghost predicate Steps<A(!new), T>(f: ElementReader<A, T>, arg: A, limit: nat, data: seq<u8>, start: nat,
                              ps: seq<nat>, xs: seq<T>)
  {
    && |ps| == |xs| + 1
    && (forall i :: 0 <= i < |ps| ==> start <= ps[i])
    && (forall i :: 0 <= i < |xs| ==> ps[i] - start < limit && f(data, ps[i], arg) == Ok(Decoded(xs[i], ps[i + 1])))
  }

  /** Any chain of element reads that ends at or past the limit is what the list reads. */
  lemma {:induction false} SizeLimitedComplete<A(!new), T>(f: ElementReader<A, T>, arg: A, limit: nat, data: seq<u8>,
                                                     start: nat, ps: seq<nat>, xs: seq<T>)
    requires Steps(f, arg, limit, data, start, ps, xs)
    requires ps[|xs|] - start >= limit
    ensures SizeLimited(f, arg, limit, data, start, ps[0]) == Ok(Decoded(xs, ps[|xs|]))
    decreases |xs|
  {
    if |xs| > 0 {
      assert Steps(f, arg, limit, data, start, ps[1..], xs[1..]);
      SizeLimitedComplete(f, arg, limit, data, start, ps[1..], xs[1..]);
      assert xs == [xs[0]] + xs[1..];
    }
  }

  /** Every list the reader returns is such a chain: its elements, back to back, each begun below the limit. */
  lemma {:induction false} SizeLimitedSound<A(!new), T>(f: ElementReader<A, T>, arg: A, limit: nat, data: seq<u8>,
                                                  start: nat, pos: nat)
    requires start <= pos
    requires SizeLimited(f, arg, limit, data, start, pos).Ok?
    ensures exists ps :: Steps(f, arg, limit, data, start, ps, SizeLimited(f, arg, limit, data, start, pos).value.value) &&
                         ps[0] == pos && ps[|ps| - 1] == SizeLimited(f, arg, limit, data, start, pos).value.next
    decreases Remaining(data, pos)
  {
    var r := SizeLimited(f, arg, limit, data, start, pos);
    if pos - start >= limit {
      assert Steps(f, arg, limit, data, start, [pos], r.value.value);
    } else {
      var x := f(data, pos, arg);
      SizeLimitedSound(f, arg, limit, data, start, x.value.next);
      var rest := SizeLimited(f, arg, limit, data, start, x.value.next);
      var qs :| Steps(f, arg, limit, data, start, qs, rest.value.value) &&
                qs[0] == x.value.next && qs[|qs| - 1] == rest.value.next;
      var ps := [pos] + qs;
      assert r.value.value == [x.value.value] + rest.value.value;
      assert Steps(f, arg, limit, data, start, ps, r.value.value);
    }
  }

  /**
   * A failing list fails with the error of its first failing element, read
   * below the limit after a chain of successful reads; no partial list is
   * returned.
   */
  lemma {:induction false} SizeLimitedFailure<A(!new), T>(f: ElementReader<A, T>, arg: A, limit: nat, data: seq<u8>,
                                                    start: nat, pos: nat)
    requires start <= pos
    requires SizeLimited(f, arg, limit, data, start, pos).Err?
    ensures exists ps, xs :: Steps(f, arg, limit, data, start, ps, xs) && ps[0] == pos &&
                             ps[|xs|] - start < limit &&
                             f(data, ps[|xs|], arg) == Err(SizeLimited(f, arg, limit, data, start, pos).error)
    decreases Remaining(data, pos)
  {
    var r := SizeLimited(f, arg, limit, data, start, pos);
    var x := f(data, pos, arg);
    if x.Err? {
      assert Steps(f, arg, limit, data, start, [pos], []);
    } else {
      SizeLimitedFailure(f, arg, limit, data, start, x.value.next);
      var qs, ys :| Steps(f, arg, limit, data, start, qs, ys) && qs[0] == x.value.next &&
                    qs[|ys|] - start < limit &&
                    f(data, qs[|ys|], arg) == Err(SizeLimited(f, arg, limit, data, start, x.value.next).error);
      var ps, xs := [pos] + qs, [x.value.value] + ys;
      assert Steps(f, arg, limit, data, start, ps, xs);
    }
  }

  /** A limit already reached reads nothing and does not move the cursor, even past the end of the input. */
  lemma LimitReached<A(!new), T>(f: ElementReader<A, T>, arg: A, limit: nat, data: seq<u8>, start: nat, pos: nat)
    requires start <= pos && pos - start >= limit
    ensures SizeLimited(f, arg, limit, data, start, pos) == Ok(Decoded([], pos))
  {
  }

  /** Each element of a size-bounded list is what the element reader read at some position, with the list's argument. */
  lemma {:induction false} SizeLimitedMember<A(!new), T>(f: ElementReader<A, T>, arg: A, limit: nat, data: seq<u8>, start: nat, pos: nat, i: nat)
    requires start <= pos
    requires SizeLimited(f, arg, limit, data, start, pos).Ok?
    requires i < |SizeLimited(f, arg, limit, data, start, pos).value.value|
    ensures exists p: nat :: f(data, p, arg).Ok? && f(data, p, arg).value.value == SizeLimited(f, arg, limit, data, start, pos).value.value[i]
    decreases Remaining(data, pos)
  {
    var x := f(data, pos, arg).value;
    if i == 0 {
      assert f(data, pos, arg).value.value == SizeLimited(f, arg, limit, data, start, pos).value.value[0];
    } else {
      SizeLimitedMember(f, arg, limit, data, start, x.next, i - 1);
    }
  }

  /** The reader of a 4-byte element: a big-endian word. */
  function Word(data: seq<u8>, pos: nat, arg: ()): (r: Result<Decoded<u32>>)
    ensures r.Ok? <==> pos + 4 <= |data|
    ensures r.Ok? ==> r.value == Decoded(BE32(data, pos), pos + 4)
  {
    ReadU32(data, pos)
  }

  /**
   * The limit is checked before each element, not after: with 4-byte
   * elements and a limit of 10 the list holds three elements and ends
   * 12 bytes on.
   */
  lemma {:induction false} LimitOvershoot(data: seq<u8>, pos: nat)
    requires pos + 12 <= |data|
    ensures SizeLimited(Word, (), 10, data, pos, pos) ==
            Ok(Decoded([BE32(data, pos), BE32(data, pos + 4), BE32(data, pos + 8)], pos + 12))
  {
    assert [BE32(data, pos)] + [BE32(data, pos + 4), BE32(data, pos + 8)] ==
           [BE32(data, pos), BE32(data, pos + 4), BE32(data, pos + 8)];
    assert Word(data, pos, ()) == Ok(Decoded(BE32(data, pos), pos + 4));
    assert SizeLimited(Word, (), 10, data, pos, pos + 12) == Ok(Decoded([], pos + 12));
    assert [BE32(data, pos + 8)] + [] == [BE32(data, pos + 8)];
    assert Word(data, pos + 8, ()) == Ok(Decoded(BE32(data, pos + 8), pos + 12));
    assert SizeLimited(Word, (), 10, data, pos, pos + 8) == Ok(Decoded([BE32(data, pos + 8)], pos + 12));
    assert Word(data, pos + 4, ()) == Ok(Decoded(BE32(data, pos + 4), pos + 8));
    assert [BE32(data, pos + 4)] + [BE32(data, pos + 8)] == [BE32(data, pos + 4), BE32(data, pos + 8)];
    assert SizeLimited(Word, (), 10, data, pos, pos + 4) == Ok(Decoded([BE32(data, pos + 4), BE32(data, pos + 8)], pos + 12));
  }

  // ---------------------------------------------------------------------------
  // count_with_vx
  // ---------------------------------------------------------------------------

  /** `count_with_vx(n)`: the loop of the source, proved equal to `count = n` over `vx`. */
  method CountWithVx(n: nat, data: seq<u8>, pos: nat) returns (r: Result<Decoded<seq<u32>>>)
    ensures r == Count(n, Vx, data, pos)
  {
    var items: seq<u32> := [];
    var now := pos;
    var i := 0;
    PrependNil(Count(n, Vx, data, pos));
    while i < n
      invariant 0 <= i <= n
      invariant Count(n, Vx, data, pos) == Prepend(items, Count(n - i, Vx, data, now))
    {
      var x := Vx(data, now);
      if x.Err? {
        return Err(x.error);
      }
      PrependAppend(items, x.value.value, Count(n - i - 1, Vx, data, x.value.next));
      items := items + [x.value.value];
      now := x.value.next;
      i := i + 1;
    }
    assert items + [] == items;
    r := Ok(Decoded(items, now));
  }

  /** `n` indices take between two and four bytes each. */
  lemma {:induction false} VxListWidth(n: nat, data: seq<u8>, pos: nat)
    requires Count(n, Vx, data, pos).Ok?
    ensures pos + 2 * n <= Count(n, Vx, data, pos).value.next <= pos + 4 * n
    ensures forall i :: 0 <= i < n ==> Count(n, Vx, data, pos).value.value[i] <= MaxVx
    decreases n
  {
    if n > 0 {
      var x := Vx(data, pos);
      VxListWidth(n - 1, data, x.value.next);
    }
  }

  /** `count = n` reads its first element, then the other `n - 1`. */
  lemma CountFirst<T>(n: nat, f: (seq<u8>, nat) -> Result<Decoded<T>>, data: seq<u8>, pos: nat)
    requires n > 0 && f(data, pos).Ok?
    ensures Count(n, f, data, pos) == Prepend([f(data, pos).value.value], Count(n - 1, f, data, f(data, pos).value.next))
  {
  }

  /** The canonical encodings of a list of indices, back to back. */
  function EncodeVxs(vs: seq<nat>): (b: seq<u8>)
    requires forall i :: 0 <= i < |vs| ==> vs[i] <= MaxVx
  {
    if |vs| == 0 then [] else EncodeVx(vs[0]) + EncodeVxs(vs[1..])
  }

  /** `count_with_vx` reads back exactly the list of indices that was encoded. */
  lemma {:induction false} VxListRoundTrip(vs: seq<nat>, data: seq<u8>, pos: nat)
    requires forall i :: 0 <= i < |vs| ==> vs[i] <= MaxVx
    requires pos + |EncodeVxs(vs)| <= |data| && data[pos..pos + |EncodeVxs(vs)|] == EncodeVxs(vs)
    ensures Count(|vs|, Vx, data, pos) == Ok(Decoded(vs, pos + |EncodeVxs(vs)|))
    decreases |vs|
  {
    if |vs| > 0 {
      var e := EncodeVx(vs[0]);
      var rest := EncodeVxs(vs[1..]);
      assert EncodeVxs(vs) == e + rest;
      SliceSplit(data, pos, e, rest);
      VxRoundTrip(vs[0], data, pos);
      VxListRoundTrip(vs[1..], data, pos + |e|);
      CountFirst(|vs|, Vx, data, pos);
      assert vs == [vs[0]] + vs[1..];
    }
  }

  // ---------------------------------------------------------------------------
  // lwo_null_string
  // ---------------------------------------------------------------------------

  /** The bytes of `s` that are not zero, in order. */
  function NonZero(s: seq<u8>): (r: seq<u8>)
    ensures |r| <= |s|
    ensures forall k :: 0 <= k < |r| ==> r[k] != 0
  {
    if |s| == 0 then [] else (if s[0] == 0 then [] else [s[0]]) + NonZero(s[1..])
  }

  /**
   * The byte scan of `lwo_null_string`: bytes are read one by one; a zero
   * that leaves the cursor on an even position ends the string, any other
   * zero is dropped, every other byte is kept.
   */
  function LwoScan(data: seq<u8>, pos: nat): Result<Decoded<seq<u8>>>
    decreases Remaining(data, pos)
  {
    if pos >= |data| then Err(Error(UnexpectedEof, pos))
    else if data[pos] == 0 && (pos + 1) % 2 == 0 then Ok(Decoded([], pos + 1))
    else
      var rest :- LwoScan(data, pos + 1);
      Ok(Decoded((if data[pos] == 0 then [] else [data[pos]]) + rest.value, rest.next))
  }

  /**
   * The scan ends just after the first zero that sits on an odd position
   * (every zero before it is on an even one), on an even position, keeping
   * exactly the non-zero bytes it passed; without such a zero it fails at
   * the end of the input.
   */
  lemma LwoScanShape(data: seq<u8>, pos: nat)
    ensures LwoScan(data, pos).Ok? ==>
      var d := LwoScan(data, pos).value;
      && pos < d.next <= |data| && d.next % 2 == 0 && data[d.next - 1] == 0
      && d.value == NonZero(data[pos..d.next])
      && forall p :: pos <= p < d.next - 1 ==> data[p] != 0 || p % 2 == 0
    ensures LwoScan(data, pos).Err? ==>
      && LwoScan(data, pos).error == Error(UnexpectedEof, Max(pos, |data|))
      && forall p :: pos <= p < |data| ==> data[p] != 0 || p % 2 == 0
  {
    if LwoScan(data, pos).Ok? {
      LwoScanOk(data, pos);
    } else {
      LwoScanErr(data, pos);
    }
  }

  lemma {:induction false} LwoScanOk(data: seq<u8>, pos: nat)
    requires LwoScan(data, pos).Ok?
    ensures
      var d := LwoScan(data, pos).value;
      && pos < d.next <= |data| && d.next % 2 == 0 && data[d.next - 1] == 0
      && d.value == NonZero(data[pos..d.next])
      && forall p :: pos <= p < d.next - 1 ==> data[p] != 0 || p % 2 == 0
    decreases Remaining(data, pos)
  {
    if !(data[pos] == 0 && (pos + 1) % 2 == 0) {
      LwoScanOk(data, pos + 1);
      var r := LwoScan(data, pos + 1).value;
      assert data[pos..r.next] == [data[pos]] + data[pos + 1..r.next];
      assert NonZero(data[pos..r.next]) == (if data[pos] == 0 then [] else [data[pos]]) + NonZero(data[pos + 1..r.next]);
    } else {
      assert data[pos..pos + 1] == [0];
    }
  }

  lemma {:induction false} LwoScanErr(data: seq<u8>, pos: nat)
    requires LwoScan(data, pos).Err?
    ensures LwoScan(data, pos).error == Error(UnexpectedEof, Max(pos, |data|))
    ensures forall p :: pos <= p < |data| ==> data[p] != 0 || p % 2 == 0
    decreases Remaining(data, pos)
  {
    if pos < |data| {
      LwoScanErr(data, pos + 1);
    }
  }

  /**
   * `lwo_null_string`: the scanned bytes as a UTF-8 string; bytes that are
   * not UTF-8 fail at the position the string began.
   */
  function LwoString(data: seq<u8>, pos: nat): (r: Result<Decoded<seq<u8>>>)
    ensures r.Ok? ==> pos < r.value.next <= |data| && r.value.next % 2 == 0 && ValidUtf8(r.value.value)
    ensures r.Err? ==> r.error.offset >= pos && (r.error.kind == UnexpectedEof || r.error.kind == InvalidUtf8)
    ensures r.Err? && r.error.kind == InvalidUtf8 ==> r.error.offset == pos
  {
    LwoScanShape(data, pos);
    var s :- LwoScan(data, pos);
    if ValidUtf8(s.value) then Ok(s) else Err(Error(InvalidUtf8, pos))
  }

  /** The whole outcome of `lwo_null_string`, stated on the input bytes alone. */
  lemma LwoStringShape(data: seq<u8>, pos: nat)
    ensures LwoString(data, pos).Ok? ==>
      var d := LwoString(data, pos).value;
      && data[d.next - 1] == 0 && d.value == NonZero(data[pos..d.next])
      && forall p :: pos <= p < d.next - 1 ==> data[p] != 0 || p % 2 == 0
    ensures LwoString(data, pos).Err? ==>
      || LwoString(data, pos).error == Error(InvalidUtf8, pos)
      || (&& LwoString(data, pos).error == Error(UnexpectedEof, Max(pos, |data|))
          && forall p :: pos <= p < |data| ==> data[p] != 0 || p % 2 == 0)
  {
    LwoScanShape(data, pos);
  }

  /** `lwo_null_string`: the loop of the source, proved equal to `LwoString`. */
  method LwoNullString(data: seq<u8>, pos: nat) returns (r: Result<Decoded<seq<u8>>>)
    ensures r == LwoString(data, pos)
  {
    var buf: seq<u8> := [];
    var now := pos;
    PrependNil(LwoScan(data, pos));
    while true
      invariant pos <= now
      invariant LwoScan(data, pos) == Prepend(buf, LwoScan(data, now))
      decreases Remaining(data, now)
    {
      var b :- ReadU8(data, now);
      now := b.next;
      if b.value == 0 && now % 2 == 0 {
        break;
      } else if b.value != 0 {
        PrependAppend(buf, b.value, LwoScan(data, now));
        buf := buf + [b.value];
      } else {
        PrependNil(LwoScan(data, now));
      }
    }
    assert buf + [] == buf;
    if ValidUtf8(buf) {
      r := Ok(Decoded(buf, now));
    } else {
      r := Err(Error(InvalidUtf8, pos));
    }
  }

  /** The bytes a LightWave string occupies when it is written at `pos`: the text, then one or two zeros. */
  function EncodeLwoString(s: seq<u8>, pos: nat): (b: seq<u8>)
    ensures (pos + |b|) % 2 == 0
  {
    if (pos + |s| + 1) % 2 == 0 then s + [0] else s + [0, 0]
  }

  /** Reading an encoded zero-free UTF-8 text gives it back and lands just past its padding. */
  lemma {:induction false} LwoStringRoundTrip(s: seq<u8>, data: seq<u8>, pos: nat)
    requires ValidUtf8(s) && forall k :: 0 <= k < |s| ==> s[k] != 0
    requires pos + |EncodeLwoString(s, pos)| <= |data|
    requires data[pos..pos + |EncodeLwoString(s, pos)|] == EncodeLwoString(s, pos)
    ensures LwoString(data, pos) == Ok(Decoded(s, pos + |EncodeLwoString(s, pos)|))
  {
    LwoScanText(s, data, pos, pos);
  }

  lemma {:induction false} LwoScanText(s: seq<u8>, data: seq<u8>, pos: nat, p: nat)
    requires forall k :: 0 <= k < |s| ==> s[k] != 0
    requires pos <= p <= pos + |s|
    requires pos + |EncodeLwoString(s, pos)| <= |data|
    requires data[pos..pos + |EncodeLwoString(s, pos)|] == EncodeLwoString(s, pos)
    ensures LwoScan(data, p) == Ok(Decoded(s[p - pos..], pos + |EncodeLwoString(s, pos)|))
    decreases pos + |s| - p
  {
    var e := EncodeLwoString(s, pos);
    assert forall k :: 0 <= k < |e| ==> data[pos + k] == e[k];
    if p < pos + |s| {
      assert data[p] == s[p - pos];
      LwoScanText(s, data, pos, p + 1);
      assert s[p - pos..] == [s[p - pos]] + s[p + 1 - pos..];
    } else {
      assert data[p] == 0;
      if (p + 1) % 2 != 0 {
        assert data[p + 1] == 0;
        assert LwoScan(data, p + 1) == Ok(Decoded([], p + 2));
        var nil: seq<u8> := [];
        assert nil + nil == nil;
      }
      assert s[p - pos..] == [];
    }
  }

  /**
   * Worked cases: a zero ending on an odd position is dropped and the
   * following zero ends the string; a string whose zero ends on an even
   * position takes no padding.
   */
  lemma LwoStringExamples()
    ensures LwoString([0x41, 0x42, 0x00, 0x00], 0) == Ok(Decoded([0x41, 0x42], 4))
    ensures LwoString([0x41, 0x00], 0) == Ok(Decoded([0x41], 2))
    ensures LwoString([0x41, 0x42, 0x00], 0) == Err(Error(UnexpectedEof, 3))
  {
    var nil: seq<u8> := [];
    assert nil + nil == nil;
    assert [0x42 as u8] + nil == [0x42];
    assert [0x41 as u8] + nil == [0x41];
    assert [0x41 as u8] + [0x42] == [0x41, 0x42];
    var d1: seq<u8> := [0x41, 0x42, 0x00, 0x00];
    assert LwoScan(d1, 3) == Ok(Decoded([], 4));
    assert LwoScan(d1, 2) == Ok(Decoded([], 4));
    assert LwoScan(d1, 1) == Ok(Decoded([0x42], 4));
    assert LwoScan(d1, 0) == Ok(Decoded([0x41, 0x42], 4));
    AsciiIsUtf8([0x41, 0x42]);
    var d2: seq<u8> := [0x41, 0x00];
    assert LwoScan(d2, 1) == Ok(Decoded([], 2));
    assert LwoScan(d2, 0) == Ok(Decoded([0x41], 2));
    AsciiIsUtf8([0x41]);
    var d3: seq<u8> := [0x41, 0x42, 0x00];
    assert LwoScan(d3, 3).Err?;
    assert LwoScan(d3, 2) == Err(Error(UnexpectedEof, 3));
  }

  /**
   * The LightWave string and the aligned `NullString` disagree on the same
   * bytes: a zero ending on an odd position ends the plain string, while the
   * LightWave string drops it and reads on.
   */
  lemma LwoStringVersusNullString()
    ensures LwoString([0x41, 0x42, 0x00, 0x43, 0x00, 0x00], 0) == Ok(Decoded([0x41, 0x42, 0x43], 6))
    ensures AlignedNullString([0x41, 0x42, 0x00, 0x43, 0x00, 0x00], 0) == Ok(Decoded([0x41, 0x42], 4))
  {
    var nil: seq<u8> := [];
    assert nil + nil == nil;
    assert [0x43 as u8] + nil == [0x43];
    assert nil + [0x43] == [0x43];
    assert [0x42 as u8] + [0x43] == [0x42, 0x43];
    assert [0x41 as u8] + [0x42, 0x43] == [0x41, 0x42, 0x43];
    assert [0x42 as u8] + nil == [0x42];
    assert [0x41 as u8] + [0x42] == [0x41, 0x42];
    var d: seq<u8> := [0x41, 0x42, 0x00, 0x43, 0x00, 0x00];
    assert LwoScan(d, 5) == Ok(Decoded([], 6));
    assert LwoScan(d, 4) == Ok(Decoded([], 6));
    assert LwoScan(d, 3) == Ok(Decoded([0x43], 6));
    assert LwoScan(d, 2) == Ok(Decoded([0x43], 6));
    assert LwoScan(d, 1) == Ok(Decoded([0x42, 0x43], 6));
    assert LwoScan(d, 0) == Ok(Decoded([0x41, 0x42, 0x43], 6));
    AsciiIsUtf8([0x41, 0x42, 0x43]);
    assert NullString(d, 2) == Ok(Decoded([], 3));
    assert NullString(d, 1) == Ok(Decoded([0x42], 3));
    assert NullString(d, 0) == Ok(Decoded([0x41, 0x42], 3));
  }
}
