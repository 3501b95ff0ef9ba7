/**
 * The reading primitives the LWO2 decoder takes from binrw: big-endian
 * integers, opaque 32-bit floats, magics, NUL-terminated byte strings,
 * alignment seeks, `count = n` vectors and the decoder result type.
 *
 * The input is an immutable byte sequence and the cursor an absolute
 * position.  binrw padding and alignment are seeks, so a position may lie
 * beyond the end of the input; every read from such a position fails.
 */
module Primitives {

  type u8 = x: int | 0 <= x < 0x100
  type u16 = x: int | 0 <= x < 0x1_0000
  type u32 = x: int | 0 <= x < 0x1_0000_0000
  type i16 = x: int | -0x8000 <= x < 0x8000
  type i32 = x: int | -0x8000_0000 <= x < 0x8000_0000

  /** An IEEE-754 single kept as its bit pattern: the decoder never computes with floats. */
  datatype F32 = F32(bits: u32)

  /** The bit pattern of `0.0`, the value binrw's `Default` gives a skipped `f32` field. */
  const Zero32: F32 := F32(0)

  datatype Option<T> = None | Some(value: T)

  datatype ErrorKind =
    | UnexpectedEof     // a read ran past the end of the input
    | BadMagic          // a fixed magic did not match
    | NoVariantMatch    // no variant of a magic-dispatched enum matched
    | BadEnumValue      // a repr enum read a value that names no variant
    | InvalidUtf8       // a LightWave string is not UTF-8
    | AssertionFailed   // a `#[br(assert(..))]` condition was false
    | ArithmeticPanic   // the decoder's own integer arithmetic panics (underflow, division by zero)

  /** A decoding error with the absolute offset it was raised at. */
  datatype Error = Error(kind: ErrorKind, offset: nat)

  datatype Result<T> = Ok(value: T) | Err(error: Error)
  {
    predicate IsFailure() { Err? }

    function PropagateFailure<U>(): Result<U>
      requires Err?
    {
      Err(error)
    }

    function Extract(): T
      requires Ok?
    {
      value
    }
  }

  /** A decoded value together with the cursor position after it. */
  datatype Decoded<T> = Decoded(value: T, next: nat)

  /** Maps the value of a successful decode, keeping position and error. */
  function Wrap<D, V>(r: Result<Decoded<D>>, k: D -> V): (w: Result<Decoded<V>>)
    ensures w.Ok? <==> r.Ok?
    ensures r.Ok? ==> w.value == Decoded(k(r.value.value), r.value.next)
    ensures r.Err? ==> w.error == r.error
  {
    match r
    case Ok(d) => Ok(Decoded(k(d.value), d.next))
    case Err(e) => Err(e)
  }

  /** Puts already collected elements in front of the elements of a later decode. */
  function Prepend<T>(items: seq<T>, r: Result<Decoded<seq<T>>>): Result<Decoded<seq<T>>>
  {
    match r
    case Ok(d) => Ok(Decoded(items + d.value, d.next))
    case Err(e) => Err(e)
  }

  lemma PrependNil<T>(r: Result<Decoded<seq<T>>>)
    ensures Prepend([], r) == r
  {
    if r.Ok? {
      assert [] + r.value.value == r.value.value;
    }
  }

  lemma PrependAppend<T>(items: seq<T>, x: T, r: Result<Decoded<seq<T>>>)
    ensures Prepend(items, Prepend([x], r)) == Prepend(items + [x], r)
  {
    if r.Ok? {
      assert items + ([x] + r.value.value) == (items + [x]) + r.value.value;
    }
  }

  /** Bytes left to read from `pos`; the measure every scanning decoder decreases. */
  function Remaining(data: seq<u8>, pos: nat): nat
  {
    if pos < |data| then |data| - pos else 0
  }

  function Max(a: nat, b: nat): nat
  {
    if a < b then b else a
  }

  // ---------------------------------------------------------------------------
  // Big-endian integers and their encodings (reference definitions)
  // ---------------------------------------------------------------------------

  function BE16(data: seq<u8>, i: nat): u16
    requires i + 2 <= |data|
  {
    (data[i] as int) * 0x100 + data[i + 1] as int
  }

  function BE32(data: seq<u8>, i: nat): u32
    requires i + 4 <= |data|
  {
    BE16(data, i) * 0x1_0000 + BE16(data, i + 2)
  }

  function U16Bytes(v: u16): (b: seq<u8>)
    ensures |b| == 2 && BE16(b, 0) == v
  {
    [v / 0x100, v % 0x100]
  }

  function U32Bytes(v: u32): (b: seq<u8>)
    ensures |b| == 4 && BE32(b, 0) == v
  {
    U16Bytes(v / 0x1_0000) + U16Bytes(v % 0x1_0000)
  }

  /** Two's complement reading of a 16-bit word. */
  function AsI16(v: u16): (r: i16)
    ensures r % 0x1_0000 == v
  {
    if v < 0x8000 then v else v - 0x1_0000
  }

  /** Two's complement reading of a 32-bit word. */
  function AsI32(v: u32): (r: i32)
    ensures r % 0x1_0000_0000 == v
  {
    if v < 0x8000_0000 then v else v - 0x1_0000_0000
  }

  /** Bytes that hold a concatenation hold each part where it lies. */
  lemma SliceSplit(data: seq<u8>, pos: nat, a: seq<u8>, b: seq<u8>)
    requires pos + |a| + |b| <= |data| && data[pos..pos + |a| + |b|] == a + b
    ensures data[pos..pos + |a|] == a
    ensures data[pos + |a|..pos + |a| + |b|] == b
  {
    var whole := data[pos..pos + |a| + |b|];
    assert data[pos..pos + |a|] == whole[..|a|];
    assert data[pos + |a|..pos + |a| + |b|] == whole[|a|..];
  }

  // ---------------------------------------------------------------------------
  // Fixed-width reads
  // ---------------------------------------------------------------------------

  function ReadU8(data: seq<u8>, pos: nat): (r: Result<Decoded<u8>>)
    ensures r.Ok? <==> pos < |data|
    ensures r.Ok? ==> r.value == Decoded(data[pos], pos + 1)
    ensures r.Err? ==> r.error == Error(UnexpectedEof, pos)
  {
    if pos < |data| then Ok(Decoded(data[pos], pos + 1)) else Err(Error(UnexpectedEof, pos))
  }

  function ReadU16(data: seq<u8>, pos: nat): (r: Result<Decoded<u16>>)
    ensures r.Ok? <==> pos + 2 <= |data|
    ensures r.Ok? ==> r.value == Decoded(BE16(data, pos), pos + 2)
    ensures r.Err? ==> r.error == Error(UnexpectedEof, pos)
  {
    if pos + 2 <= |data| then Ok(Decoded(BE16(data, pos), pos + 2)) else Err(Error(UnexpectedEof, pos))
  }

  function ReadU32(data: seq<u8>, pos: nat): (r: Result<Decoded<u32>>)
    ensures r.Ok? <==> pos + 4 <= |data|
    ensures r.Ok? ==> r.value == Decoded(BE32(data, pos), pos + 4)
    ensures r.Err? ==> r.error == Error(UnexpectedEof, pos)
  {
    if pos + 4 <= |data| then Ok(Decoded(BE32(data, pos), pos + 4)) else Err(Error(UnexpectedEof, pos))
  }

  function ReadI16(data: seq<u8>, pos: nat): (r: Result<Decoded<i16>>)
    ensures r.Ok? <==> pos + 2 <= |data|
    ensures r.Ok? ==> r.value == Decoded(AsI16(BE16(data, pos)), pos + 2)
  {
    var v :- ReadU16(data, pos);
    Ok(Decoded(AsI16(v.value), v.next))
  }

  function ReadI32(data: seq<u8>, pos: nat): (r: Result<Decoded<i32>>)
    ensures r.Ok? <==> pos + 4 <= |data|
    ensures r.Ok? ==> r.value == Decoded(AsI32(BE32(data, pos)), pos + 4)
  {
    var v :- ReadU32(data, pos);
    Ok(Decoded(AsI32(v.value), v.next))
  }

  function ReadF32(data: seq<u8>, pos: nat): (r: Result<Decoded<F32>>)
    ensures r.Ok? <==> pos + 4 <= |data|
    ensures r.Ok? ==> r.value == Decoded(F32(BE32(data, pos)), pos + 4)
  {
    var v :- ReadU32(data, pos);
    Ok(Decoded(F32(v.value), v.next))
  }

  /** `[u8; n]` and `Vec<u8>` with `count = n`: the next `n` bytes verbatim. */
  function ReadBytes(n: nat, data: seq<u8>, pos: nat): (r: Result<Decoded<seq<u8>>>)
    ensures r.Ok? <==> pos + n <= |data|
    ensures r.Ok? ==> r.value == Decoded(data[pos..pos + n], pos + n)
    ensures r.Err? ==> r.error == Error(UnexpectedEof, pos)
  {
    if pos + n <= |data| then Ok(Decoded(data[pos..pos + n], pos + n)) else Err(Error(UnexpectedEof, pos))
  }

  // ---------------------------------------------------------------------------
  // Repr enums
  // ---------------------------------------------------------------------------

  /**
   * `#[br(repr = ..)]` enums whose variants carry consecutive discriminants
   * starting at `first`: the integer is read and must name a variant.
   */
  function ReprVariant<E>(variants: seq<E>, first: int, v: int): (r: Option<E>)
    ensures r.Some? <==> first <= v < first + |variants|
    ensures r.Some? ==> r.value == variants[v - first]
  {
    if first <= v < first + |variants| then Some(variants[v - first]) else None
  }

  function ReadEnum8<E>(variants: seq<E>, first: int, data: seq<u8>, pos: nat): (r: Result<Decoded<E>>)
    ensures r.Ok? <==> pos < |data| && first <= data[pos] < first + |variants|
    ensures r.Ok? ==> r.value == Decoded(variants[data[pos] - first], pos + 1)
    ensures r.Err? ==> r.error.offset == pos
  {
    var v :- ReadU8(data, pos);
    match ReprVariant(variants, first, v.value)
    case Some(e) => Ok(Decoded(e, v.next))
    case None => Err(Error(BadEnumValue, pos))
  }

  function ReadEnum16<E>(variants: seq<E>, first: int, data: seq<u8>, pos: nat): (r: Result<Decoded<E>>)
    ensures r.Ok? <==> pos + 2 <= |data| && first <= BE16(data, pos) < first + |variants|
    ensures r.Ok? ==> r.value == Decoded(variants[BE16(data, pos) - first], pos + 2)
    ensures r.Err? ==> r.error.offset == pos
  {
    var v :- ReadU16(data, pos);
    match ReprVariant(variants, first, v.value)
    case Some(e) => Ok(Decoded(e, v.next))
    case None => Err(Error(BadEnumValue, pos))
  }

  function ReadEnumI32<E>(variants: seq<E>, first: int, data: seq<u8>, pos: nat): (r: Result<Decoded<E>>)
    ensures r.Ok? <==> pos + 4 <= |data| && first <= AsI32(BE32(data, pos)) < first + |variants|
    ensures r.Ok? ==> r.value == Decoded(variants[AsI32(BE32(data, pos)) - first], pos + 4)
    ensures r.Err? ==> r.error.offset == pos
  {
    var v :- ReadI32(data, pos);
    match ReprVariant(variants, first, v.value)
    case Some(e) => Ok(Decoded(e, v.next))
    case None => Err(Error(BadEnumValue, pos))
  }

  // ---------------------------------------------------------------------------
  // Magics
  // ---------------------------------------------------------------------------

  /** The ASCII characters of `m` sit at `pos` in the input. */
  predicate MagicAt(m: string, data: seq<u8>, pos: nat)
  {
    pos + |m| <= |data| && forall k :: 0 <= k < |m| ==> data[pos + k] == m[k] as int
  }

  /** `magic = b"...."`: the bytes must be there and equal; mismatch is reported at the magic's offset. */
  function ReadMagic(m: string, data: seq<u8>, pos: nat): (r: Result<nat>)
    ensures r.Ok? <==> MagicAt(m, data, pos)
    ensures r.Ok? ==> r.value == pos + |m|
    ensures r.Err? ==> r.error.offset == pos
    ensures r.Err? ==> (r.error.kind == UnexpectedEof <==> pos + |m| > |data|)
  {
    if pos + |m| > |data| then Err(Error(UnexpectedEof, pos))
    else if MagicAt(m, data, pos) then Ok(pos + |m|)
    else Err(Error(BadMagic, pos))
  }

  // ---------------------------------------------------------------------------
  // Alignment
  // ---------------------------------------------------------------------------

  /** `align_after = 2`: seek forward to the next even absolute position. */
  function AlignEven(p: nat): (q: nat)
    ensures q % 2 == 0 && p <= q <= p + 1
  {
    if p % 2 == 0 then p else p + 1
  }

  // ---------------------------------------------------------------------------
  // NUL-terminated strings
  // ---------------------------------------------------------------------------

  /**
   * binrw `NullString`: the bytes up to the first zero, which is consumed
   * and not kept.  Reaching the end first fails where the read failed.
   */
  function NullString(data: seq<u8>, pos: nat): (r: Result<Decoded<seq<u8>>>)
    ensures r.Ok? ==> pos < r.value.next <= |data| && data[r.value.next - 1] == 0
    ensures r.Ok? ==> r.value.value == data[pos..r.value.next - 1]
    ensures r.Ok? ==> forall k :: pos <= k < r.value.next - 1 ==> data[k] != 0
    ensures r.Err? ==> r.error == Error(UnexpectedEof, Max(pos, |data|))
    ensures r.Err? ==> forall k :: pos <= k < |data| ==> data[k] != 0
    decreases Remaining(data, pos)
  {
    if pos >= |data| then Err(Error(UnexpectedEof, pos))
    else if data[pos] == 0 then Ok(Decoded([], pos + 1))
    else
      var rest :- NullString(data, pos + 1);
      Ok(Decoded([data[pos]] + rest.value, rest.next))
  }

  /** `NullString` with `align_after = 2`: the string, then a seek to an even position. */
  function AlignedNullString(data: seq<u8>, pos: nat): (r: Result<Decoded<seq<u8>>>)
    ensures r.Ok? <==> NullString(data, pos).Ok?
    ensures r.Ok? ==> r.value.value == NullString(data, pos).value.value
    ensures r.Ok? ==> r.value.next % 2 == 0 && r.value.next > pos
    ensures r.Ok? ==> r.value.next - NullString(data, pos).value.next == NullString(data, pos).value.next % 2
  {
    var s :- NullString(data, pos);
    Ok(Decoded(s.value, AlignEven(s.next)))
  }

  // ---------------------------------------------------------------------------
  // `count = n`
  // ---------------------------------------------------------------------------

  /** binrw `count = n`: exactly `n` elements read back to back. */
  function Count<T>(n: nat, f: (seq<u8>, nat) -> Result<Decoded<T>>, data: seq<u8>, pos: nat)
    : (r: Result<Decoded<seq<T>>>)
    ensures r.Ok? ==> |r.value.value| == n
    decreases n
  {
    if n == 0 then Ok(Decoded([], pos))
    else
      var x :- f(data, pos);
      var rest :- Count(n - 1, f, data, x.next);
      Ok(Decoded([x.value] + rest.value, rest.next))
  }

  /** `f` reads exactly `w` bytes wherever `w` bytes are available, and fails otherwise. */
  ghost predicate FixedWidth<T>(f: (seq<u8>, nat) -> Result<Decoded<T>>, w: nat)
  {
    forall data: seq<u8>, p: nat ::
      (f(data, p).Ok? <==> p + w <= |data|) && (f(data, p).Ok? ==> f(data, p).value.next == p + w)
  }

  /**
   * `count = n` over a fixed-width element reads exactly `n * w` bytes, and
   * its i-th element is the element decoded at `pos + i * w`.  Zero elements
   * read nothing, so they succeed even from beyond the end of the input.
   */
  lemma {:induction false} CountFixedWidth<T>(n: nat, f: (seq<u8>, nat) -> Result<Decoded<T>>, w: nat, data: seq<u8>, pos: nat)
    requires FixedWidth(f, w)
    ensures Count(n, f, data, pos).Ok? <==> n == 0 || pos + n * w <= |data|
    ensures Count(n, f, data, pos).Ok? ==> Count(n, f, data, pos).value.next == pos + n * w
    ensures Count(n, f, data, pos).Ok? ==>
      forall i :: 0 <= i < n ==> f(data, pos + i * w) == Ok(Decoded(Count(n, f, data, pos).value.value[i], pos + i * w + w))
    decreases n
  {
    if n > 0 {
      MulStep(n - 1, w);
      MulMono(n, w);
      assert f(data, pos).Ok? <==> pos + w <= |data|;
      if pos + w <= |data| {
        CountFixedWidth(n - 1, f, w, data, pos + w);
        CountStep(n, f, w, data, pos);
      }
    }
  }

  /** One element of `CountFixedWidth`: the first element, then the induction hypothesis. */
  lemma {:induction false} CountStep<T>(n: nat, f: (seq<u8>, nat) -> Result<Decoded<T>>, w: nat, data: seq<u8>, pos: nat)
    requires FixedWidth(f, w) && n > 0 && pos + w <= |data|
    ensures Count(n, f, data, pos).Ok? <==> Count(n - 1, f, data, pos + w).Ok?
    ensures Count(n, f, data, pos).Ok? ==> Count(n, f, data, pos).value.next == Count(n - 1, f, data, pos + w).value.next
    ensures Count(n, f, data, pos).Ok? ==>
      forall i :: 0 <= i < n ==> f(data, pos + i * w) == Ok(Decoded(Count(n, f, data, pos).value.value[i], pos + i * w + w))
    decreases n, 0
  {
    var x := f(data, pos);
    assert x.Ok? && x.value.next == pos + w;
    var rest := Count(n - 1, f, data, pos + w);
    var r := Count(n, f, data, pos);
    if rest.Ok? {
      CountFixedWidth(n - 1, f, w, data, pos + w);
      assert r.value.value == [x.value.value] + rest.value.value;
      forall i | 0 < i < n
        ensures f(data, pos + i * w) == Ok(Decoded(r.value.value[i], pos + i * w + w))
      {
        MulStep(i - 1, w);
        assert r.value.value[i] == rest.value.value[i - 1];
      }
    }
  }

  lemma MulStep(a: nat, w: nat)
    ensures a * w + w == (a + 1) * w
  {
  }

  lemma MulMono(n: nat, w: nat)
    requires n >= 1
    ensures n * w >= w
  {
  }

  /** `[f32; n]` / `Vec<f32>` with `count = n`: `n` consecutive big-endian words. */
  function ReadF32s(n: nat, data: seq<u8>, pos: nat): (r: Result<Decoded<seq<F32>>>)
    ensures r.Ok? <==> n == 0 || pos + 4 * n <= |data|
    ensures r.Ok? ==> r.value.next == pos + 4 * n && |r.value.value| == n
    ensures r.Ok? ==> forall i :: 0 <= i < n ==> r.value.value[i] == F32(BE32(data, pos + 4 * i))
  {
    CountFixedWidth(n, ReadF32, 4, data, pos);
    Count(n, ReadF32, data, pos)
  }

  /** `Vec<u16>` with `count = n`. */
  function ReadU16s(n: nat, data: seq<u8>, pos: nat): (r: Result<Decoded<seq<u16>>>)
    ensures r.Ok? <==> n == 0 || pos + 2 * n <= |data|
    ensures r.Ok? ==> r.value.next == pos + 2 * n && |r.value.value| == n
    ensures r.Ok? ==> forall i :: 0 <= i < n ==> r.value.value[i] == BE16(data, pos + 2 * i)
  {
    CountFixedWidth(n, ReadU16, 2, data, pos);
    Count(n, ReadU16, data, pos)
  }

  // ---------------------------------------------------------------------------
  // UTF-8 (the validity test of Rust's `String::from_utf8`)
  // ---------------------------------------------------------------------------

  predicate Continuation(b: u8)
  {
    0x80 <= b <= 0xBF
  }

  /** Well-formed UTF-8: the byte sequences of table 3-7 of the Unicode standard. */
  predicate ValidUtf8(s: seq<u8>)
    decreases |s|
  {
    if |s| == 0 then true
    else if s[0] < 0x80 then ValidUtf8(s[1..])
    else if 0xC2 <= s[0] <= 0xDF then
      |s| >= 2 && Continuation(s[1]) && ValidUtf8(s[2..])
    else if s[0] == 0xE0 then
      |s| >= 3 && 0xA0 <= s[1] <= 0xBF && Continuation(s[2]) && ValidUtf8(s[3..])
    else if 0xE1 <= s[0] <= 0xEC || 0xEE <= s[0] <= 0xEF then
      |s| >= 3 && Continuation(s[1]) && Continuation(s[2]) && ValidUtf8(s[3..])
    else if s[0] == 0xED then
      |s| >= 3 && 0x80 <= s[1] <= 0x9F && Continuation(s[2]) && ValidUtf8(s[3..])
    else if s[0] == 0xF0 then
      |s| >= 4 && 0x90 <= s[1] <= 0xBF && Continuation(s[2]) && Continuation(s[3]) && ValidUtf8(s[4..])
    else if 0xF1 <= s[0] <= 0xF3 then
      |s| >= 4 && Continuation(s[1]) && Continuation(s[2]) && Continuation(s[3]) && ValidUtf8(s[4..])
    else if s[0] == 0xF4 then
      |s| >= 4 && 0x80 <= s[1] <= 0x8F && Continuation(s[2]) && Continuation(s[3]) && ValidUtf8(s[4..])
    else false
  }

  /** Every ASCII byte string is UTF-8. */
  lemma {:induction false} AsciiIsUtf8(s: seq<u8>)
    requires forall k :: 0 <= k < |s| ==> s[k] < 0x80
    ensures ValidUtf8(s)
    decreases |s|
  {
    if |s| > 0 {
      AsciiIsUtf8(s[1..]);
    }
  }
}
