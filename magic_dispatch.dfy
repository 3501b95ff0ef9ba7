/**
 * binrw's reading of an enum whose variants carry magics: the variants are
 * tried in declaration order, a variant whose magic is not at the cursor is
 * skipped, and when no magic matches the read fails.  A catalog lists the
 * variants as (magic, payload decoder) entries.
 *
 * binrw also moves on to the next variant when a variant's magic matched
 * but its body failed, and reports the failure of the whole enum at the
 * enum's position.  In every catalog of the format no magic is a prefix of
 * another (`PrefixFree`, proved per catalog), so at most one variant can
 * match and the first match is the only candidate: `Dispatch` is exact for
 * such catalogs.  A panic inside a body is not an error and is not caught.
 */
module MagicDispatch {
  import opened Primitives

  /** A magic is a non-empty ASCII tag. */
  type Magic = m: string | |m| > 0 witness "?"

  /** A decoder never moves the cursor backwards. */
  ghost predicate Forward<V>(f: (seq<u8>, nat) -> Result<Decoded<V>>)
  {
    forall data: seq<u8>, pos: nat :: f(data, pos).Ok? ==> pos <= f(data, pos).value.next
  }

  type Decoder<V> = f: (seq<u8>, nat) -> Result<Decoded<V>> | Forward(f)
    witness (data: seq<u8>, pos: nat) => Err(Error(UnexpectedEof, pos))

  /** One variant: its magic and the decoder of what follows the magic. */
  datatype Entry<V> = Entry(magic: Magic, decode: Decoder<V>)

  /** A unit variant: the magic alone. */
  function UnitEntry<V>(magic: Magic, variant: V): (e: Entry<V>)
    ensures e.magic == magic
    ensures forall data: seq<u8>, pos: nat :: e.decode(data, pos) == Ok(Decoded(variant, pos))
  {
    Entry(magic, (data: seq<u8>, pos: nat) => Ok(Decoded(variant, pos)))
  }

  /** An enum of unit variants only: the i-th magic stands for the i-th value. */
  function UnitCatalog<V>(ms: seq<Magic>, vs: seq<V>): (c: seq<Entry<V>>)
    requires |ms| == |vs|
    ensures |c| == |ms| && forall i :: 0 <= i < |c| ==> c[i] == UnitEntry(ms[i], vs[i])
  {
    seq(|ms|, i requires 0 <= i < |ms| => UnitEntry(ms[i], vs[i]))
  }

  function Magics<V>(c: seq<Entry<V>>): (ms: seq<string>)
    ensures |ms| == |c| && forall i :: 0 <= i < |c| ==> ms[i] == c[i].magic
  {
    seq(|c|, i requires 0 <= i < |c| => c[i].magic)
  }

  /** A variant body's outcome as the enum reports it: failures are the enum's, at its position, except panics. */
  function AsVariant<V>(r: Result<Decoded<V>>, pos: nat): (e: Result<Decoded<V>>)
    ensures e.Ok? <==> r.Ok?
    ensures r.Ok? ==> e == r
    ensures r.Err? ==> e.error == (if r.error.kind == ArithmeticPanic then r.error else Error(NoVariantMatch, pos))
  {
    if r.Err? && r.error.kind != ArithmeticPanic then Err(Error(NoVariantMatch, pos)) else r
  }

  /** The variants from index `k` on, tried in order. */
  function DispatchFrom<V>(c: seq<Entry<V>>, k: nat, data: seq<u8>, pos: nat): (r: Result<Decoded<V>>)
    requires k <= |c|
    ensures r.Ok? ==> pos < |data| && pos < r.value.next
    ensures (forall i :: k <= i < |c| ==> !MagicAt(c[i].magic, data, pos)) ==> r == Err(Error(NoVariantMatch, pos))
    ensures r.Err? && r.error.kind != ArithmeticPanic ==> r.error == Error(NoVariantMatch, pos)
    decreases |c| - k
  {
    if k == |c| then Err(Error(NoVariantMatch, pos))
    else if MagicAt(c[k].magic, data, pos) then AsVariant(c[k].decode(data, pos + |c[k].magic|), pos)
    else DispatchFrom(c, k + 1, data, pos)
  }

  /**
   * Reading a magic-dispatched enum: it succeeds only on input it consumed,
   * and fails with `NoVariantMatch` at the cursor when no magic is there.
   * It never fails further on, except by a panic inside a body.
   */
  function Dispatch<V>(c: seq<Entry<V>>, data: seq<u8>, pos: nat): (r: Result<Decoded<V>>)
    ensures r.Ok? ==> pos < |data| && pos < r.value.next
    ensures (forall i :: 0 <= i < |c| ==> !MagicAt(c[i].magic, data, pos)) ==> r == Err(Error(NoVariantMatch, pos))
    ensures r.Err? && r.error.kind != ArithmeticPanic ==> r.error == Error(NoVariantMatch, pos)
  {
    DispatchFrom(c, 0, data, pos)
  }

  /**
   * Reading a prefix-free enum of unit variants: the magic at the cursor
   * gives its value, and the cursor moves past the magic.
   */
  lemma UnitSelects<V>(ms: seq<Magic>, vs: seq<V>, data: seq<u8>, pos: nat, i: nat)
    requires |ms| == |vs| && PrefixFree(ms)
    requires i < |ms| && MagicAt(ms[i], data, pos)
    ensures Dispatch(UnitCatalog(ms, vs), data, pos) == Ok(Decoded(vs[i], pos + |ms[i]|))
  {
    var c := UnitCatalog(ms, vs);
    assert Magics(c) == ms;
    DispatchSelects(c, data, pos, i);
  }

  /** Two magics overlap when one is a prefix of the other. */
  predicate Overlap(a: string, b: string)
  {
    if |a| <= |b| then a == b[..|a|] else b == a[..|b|]
  }

  /** No magic of the catalog is a prefix of another. */
  predicate PrefixFree(ms: seq<string>)
  {
    forall i, j :: 0 <= i < |ms| && 0 <= j < |ms| && i != j ==> !Overlap(ms[i], ms[j])
  }

  /** Two magics found at the same position overlap. */
  lemma BothAt(a: string, b: string, data: seq<u8>, pos: nat)
    requires MagicAt(a, data, pos) && MagicAt(b, data, pos)
    ensures Overlap(a, b)
  {
    if |a| <= |b| {
      assert forall k :: 0 <= k < |a| ==> a[k] as int == data[pos + k] == b[k] as int;
      assert a == b[..|a|];
    } else {
      assert forall k :: 0 <= k < |b| ==> b[k] as int == data[pos + k] == a[k] as int;
      assert b == a[..|b|];
    }
  }

  /**
   * In a prefix-free catalog, the variant whose magic is at the cursor is
   * the one that is read, whatever its place in the catalog.
   */
  lemma {:induction false} DispatchSelects<V>(c: seq<Entry<V>>, data: seq<u8>, pos: nat, i: nat)
    requires PrefixFree(Magics(c))
    requires i < |c| && MagicAt(c[i].magic, data, pos)
    ensures Dispatch(c, data, pos) == AsVariant(c[i].decode(data, pos + |c[i].magic|), pos)
  {
    forall k | 0 <= k < i
      ensures !MagicAt(c[k].magic, data, pos)
    {
      OnlyOneAt(c, data, pos, k, i);
    }
    DispatchFromSelects(c, 0, data, pos, i);
  }

  /** The variants before the matching one are skipped, and the matching one is read. */
  lemma {:induction false} DispatchFromSelects<V>(c: seq<Entry<V>>, k: nat, data: seq<u8>, pos: nat, i: nat)
    requires k <= i < |c| && MagicAt(c[i].magic, data, pos)
    requires forall j :: k <= j < i ==> !MagicAt(c[j].magic, data, pos)
    ensures DispatchFrom(c, k, data, pos) == AsVariant(c[i].decode(data, pos + |c[i].magic|), pos)
    decreases i - k
  {
    if k < i {
      assert DispatchFrom(c, k, data, pos) == DispatchFrom(c, k + 1, data, pos);
      DispatchFromSelects(c, k + 1, data, pos, i);
    }
  }

  /** In a prefix-free catalog no other magic is at the position of a matching one. */
  lemma OnlyOneAt<V>(c: seq<Entry<V>>, data: seq<u8>, pos: nat, k: nat, i: nat)
    requires PrefixFree(Magics(c))
    requires k < |c| && i < |c| && k != i && MagicAt(c[i].magic, data, pos)
    ensures !MagicAt(c[k].magic, data, pos)
  {
    var ms := Magics(c);
    assert !Overlap(ms[k], ms[i]);
    if MagicAt(c[k].magic, data, pos) {
      BothAt(c[k].magic, c[i].magic, data, pos);
    }
  }

  predicate Distinct(ms: seq<string>)
  {
    forall i, j :: 0 <= i < j < |ms| ==> ms[i] != ms[j]
  }

  predicate Uniform(ms: seq<string>, w: nat)
  {
    forall i :: 0 <= i < |ms| ==> |ms[i]| == w
  }

  /** Distinct magics of one common width never overlap. */
  lemma UniformDistinct(ms: seq<string>, w: nat)
    requires Uniform(ms, w) && Distinct(ms)
    ensures PrefixFree(ms)
  {
    forall i, j | 0 <= i < |ms| && 0 <= j < |ms| && i != j
      ensures !Overlap(ms[i], ms[j])
    {
      assert ms[j][..|ms[i]|] == ms[j];
      if i < j {} else {}
    }
  }

  /** The first `w` characters of every magic. */
  function Heads(ms: seq<string>, w: nat): (hs: seq<string>)
    requires forall i :: 0 <= i < |ms| ==> |ms[i]| >= w
    ensures |hs| == |ms| && forall i :: 0 <= i < |ms| ==> hs[i] == ms[i][..w]
  {
    seq(|ms|, i requires 0 <= i < |ms| => ms[i][..w])
  }

  /**
   * Magics of different widths never overlap when they all have at least
   * `w` characters and their first `w` characters tell them apart.
   */
  lemma DistinctHeads(ms: seq<string>, w: nat)
    requires forall i :: 0 <= i < |ms| ==> |ms[i]| >= w
    requires Distinct(Heads(ms, w))
    ensures PrefixFree(ms)
  {
    var hs := Heads(ms, w);
    forall i, j | 0 <= i < |ms| && 0 <= j < |ms| && i != j
      ensures !Overlap(ms[i], ms[j])
    {
      if i < j {
        assert hs[i] != hs[j];
      } else {
        assert hs[j] != hs[i];
      }
      HeadsDiffer(ms[i], ms[j], w);
    }
  }

  /** Magics that differ in their first `w` characters do not overlap. */
  lemma HeadsDiffer(a: string, b: string, w: nat)
    requires |a| >= w && |b| >= w && a[..w] != b[..w]
    ensures !Overlap(a, b)
  {
    if |a| <= |b| {
      assert b[..|a|][..w] == b[..w];
    } else {
      assert a[..|b|][..w] == a[..w];
    }
  }
}
