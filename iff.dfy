/**
 * The IFF framing of LWO2: a chunk is a 4-byte big-endian length followed
 * by a payload, a sub-chunk the same with a 2-byte length.  The payload
 * decoder receives the declared length, the cursor is then moved up to the
 * declared end if the payload read less (never back if it read more), and
 * finally to an even position.
 */
module Iff {
  import opened Primitives
  import opened MagicDispatch

  /** `Chunk<D>`: a payload behind a 32-bit length. */
  datatype Chunk<D> = Chunk(length: u32, data: D)
  {
    /** `Deref`: a chunk stands for its payload. */
    function Deref(): D
    {
      data
    }
  }

  /** `SubChunk<D>`: a payload behind a 16-bit length. */
  datatype SubChunk<D> = SubChunk(length: u16, data: D)
  {
    /** `Deref`: a sub-chunk stands for its payload. */
    function Deref(): D
    {
      data
    }
  }

  /** A payload decoder: reads a record from a position, given the length its header declared. */
  type Payload<D> = (seq<u8>, nat, u32) -> Result<Decoded<D>>

  /**
   * The payload field of both frames: `pad_size_to = length`,
   * `align_after = 2`, `args(length)`.
   */
  function Framed<D>(payload: Payload<D>, length: u32, data: seq<u8>, start: nat): (r: Result<Decoded<D>>)
    ensures r.Ok? <==> payload(data, start, length).Ok?
    ensures r.Err? ==> r.error == payload(data, start, length).error
    ensures r.Ok? ==> r.value.value == payload(data, start, length).value.value
    ensures r.Ok? ==> r.value.next % 2 == 0 && start + length <= r.value.next
    ensures r.Ok? && payload(data, start, length).value.next <= start + length ==>
      r.value.next == AlignEven(start + length)
    ensures r.Ok? && payload(data, start, length).value.next > start + length ==>
      r.value.next == AlignEven(payload(data, start, length).value.next)
  {
    var d :- payload(data, start, length);
    Ok(Decoded(d.value, AlignEven(Max(d.next, start + length))))
  }

  /** A chunk: the 32-bit length, then the framed payload. */
  function DecodeChunk<D>(payload: Payload<D>, data: seq<u8>, pos: nat): (r: Result<Decoded<Chunk<D>>>)
    ensures pos + 4 > |data| ==> r == Err(Error(UnexpectedEof, pos))
    ensures pos + 4 <= |data| ==> (r.Ok? <==> payload(data, pos + 4, BE32(data, pos)).Ok?)
    ensures pos + 4 <= |data| && r.Err? ==> r.error == payload(data, pos + 4, BE32(data, pos)).error
    ensures r.Ok? ==> r.value.value.length == BE32(data, pos)
    ensures r.Ok? ==> r.value.value.data == payload(data, pos + 4, r.value.value.length).value.value
    ensures r.Ok? ==> pos + 4 + r.value.value.length <= r.value.next && r.value.next % 2 == 0
  {
    var len :- ReadU32(data, pos);
    var d :- Framed(payload, len.value, data, len.next);
    Ok(Decoded(Chunk(len.value, d.value), d.next))
  }

  /** A sub-chunk: the 16-bit length, widened for the payload, then the framed payload. */
  function DecodeSubChunk<D>(payload: Payload<D>, data: seq<u8>, pos: nat): (r: Result<Decoded<SubChunk<D>>>)
    ensures pos + 2 > |data| ==> r == Err(Error(UnexpectedEof, pos))
    ensures pos + 2 <= |data| ==> (r.Ok? <==> payload(data, pos + 2, BE16(data, pos)).Ok?)
    ensures pos + 2 <= |data| && r.Err? ==> r.error == payload(data, pos + 2, BE16(data, pos)).error
    ensures r.Ok? ==> r.value.value.length == BE16(data, pos)
    ensures r.Ok? ==> r.value.value.data == payload(data, pos + 2, r.value.value.length).value.value
    ensures r.Ok? ==> pos + 2 + r.value.value.length <= r.value.next && r.value.next % 2 == 0
  {
    var len :- ReadU16(data, pos);
    var d :- Framed(payload, len.value, data, len.next);
    Ok(Decoded(SubChunk(len.value, d.value), d.next))
  }

  /**
   * From an even offset, a chunk whose payload stays within its declared
   * length occupies exactly header, length and one pad byte when the length
   * is odd, whatever the payload read.
   */
  lemma ChunkExtent<D>(payload: Payload<D>, data: seq<u8>, pos: nat)
    requires pos % 2 == 0
    requires DecodeChunk(payload, data, pos).Ok?
    requires payload(data, pos + 4, BE32(data, pos)).value.next <= pos + 4 + BE32(data, pos)
    ensures DecodeChunk(payload, data, pos).value.next == pos + 4 + BE32(data, pos) + BE32(data, pos) % 2
  {
  }

  /** The same for a sub-chunk, with its 2-byte header. */
  lemma SubChunkExtent<D>(payload: Payload<D>, data: seq<u8>, pos: nat)
    requires pos % 2 == 0
    requires DecodeSubChunk(payload, data, pos).Ok?
    requires payload(data, pos + 2, BE16(data, pos)).value.next <= pos + 2 + BE16(data, pos)
    ensures DecodeSubChunk(payload, data, pos).value.next == pos + 2 + BE16(data, pos) + BE16(data, pos) % 2
  {
  }

  /** A payload that overruns its declared length is not rewound: the frame ends after it, aligned. */
  lemma OverrunKept<D>(payload: Payload<D>, data: seq<u8>, pos: nat)
    requires DecodeChunk(payload, data, pos).Ok?
    requires payload(data, pos + 4, BE32(data, pos)).value.next > pos + 4 + BE32(data, pos)
    ensures DecodeChunk(payload, data, pos).value.next == AlignEven(payload(data, pos + 4, BE32(data, pos)).value.next)
  {
  }

  /** A payload of one byte, whatever the declared length. */
  function OneByte(data: seq<u8>, pos: nat, length: u32): Result<Decoded<u8>>
  {
    ReadU8(data, pos)
  }

  /**
   * A sub-chunk declaring three bytes whose payload reads one byte takes
   * six bytes: two of header, three of payload, one of padding.
   */
  lemma SubChunkPadding(data: seq<u8>)
    requires |data| >= 6 && data[0] == 0 && data[1] == 3
    ensures DecodeSubChunk(OneByte, data, 0) == Ok(Decoded(SubChunk(3, data[2]), 6))
  {
    assert BE16(data, 0) == 3;
  }

  /** Dereferencing a decoded chunk gives what its payload decoder read. */
  lemma DerefIsPayload<D>(payload: Payload<D>, data: seq<u8>, pos: nat)
    requires DecodeChunk(payload, data, pos).Ok?
    ensures DecodeChunk(payload, data, pos).value.value.Deref() == payload(data, pos + 4, BE32(data, pos)).value.value
  {
  }

  /** Dereferencing a decoded sub-chunk gives what its payload decoder read. */
  lemma SubDerefIsPayload<D>(payload: Payload<D>, data: seq<u8>, pos: nat)
    requires DecodeSubChunk(payload, data, pos).Ok?
    ensures DecodeSubChunk(payload, data, pos).value.value.Deref() == payload(data, pos + 2, BE16(data, pos)).value.value
  {
  }

  /** A catalog variant holding a chunk: the magic, then `Chunk<D>` wrapped into the variant. */
  function ChunkEntry<D, V>(magic: Magic, payload: Payload<D>, variant: Chunk<D> -> V): (e: Entry<V>)
    ensures e.magic == magic
  {
    Entry(magic, (data: seq<u8>, pos: nat) => Wrap(DecodeChunk(payload, data, pos), variant))
  }

  /** A catalog variant holding a sub-chunk: the magic, then `SubChunk<D>` wrapped into the variant. */
  function SubChunkEntry<D, V>(magic: Magic, payload: Payload<D>, variant: SubChunk<D> -> V): (e: Entry<V>)
    ensures e.magic == magic
  {
    Entry(magic, (data: seq<u8>, pos: nat) => Wrap(DecodeSubChunk(payload, data, pos), variant))
  }
}
