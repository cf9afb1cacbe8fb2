/** Uploading a message payload: the split into offset-tagged chunks, the on-chain
    buffer they are written to in any order, and the session that initialises the
    account, writes every chunk and commits. */
module PayloadUpload {
  import opened Basics

  datatype ChunkWithOffset = ChunkWithOffset(bytes: seq<byte>, offset: nat)

  function Min(a: nat, b: nat): nat { if a < b then a else b }

  // ---------------------------------------------------------------- chunking

  /** A slice's `chunks` iterator: full chunks, then a shorter last one. */
  function SliceChunks(data: seq<byte>, size: nat): seq<seq<byte>>
    requires size > 0
  {
    if data == [] then [] else [data[..Min(size, |data|)]] + SliceChunks(data[Min(size, |data|)..], size)
  }

  /** Chunks paired with index times chunk size, computed with saturation. */
  function ChunksWithOffset(data: seq<byte>, size: nat): (r: seq<ChunkWithOffset>)
    requires size > 0
    ensures |r| == |SliceChunks(data, size)|
  {
    var pieces := SliceChunks(data, size);
    seq(|pieces|, (i: nat) requires i < |pieces| => ChunkWithOffset(pieces[i], SaturatingMul(i, size)))
  }

  lemma MulSucc(i: nat, size: nat)
    ensures (i + 1) * size == i * size + size
  {
  }

  lemma SliceOfRest(data: seq<byte>, size: nat, from: nat)
    requires size <= |data| && from < |data| - size
    ensures data[size..][from..Min(from + size, |data| - size)] == data[from + size..Min(from + size + size, |data|)]
  {
  }

  lemma {:induction false} SliceChunkAt(data: seq<byte>, size: nat, i: nat)
    requires size > 0 && i < |SliceChunks(data, size)|
    ensures 0 <= i * size < |data|
    ensures SliceChunks(data, size)[i] == data[i * size..Min(i * size + size, |data|)]
    decreases i
  {
    if i == 0 {
    } else {
      SliceChunkAt(data[Min(size, |data|)..], size, i - 1);
      MulSucc(i - 1, size);
      SliceOfRest(data, size, (i - 1) * size);
    }
  }

  /** Each chunk is a non-empty piece of the payload at its exact offset: the
      saturating multiplication never saturates. */
  lemma ChunkAt(data: seq<byte>, size: nat, i: nat)
    requires size > 0 && |data| <= U64_MAX && i < |ChunksWithOffset(data, size)|
    ensures
      var c := ChunksWithOffset(data, size)[i];
      && c.offset == i * size && 0 < |c.bytes| <= size && c.offset + |c.bytes| <= |data|
      && c.bytes == data[c.offset..c.offset + |c.bytes|]
  {
    SliceChunkAt(data, size, i);
  }

  predicate Covers(c: ChunkWithOffset, k: nat) {
    c.offset <= k < c.offset + |c.bytes|
  }

  lemma {:induction false} CoveringSlice(data: seq<byte>, size: nat, k: nat) returns (i: nat)
    requires size > 0 && k < |data|
    ensures i < |SliceChunks(data, size)| && i * size <= k < i * size + |SliceChunks(data, size)[i]|
    decreases |data|
  {
    if k < size {
      i := 0;
    } else {
      i := CoveringSlice(data[size..], size, k - size);
      MulSucc(i, size);
      i := i + 1;
    }
  }

  /** The chunks cover the payload without overlap: exactly one of them covers a position. */
  lemma ChunksPartition(data: seq<byte>, size: nat, k: nat) returns (i: nat)
    requires size > 0 && |data| <= U64_MAX && k < |data|
    ensures i < |ChunksWithOffset(data, size)| && Covers(ChunksWithOffset(data, size)[i], k)
    ensures forall j: nat :: j < |ChunksWithOffset(data, size)| && Covers(ChunksWithOffset(data, size)[j], k) ==> j == i
  {
    var cs := ChunksWithOffset(data, size);
    i := CoveringSlice(data, size, k);
    ChunkAt(data, size, i);
    forall j: nat | j < |cs| && Covers(cs[j], k)
      ensures j == i
    {
      ChunkAt(data, size, j);
      if j < i {
        MulSucc(j, size);
        MulMonotone(j + 1, size, i, size);
      } else if i < j {
        MulSucc(i, size);
        MulMonotone(i + 1, size, j, size);
      }
    }
  }

  // ---------------------------------------------------------------- reassembly

  /** An in-bounds write into the on-chain buffer. */
  function Splice(buffer: seq<byte>, c: ChunkWithOffset): (r: seq<byte>)
    requires c.offset + |c.bytes| <= |buffer|
    ensures |r| == |buffer|
    ensures forall k :: 0 <= k < |r| ==> r[k] == if Covers(c, k) then c.bytes[k - c.offset] else buffer[k]
  {
    buffer[..c.offset] + c.bytes + buffer[c.offset + |c.bytes|..]
  }

  /** Writes the chunks named by `order`, in that order. */
  function ApplyWrites(data: seq<byte>, size: nat, buffer: seq<byte>, order: seq<nat>): (r: seq<byte>)
    requires size > 0 && |data| <= U64_MAX && |buffer| == |data|
    requires forall j :: 0 <= j < |order| ==> order[j] < |ChunksWithOffset(data, size)|
    ensures |r| == |data|
    decreases |order|
  {
    if order == [] then buffer else
    ChunkAt(data, size, order[|order| - 1]);
    Splice(ApplyWrites(data, size, buffer, order[..|order| - 1]), ChunksWithOffset(data, size)[order[|order| - 1]])
  }

  /** Whatever the order and repetitions of the writes, a position holds the payload's
      byte once a chunk covering it was written, and its old byte before that. */
  lemma {:induction false} PartialReassembly(data: seq<byte>, size: nat, buffer: seq<byte>, order: seq<nat>, k: nat)
    requires size > 0 && |data| <= U64_MAX && |buffer| == |data| && k < |data|
    requires forall j :: 0 <= j < |order| ==> order[j] < |ChunksWithOffset(data, size)|
    ensures ApplyWrites(data, size, buffer, order)[k]
         == if exists i :: i in order && Covers(ChunksWithOffset(data, size)[i], k) then data[k] else buffer[k]
    decreases |order|
  {
    hide ChunksWithOffset, SliceChunks;
    if order == [] {
    } else {
      var last, before := order[|order| - 1], order[..|order| - 1];
      PartialReassembly(data, size, buffer, before, k);
      ChunkAt(data, size, last);
      assert order == before + [last];
    }
  }

  /** Once every chunk was written at least once, the buffer is the payload. */
  lemma Reassembly(data: seq<byte>, size: nat, buffer: seq<byte>, order: seq<nat>)
    requires size > 0 && |data| <= U64_MAX && |buffer| == |data|
    requires forall j :: 0 <= j < |order| ==> order[j] < |ChunksWithOffset(data, size)|
    requires forall i: nat :: i < |ChunksWithOffset(data, size)| ==> i in order
    ensures ApplyWrites(data, size, buffer, order) == data
  {
    forall k: nat | k < |data|
      ensures ApplyWrites(data, size, buffer, order)[k] == data[k]
    {
      var i := ChunksPartition(data, size, k);
      PartialReassembly(data, size, buffer, order, k);
    }
  }
}
