// hash_buffer_hex: a buffer is fed to SHA-1 in chunks (src/libtools/files/file.cc:24-47, 101-125).
// A chunk's size comes from the same formula as the size of a part of a file.
module Hashing {
  import B = Binary32
  import opened Parts

  const MEGABYTE: nat := 1000000

  function PartsFor(size: nat): (r: nat)
    ensures r > 0 && (size < MEGABYTE ==> r == 1)
    ensures size >= MEGABYTE ==> r * MEGABYTE <= size < (r + 1) * MEGABYTE
  {
    if size < MEGABYTE then 1 else size / MEGABYTE
  }

  // An SHA_CTX: only what it has absorbed matters.
  class Context {
    var absorbed: seq<int>

    constructor ()
      ensures absorbed == []
    {
      absorbed := [];
    }

    method Update(bytes: seq<int>)
      modifies this
      ensures absorbed == old(absorbed) + bytes
    {
      absorbed := absorbed + bytes;
    }
  }

  // The bytes that end up in the hash, when every chunk lies in the buffer.
  function Absorbed(buffer: seq<int>, parts: nat, c: nat): seq<int> {
    if parts * c <= |buffer| then buffer[..parts * c] else buffer
  }

  // The loop.  `outside` reports a chunk that reaches beyond the buffer; the code has no such test,
  // and would read there.
  method HashBuffer(buffer: seq<int>, c: nat, context: Context) returns (outside: bool)
    requires context.absorbed == [] && |buffer| < WORD && PartsFor(|buffer|) * c < WORD
    modifies context
    ensures outside <==> (PartsFor(|buffer|) - 1) * c > |buffer|
    ensures !outside ==> context.absorbed == Absorbed(buffer, PartsFor(|buffer|), c)
  {
    var size, parts := |buffer|, PartsFor(|buffer|);
    var i := 0;
    outside := false;
    while i < parts
      invariant i <= parts
      invariant i < parts ==> i * c <= size && context.absorbed == buffer[..i * c]
      invariant i == parts ==> (parts - 1) * c <= size && context.absorbed == Absorbed(buffer, parts, c)
    {
      var hashSize := PartSize(size, i, parts, c);
      var offset := i * c;
      ChunkAt(size, parts, c, i);
      if offset + hashSize > size {
        outside := true;
        return;
      }
      context.Update(buffer[offset..offset + hashSize]);
      assert buffer[..offset] + buffer[offset..offset + hashSize] == buffer[..offset + hashSize];
      i := i + 1;
    }
  }

  // Where chunk i ends.
  lemma ChunkAt(size: nat, parts: nat, c: nat, i: nat)
    requires i < parts && size < WORD && parts * c < WORD && i * c <= size
    ensures var end := i * c + PartSize(size, i, parts, c);
            && (end > size ==> (parts - 1) * c > size)
            && (end <= size && i + 1 < parts ==> end == (i + 1) * c)
            && (end <= size && i + 1 == parts ==>
                (parts - 1) * c <= size && end == if parts * c <= size then parts * c else size)
  {
    LastSize(size, parts, c);
    NextChunk(i, parts, c);
    if i + 1 < parts { OtherSize(size, i, parts, c); }
  }

  lemma NextChunk(i: nat, parts: nat, c: nat)
    requires i < parts
    ensures (i + 1) * c == i * c + c && (i + 1 < parts ==> (i + 1) * c <= (parts - 1) * c) && i * c <= (parts - 1) * c
  {
    MulMono(i, parts - 1, c);
    if i + 1 < parts { MulMono(i + 1, parts - 1, c); }
  }

  // The chunks tile the buffer: nothing outside it, no gap and no overlap.
  ghost predicate Tiles(size: nat, parts: nat, c: nat) {
    && parts > 0
    && (forall i :: 0 <= i < parts ==> i * c + PartSize(size, i, parts, c) <= size)
    && (forall p :: 0 <= p < size ==> InSomeChunk(size, parts, c, p))
    && (forall i, j, p :: 0 <= i < j < parts ==> !(InChunk(size, i, parts, c, p) && InChunk(size, j, parts, c, p)))
  }

  ghost predicate InSomeChunk(size: nat, parts: nat, c: nat, p: nat) {
    exists i: nat :: i < parts && InChunk(size, i, parts, c, p)
  }

  predicate InChunk(size: nat, i: nat, parts: nat, c: nat, p: nat) {
    i * c <= p < i * c + PartSize(size, i, parts, c)
  }

  lemma ChunkSizes(size: nat, parts: nat, c: nat, i: nat)
    requires i < parts && parts * c < WORD && size < WORD && (parts - 1) * c <= size
    ensures PartSize(size, i, parts, c) <= c && i * c + PartSize(size, i, parts, c) <= size
    ensures i + 1 < parts ==> PartSize(size, i, parts, c) == c
  {
    LastSize(size, parts, c);
    NextChunk(i, parts, c);
    if i + 1 < parts { OtherSize(size, i, parts, c); }
  }

  lemma TilesWhen(size: nat, parts: nat, c: nat)
    requires parts > 0 && parts * c < WORD && size < WORD && (parts - 1) * c <= size <= parts * c
    ensures Tiles(size, parts, c)
  {
    LastSize(size, parts, c);
    forall i | 0 <= i < parts ensures i * c + PartSize(size, i, parts, c) <= size { ChunkSizes(size, parts, c, i); }
    forall p | 0 <= p < size ensures InSomeChunk(size, parts, c, p) {
      var i := ChunkOf(size, parts, c, p);
    }
    forall i, j, p | 0 <= i < j < parts ensures !(InChunk(size, i, parts, c, p) && InChunk(size, j, parts, c, p)) {
      ChunkSizes(size, parts, c, i);
      MulMono(i + 1, j, c);
      NextChunk(i, parts, c);
    }
  }

  lemma ChunkOf(size: nat, parts: nat, c: nat, p: nat) returns (i: nat)
    requires parts > 0 && parts * c < WORD && size < WORD && (parts - 1) * c <= size <= parts * c && p < size
    ensures i < parts && InChunk(size, i, parts, c, p)
  {
    LastSize(size, parts, c);
    i := PartOf(parts, c, p);
    if i + 1 < parts { OtherSize(size, i, parts, c); }
  }

  // The chunks tile the buffer, and so the incremental hash is the hash of the whole buffer, exactly
  // when the last chunk begins inside the buffer and all chunks together reach its end.
  lemma TilesIff(size: nat, parts: nat, c: nat)
    requires parts > 0 && parts * c < WORD && size < WORD
    ensures Tiles(size, parts, c) <==> (parts - 1) * c <= size <= parts * c
  {
    LastSize(size, parts, c);
    if (parts - 1) * c <= size <= parts * c {
      TilesWhen(size, parts, c);
    } else if Tiles(size, parts, c) {
      LastChunkEnds(size, parts, c);
    }
  }

  lemma LastChunkEnds(size: nat, parts: nat, c: nat)
    requires parts > 0 && parts * c < WORD && size < WORD && Tiles(size, parts, c)
    ensures (parts - 1) * c <= size <= parts * c
  {
    LastSize(size, parts, c);
    assert (parts - 1) * c + PartSize(size, parts - 1, parts, c) <= size;
    if size > 0 {
      assert InSomeChunk(size, parts, c, size - 1);
      var i: nat :| i < parts && InChunk(size, i, parts, c, size - 1);
      ChunkSizes(size, parts, c, i);
      NextChunk(i, parts, c);
    }
  }

  // With the exact quotient rounded up this holds for every size below 10^12: there are then no
  // more chunks than bytes in a chunk.
  lemma TilesBelow10To12(size: nat, c: nat)
    requires size < 1000000000000 && RoundedUp(c, size, PartsFor(size))
    ensures PartsFor(size) * c < WORD && Tiles(size, PartsFor(size), c)
  {
    var parts := PartsFor(size);
    RoundedDistance(size, parts, c);
    if size >= MEGABYTE {
      if c < MEGABYTE { MulMono(c, MEGABYTE - 1, parts); }
    }
    TilesIff(size, parts, c);
  }

  lemma RoundedDistance(size: nat, parts: nat, c: nat)
    requires parts > 0 && RoundedUp(c, size, parts)
    ensures size <= parts * c && (c > 0 ==> parts * c < size + parts)
    ensures parts - 1 <= c || c == 0 ==> (parts - 1) * c <= size
  {
    assert (parts - 1) * c == parts * c - c;
    if c > 0 { assert parts * (c - 1) == parts * c - parts; }
  }

  // With the quotient the code computes, in floats: a buffer below 16 MiB is hashed to its end.
  lemma SmallBuffersAreHashed(buffer: seq<int>, c: nat)
    requires |buffer| < B.PRECISION && B.FloatCeil(|buffer|, PartsFor(|buffer|), c)
    ensures PartsFor(|buffer|) * c < WORD && Tiles(|buffer|, PartsFor(|buffer|), c)
    ensures (PartsFor(|buffer|) - 1) * c <= |buffer| && Absorbed(buffer, PartsFor(|buffer|), c) == buffer
  {
    var size := |buffer|;
    B.SmallSizesAreExact(size, PartsFor(size), c);
    TilesBelow10To12(size, c);
    TilesIff(size, PartsFor(size), c);
    if PartsFor(size) * c == size { assert buffer[..size] == buffer; }
  }

  // Beyond that it need not be: the chunks of this buffer end before its last byte, so the hash does
  // not depend on it,
  lemma LastByteNotHashed(buffer: seq<int>) returns (c: nat)
    requires |buffer| == 64640001
    ensures B.FloatCeil(|buffer|, PartsFor(|buffer|), c)
        && forall d: nat :: B.FloatCeil(|buffer|, PartsFor(|buffer|), d) ==> d == c
    ensures PartsFor(|buffer|) * c == 64640000 && !Tiles(|buffer|, PartsFor(|buffer|), c)
    ensures Absorbed(buffer, PartsFor(|buffer|), c) == buffer[..64640000]
  {
    c := B.FloatCeilExists(64640001, 64);
    forall d: nat | B.FloatCeil(64640001, 64, d) ensures d == 1010000 { B.ChunksTooShort(d); }
    TilesIff(64640001, 64, 1010000);
  }

  // and the last chunk of this one begins outside it; its size wraps around.
  lemma LastChunkOutside(size: nat) returns (c: nat)
    requires size == 2000000500000
    ensures B.FloatCeil(size, PartsFor(size), c) && forall d: nat :: B.FloatCeil(size, PartsFor(size), d) ==> d == c
    ensures PartsFor(size) * c < WORD && (PartsFor(size) - 1) * c > size && !Tiles(size, PartsFor(size), c)
    ensures PartSize(size, PartsFor(size) - 1, PartsFor(size), c) > size
  {
    c := B.FloatCeilExists(size, 2000000);
    forall d: nat | B.FloatCeil(size, 2000000, d) ensures d == 1000001 { B.ChunksTooLong(d); }
    TilesIff(size, 2000000, 1000001);
    LastSize(size, 2000000, 1000001);
  }
}
