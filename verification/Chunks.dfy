/** Cutting an input into chunks, and finding the chunks an account does not hold yet (utils.ts). */
module Chunking {
  import opened Basics

  const CHUNK_SIZE: nat := 500

  datatype Chunk = Chunk(offset: nat, data: bytes)

  /** `slice(j * size, j * size + size)`: both ends are cut off at the end of the input. */
  function Piece(b: bytes, size: nat, j: nat): bytes {
    b[Min(j * size, |b|)..Min(j * size + size, |b|)]
  }

  /** Chunk j starts at j times the chunk size; the last one ends where the input does, and none is empty. */
  ghost predicate IsChunking(chunks: seq<Chunk>, b: bytes, size: nat) {
    && |b| <= |chunks| * size
    && (chunks != [] ==> (|chunks| - 1) * size < |b|)
    && forall j :: 0 <= j < |chunks| ==> chunks[j] == Chunk(j, Piece(b, size, j))
  }

  function Joined(chunks: seq<Chunk>): bytes {
    if chunks == [] then [] else Joined(chunks[..|chunks| - 1]) + chunks[|chunks| - 1].data
  }

  lemma {:induction false} PrefixJoined(chunks: seq<Chunk>, b: bytes, size: nat, n: nat)
    requires n <= |chunks| && forall j :: 0 <= j < |chunks| ==> chunks[j] == Chunk(j, Piece(b, size, j))
    ensures Joined(chunks[..n]) == b[..Min(n * size, |b|)]
  {
    hide Piece;
    if n > 0 {
      PrefixJoined(chunks, b, size, n - 1);
      assert chunks[..n][..n - 1] == chunks[..n - 1];
      NextPiece(b, size, n - 1);
    }
  }

  lemma NextPiece(b: bytes, size: nat, n: nat)
    ensures b[..Min(n * size, |b|)] + Piece(b, size, n) == b[..Min((n + 1) * size, |b|)]
  {
    var i := n * size;
    assert (n + 1) * size == i + size;
  }

  /** Put together, the chunks are the input. */
  lemma ChunksJoin(chunks: seq<Chunk>, b: bytes, size: nat)
    requires IsChunking(chunks, b, size)
    ensures Joined(chunks) == b
  {
    PrefixJoined(chunks, b, size, |chunks|);
    assert chunks[..|chunks|] == chunks && b[..|b|] == b;
  }

  method RetrieveChunks(b: bytes, chunkSize: nat) returns (chunks: seq<Chunk>)
    requires chunkSize > 0
    ensures IsChunking(chunks, b, chunkSize)
  {
    chunks := [];
    var offset := 0;
    var i := 0;
    while i < |b|
      invariant i == offset * chunkSize
      invariant |chunks| == offset
      invariant offset > 0 ==> i - chunkSize < |b|
      invariant forall j :: 0 <= j < offset ==> chunks[j] == Chunk(j, Piece(b, chunkSize, j))
      decreases |b| - i
    {
      chunks := chunks + [Chunk(offset, b[i..Min(i + chunkSize, |b|)])];
      offset := offset + 1;
      i := i + chunkSize;
    }
  }

  // ---------------------------------------------------------------- comparison

  /** How many chunks of the upload's size an input has. */
  function ChunkCount(n: nat): nat {
    (n + CHUNK_SIZE - 1) / CHUNK_SIZE
  }

  lemma ChunkingCount(chunks: seq<Chunk>, b: bytes)
    requires IsChunking(chunks, b, CHUNK_SIZE)
    ensures |chunks| == ChunkCount(|b|)
    ensures forall j :: 0 <= j < |chunks| ==> chunks[j] == Chunk(j, Piece(b, CHUNK_SIZE, j))
  {
    hide Piece;
  }

  /** The first `n` chunks of `expected` less those that `actual` holds at the same place. */
  function Differing(expected: bytes, actual: bytes, n: nat): seq<Chunk> {
    if n == 0 then []
    else
      var piece := Piece(expected, CHUNK_SIZE, n - 1);
      Differing(expected, actual, n - 1)
      + (if piece != Piece(actual, CHUNK_SIZE, n - 1) then [Chunk(n - 1, piece)] else [])
  }

  /** The comparison of an account that does not exist has no result; one that asks for a chunk the account does not
      have ends in an exception. */
  datatype Comparison = Missing | OutOfRange | Differences(chunks: seq<Chunk>)

  method CompareChunkSets(expected: bytes, account: Option<bytes>) returns (diff: Comparison)
    ensures diff == match account
                    case None => Missing
                    case Some(actual) =>
                      if ChunkCount(|actual|) < ChunkCount(|expected|) then OutOfRange
                      else Differences(Differing(expected, actual, ChunkCount(|expected|)))
  {
    if account.None? {
      return Missing;
    }
    var actual := account.value;
    hide ChunkCount, Piece, IsChunking;
    var chunks := RetrieveChunks(expected, CHUNK_SIZE);
    var accountChunks := RetrieveChunks(actual, CHUNK_SIZE);
    ChunkingCount(chunks, expected);
    ChunkingCount(accountChunks, actual);
    var diffChunks := [];
    for i := 0 to |chunks|
      invariant i <= |accountChunks|
      invariant diffChunks == Differing(expected, actual, i)
    {
      if i >= |accountChunks| {
        return OutOfRange;
      }
      if chunks[i].data != accountChunks[i].data {
        diffChunks := diffChunks + [chunks[i]];
      }
    }
    return Differences(diffChunks);
  }

  /** An account at least as long as the input has all the chunks the comparison asks for. */
  lemma LongEnoughCompares(expected: bytes, actual: bytes)
    requires |actual| >= |expected|
    ensures ChunkCount(|actual|) >= ChunkCount(|expected|)
  {
  }

  /** Pieces of `expected` before piece `n`, in order. */
  ghost predicate ArePieces(d: seq<Chunk>, expected: bytes, n: nat) {
    && (forall c :: c in d ==> c.offset < n && c.data == Piece(expected, CHUNK_SIZE, c.offset))
    && (forall k, l :: 0 <= k < l < |d| ==> d[k].offset < d[l].offset)
  }

  lemma OneMorePiece(d: seq<Chunk>, expected: bytes, n: nat)
    requires ArePieces(d, expected, n)
    ensures ArePieces(d, expected, n + 1)
    ensures ArePieces(d + [Chunk(n, Piece(expected, CHUNK_SIZE, n))], expected, n + 1)
  {
    hide Piece;
    assert forall k :: 0 <= k < |d| ==> d[k] in d;
  }

  /** Every chunk that is kept is a piece of the input, and none is kept twice. */
  lemma {:induction false} DifferingArePieces(expected: bytes, actual: bytes, n: nat)
    ensures ArePieces(Differing(expected, actual, n), expected, n)
  {
    hide Piece, ArePieces;
    if n == 0 {
      assert ArePieces([], expected, 0) by { NoPieces(expected); }
    } else {
      DifferingArePieces(expected, actual, n - 1);
      var d := Differing(expected, actual, n - 1);
      OneMorePiece(d, expected, n - 1);
      assert d + [] == d;
    }
  }

  lemma NoPieces(expected: bytes)
    ensures ArePieces([], expected, 0)
  {
  }

  /** Exactly the chunks that differ are kept. */
  lemma {:induction false} DifferingAreAll(expected: bytes, actual: bytes, n: nat, j: nat)
    requires j < n
    ensures Chunk(j, Piece(expected, CHUNK_SIZE, j)) in Differing(expected, actual, n)
       <==> Piece(expected, CHUNK_SIZE, j) != Piece(actual, CHUNK_SIZE, j)
  {
    hide Piece;
    var d, x := Differing(expected, actual, n - 1), Chunk(j, Piece(expected, CHUNK_SIZE, j));
    if j < n - 1 {
      DifferingAreAll(expected, actual, n - 1, j);
      assert x in Differing(expected, actual, n) <==> x in d;
    } else {
      assert x !in d by { DifferingArePieces(expected, actual, n - 1); }
    }
  }

  /** Nothing differs from itself. */
  lemma {:induction false} NothingDiffers(b: bytes, n: nat)
    ensures Differing(b, b, n) == []
  {
    if n > 0 {
      NothingDiffers(b, n - 1);
    }
  }

  // ---------------------------------------------------------------- what it finds, in bytes

  /** The bytes from 500 times `j` on, up to the next multiple of 500 or the end. */
  function Slot(b: bytes, j: nat): bytes
    requires 500 * j <= |b|
  {
    if 500 * j + 500 <= |b| then b[500 * j..500 * j + 500] else b[500 * j..]
  }

  /** Both go as far as place `j`, and do not hold the same there. */
  predicate DiffersAt(input: bytes, data: bytes, j: nat) {
    500 * j < |input| && 500 * j < |data| && Slot(input, j) != Slot(data, j)
  }

  /** Just the places where they differ, in ascending order. */
  ghost predicate AreDifferences(places: seq<nat>, input: bytes, data: bytes) {
    && (forall i, j :: 0 <= i < j < |places| ==> places[i] < places[j])
    && (forall j: nat :: j in places <==> DiffersAt(input, data, j))
  }

  function Offsets(chunks: seq<Chunk>): seq<nat> {
    seq(|chunks|, i requires 0 <= i < |chunks| => chunks[i].offset)
  }

  lemma PieceIsSlot(b: bytes, j: nat)
    requires 500 * j <= |b|
    ensures Piece(b, CHUNK_SIZE, j) == Slot(b, j)
  {
  }

  lemma FoundDiffers(input: bytes, data: bytes, k: nat)
    requires ChunkCount(|input|) <= ChunkCount(|data|) && k < |Differing(input, data, ChunkCount(|input|))|
    ensures var x := Differing(input, data, ChunkCount(|input|))[k];
            && DiffersAt(input, data, x.offset) && 500 * x.offset < |input| && x.data == Slot(input, x.offset)
  {
    var n := ChunkCount(|input|);
    var d := Differing(input, data, n);
    DifferingArePieces(input, data, n);
    hide Differing, Piece, Slot;
    assert d[k] in d;
    DifferingAreAll(input, data, n, d[k].offset);
    PieceIsSlot(input, d[k].offset);
    PieceIsSlot(data, d[k].offset);
  }

  lemma DifferenceFound(input: bytes, data: bytes, j: nat)
    requires DiffersAt(input, data, j)
    ensures j in Offsets(Differing(input, data, ChunkCount(|input|)))
  {
    var n := ChunkCount(|input|);
    var d := Differing(input, data, n);
    DifferingAreAll(input, data, n, j);
    PieceIsSlot(input, j);
    PieceIsSlot(data, j);
    hide Differing, Piece, Slot;
    var k :| 0 <= k < |d| && d[k] == Chunk(j, Piece(input, CHUNK_SIZE, j));
    assert Offsets(d)[k] == j;
  }

  lemma OffsetsAscend(input: bytes, data: bytes, n: nat)
    ensures var o := Offsets(Differing(input, data, n)); forall k, l :: 0 <= k < l < |o| ==> o[k] < o[l]
  {
    DifferingArePieces(input, data, n);
    hide Differing, Piece;
  }

  /** The comparison finds just the places that differ, and takes the input's bytes there. */
  lemma DifferencesFound(input: bytes, data: bytes)
    requires ChunkCount(|input|) <= ChunkCount(|data|)
    ensures var d := Differing(input, data, ChunkCount(|input|));
            && AreDifferences(Offsets(d), input, data)
            && forall k :: 0 <= k < |d| ==> 500 * d[k].offset < |input| && d[k].data == Slot(input, d[k].offset)
  {
    hide Differing, Piece, Slot, ChunkCount, DiffersAt;
    var d := Differing(input, data, ChunkCount(|input|));
    OffsetsAscend(input, data, ChunkCount(|input|));
    forall k | 0 <= k < |d|
      ensures DiffersAt(input, data, d[k].offset) && 500 * d[k].offset < |input|
      ensures d[k].data == Slot(input, d[k].offset)
    {
      FoundDiffers(input, data, k);
    }
    forall j: nat ensures j in Offsets(d) <==> DiffersAt(input, data, j) {
      if DiffersAt(input, data, j) {
        DifferenceFound(input, data, j);
      }
    }
  }

  /** Places in ascending order are as many as there are different ones. */
  lemma {:induction false} AscendingCount(places: seq<nat>)
    requires forall i, j :: 0 <= i < j < |places| ==> places[i] < places[j]
    ensures |Elements(places)| == |places|
  {
    if places != [] {
      var n := |places| - 1;
      AscendingCount(places[..n]);
      assert places == places[..n] + [places[n]];
      assert Elements(places) == Elements(places[..n]) + {places[n]};
    }
  }

  lemma DifferencesCount(places: seq<nat>, input: bytes, data: bytes)
    requires AreDifferences(places, input, data)
    ensures |places| == |set j: nat | j < |input| && DiffersAt(input, data, j)|
  {
    hide Slot;
    AscendingCount(places);
    assert Elements(places) == set j: nat | j < |input| && DiffersAt(input, data, j);
  }
}
