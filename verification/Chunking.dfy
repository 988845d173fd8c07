/** How a file is cut into chunks: chunk_count of include/swiftlink/transfer/transfer.hpp and
    the offset and length computed by the fill loop of src/transfer/sender.cpp. */
module Chunking {
  import opened Common
  import opened Packets

  /** chunk_count. The sum is taken in 64 bits, so it can wrap. */
  function ChunkCount(fileSize: uint64, chunkSize: uint64): Option<uint32> {
    if chunkSize == 0 then None
    else
      var chunks := ((fileSize + chunkSize - 1) % TWO_64) / chunkSize;
      if chunks > 0xFFFF_FFFF then None else Some(chunks)
  }

  /** The number of chunks a file needs: the least n whose chunks reach its end. */
  ghost predicate Needs(fileSize: nat, chunkSize: nat, n: nat) {
    n * chunkSize >= fileSize && forall m: nat :: m < n ==> m * chunkSize < fileSize
  }

  function Offset(chunkSize: nat, k: nat): nat {
    k * chunkSize
  }

  function Length(fileSize: nat, chunkSize: nat, k: nat): nat
    requires Offset(chunkSize, k) <= fileSize
  {
    var remaining := fileSize - Offset(chunkSize, k);
    if remaining < chunkSize then remaining else chunkSize
  }

  lemma DivisionBounds(x: nat, c: nat)
    requires c > 0
    ensures (x / c) * c <= x < (x / c) * c + c
  {
  }

  lemma CeilingIsNeeded(fileSize: nat, chunkSize: nat)
    requires chunkSize > 0
    ensures Needs(fileSize, chunkSize, (fileSize + chunkSize - 1) / chunkSize)
  {
    var n := (fileSize + chunkSize - 1) / chunkSize;
    DivisionBounds(fileSize + chunkSize - 1, chunkSize);
    forall m: nat | m < n ensures m * chunkSize < fileSize {
      MulMonotone(m + 1, n, chunkSize);
      assert (m + 1) * chunkSize == m * chunkSize + chunkSize;
    }
  }

  lemma NeedsUnique(fileSize: nat, chunkSize: nat, m: nat, n: nat)
    requires Needs(fileSize, chunkSize, m) && Needs(fileSize, chunkSize, n)
    ensures m == n
  {
  }

  lemma SmallQuotient(x: nat, c: nat)
    requires x < c
    ensures x / c == 0
  {
  }

  /** The answer is the exact count, or a refusal above the 32-bit limit, if and only if the
      64-bit sum does not wrap; when it wraps, the answer is always zero chunks. */
  lemma ChunkCountExact(fileSize: uint64, chunkSize: uint64, n: nat)
    requires chunkSize > 0 && Needs(fileSize, chunkSize, n)
    ensures ChunkCount(fileSize, chunkSize) == (if n <= 0xFFFF_FFFF then Some(n) else None)
            <==> fileSize + chunkSize - 1 < TWO_64
    ensures fileSize + chunkSize - 1 >= TWO_64 ==> ChunkCount(fileSize, chunkSize) == Some(0) && n > 0
  {
    var sum := fileSize + chunkSize - 1;
    CeilingIsNeeded(fileSize, chunkSize);
    NeedsUnique(fileSize, chunkSize, n, sum / chunkSize);
    if sum >= TWO_64 {
      assert sum % TWO_64 == sum - TWO_64;
      SmallQuotient(sum - TWO_64, chunkSize);
    }
  }

  /** Wrapped or not, the sender never plans a chunk that starts past the end of the file. */
  lemma PlannedChunksExist(fileSize: uint64, chunkSize: uint64, k: nat)
    requires ChunkCount(fileSize, chunkSize).Some? && k < ChunkCount(fileSize, chunkSize).value
    ensures Offset(chunkSize, k) < fileSize
    ensures 0 < Length(fileSize, chunkSize, k) <= chunkSize
    ensures Offset(chunkSize, k) + Length(fileSize, chunkSize, k) <= fileSize
  {
    var sum := fileSize + chunkSize - 1;
    CeilingIsNeeded(fileSize, chunkSize);
    if sum >= TWO_64 {
      assert sum % TWO_64 == sum - TWO_64;
      SmallQuotient(sum - TWO_64, chunkSize);
    }
  }

  lemma ByteHasChunk(fileSize: nat, chunkSize: nat, n: nat, x: nat)
    requires chunkSize > 0 && Needs(fileSize, chunkSize, n) && x < fileSize
    ensures x / chunkSize < n && InChunk(fileSize, chunkSize, x / chunkSize, x)
  {
    DivisionBounds(x, chunkSize);
    if x / chunkSize >= n {
      MulMonotone(n, x / chunkSize, chunkSize);
    }
  }

  /** Every byte of the file lies in exactly one planned chunk. */
  lemma ChunksTile(fileSize: uint64, chunkSize: uint64, x: nat)
    requires chunkSize > 0 && fileSize + chunkSize - 1 < TWO_64
    requires ChunkCount(fileSize, chunkSize).Some? && x < fileSize
    ensures x / chunkSize < ChunkCount(fileSize, chunkSize).value
    ensures forall k: nat :: InChunk(fileSize, chunkSize, k, x) <==> k == x / chunkSize
  {
    CeilingIsNeeded(fileSize, chunkSize);
    ByteHasChunk(fileSize, chunkSize, ChunkCount(fileSize, chunkSize).value, x);
    hide InChunk;
    forall k: nat | InChunk(fileSize, chunkSize, k, x) ensures k == x / chunkSize {
      ChunksApart(fileSize, chunkSize, k, x / chunkSize, x);
    }
  }

  predicate InChunk(fileSize: nat, chunkSize: nat, k: nat, x: nat) {
    && Offset(chunkSize, k) <= fileSize
    && Offset(chunkSize, k) <= x < Offset(chunkSize, k) + Length(fileSize, chunkSize, k)
  }

  lemma OffsetsApart(chunkSize: nat, j: nat, k: nat)
    requires j < k
    ensures Offset(chunkSize, j) + chunkSize <= Offset(chunkSize, k)
  {
    MulMonotone(j + 1, k, chunkSize);
    assert (j + 1) * chunkSize == j * chunkSize + chunkSize;
  }

  lemma ChunksApart(fileSize: nat, chunkSize: nat, j: nat, k: nat, x: nat)
    requires InChunk(fileSize, chunkSize, j, x) && InChunk(fileSize, chunkSize, k, x)
    ensures j == k
  {
    if j < k {
      OffsetsApart(chunkSize, j, k);
    }
    if k < j {
      OffsetsApart(chunkSize, k, j);
    }
  }

  // ------------------------------------------------------------------------
  // Bytes stored, chunk by chunk
  // ------------------------------------------------------------------------

  /** Total length of the stored chunks among the first n. */
  function Stored(fileSize: nat, chunkSize: nat, stored: set<nat>, n: nat): nat {
    if n == 0 then 0
    else Stored(fileSize, chunkSize, stored, n - 1) +
         (if n - 1 in stored && Offset(chunkSize, n - 1) <= fileSize
          then Length(fileSize, chunkSize, n - 1) else 0)
  }

  lemma {:induction false} StoredNone(fileSize: nat, chunkSize: nat, n: nat)
    ensures Stored(fileSize, chunkSize, {}, n) == 0
  {
    if n > 0 {
      StoredNone(fileSize, chunkSize, n - 1);
    }
  }

  lemma {:induction false} StoredAdd(fileSize: nat, chunkSize: nat, stored: set<nat>, n: nat, k: nat)
    requires k !in stored && Offset(chunkSize, k) <= fileSize
    ensures Stored(fileSize, chunkSize, stored + {k}, n) ==
            Stored(fileSize, chunkSize, stored, n) + (if k < n then Length(fileSize, chunkSize, k) else 0)
  {
    if n > 0 {
      StoredAdd(fileSize, chunkSize, stored, n - 1, k);
    }
  }

  /** A stored total never passes the end of the n-th chunk, and reaches it only when no
      chunk is missing. */
  lemma {:induction false} StoredBound(fileSize: nat, chunkSize: nat, stored: set<nat>, n: nat)
    requires chunkSize > 0 && forall k: nat :: k < n ==> Offset(chunkSize, k) < fileSize
    ensures var end := if n * chunkSize < fileSize then n * chunkSize else fileSize;
            && Stored(fileSize, chunkSize, stored, n) <= end
            && (Stored(fileSize, chunkSize, stored, n) == end <==> forall k: nat :: k < n ==> k in stored)
  {
    if n > 0 {
      StoredBound(fileSize, chunkSize, stored, n - 1);
      assert Offset(chunkSize, n - 1) < fileSize;
      assert n * chunkSize == Offset(chunkSize, n - 1) + chunkSize;
      if Stored(fileSize, chunkSize, stored, n) == (if n * chunkSize < fileSize then n * chunkSize else fileSize) {
        assert n - 1 in stored;
      } else if forall k: nat :: k < n ==> k in stored {
        assert n - 1 in stored;
      }
    }
  }

  /** Stored lengths that add up to the file size leave out no chunk and no byte. */
  lemma FullyStored(fileSize: nat, chunkSize: nat, stored: set<nat>, n: nat, x: nat)
    requires chunkSize > 0 && forall k: nat :: k < n ==> Offset(chunkSize, k) < fileSize
    requires Stored(fileSize, chunkSize, stored, n) == fileSize && x < fileSize
    ensures x / chunkSize in stored && InChunk(fileSize, chunkSize, x / chunkSize, x)
  {
    StoredBound(fileSize, chunkSize, stored, n);
    OffsetsNeeded(fileSize, chunkSize, n);
    hide Offset, Length, Stored, Needs, InChunk;
    ByteHasChunk(fileSize, chunkSize, n, x);
  }

  lemma OffsetsNeeded(fileSize: nat, chunkSize: nat, n: nat)
    requires forall k: nat :: k < n ==> Offset(chunkSize, k) < fileSize
    requires n * chunkSize >= fileSize
    ensures Needs(fileSize, chunkSize, n)
  {
    forall m: nat | m < n ensures m * chunkSize < fileSize {
      assert Offset(chunkSize, m) < fileSize;
    }
  }

  /** Without 64-bit wrap, the planned chunks together are the whole file. */
  lemma AllChunksStored(fileSize: uint64, chunkSize: uint64, stored: set<nat>)
    requires chunkSize > 0 && fileSize + chunkSize - 1 < TWO_64 && ChunkCount(fileSize, chunkSize).Some?
    requires forall k: nat :: k < ChunkCount(fileSize, chunkSize).value ==> k in stored
    ensures Stored(fileSize, chunkSize, stored, ChunkCount(fileSize, chunkSize).value) == fileSize
  {
    var n := ChunkCount(fileSize, chunkSize).value;
    CeilingIsNeeded(fileSize, chunkSize);
    forall k: nat | k < n ensures Offset(chunkSize, k) < fileSize {
      PlannedChunksExist(fileSize, chunkSize, k);
    }
    StoredBound(fileSize, chunkSize, stored, n);
  }
}
