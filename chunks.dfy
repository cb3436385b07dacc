/**
 * The chunk tiling shared by both chunked drivers: a loop over i = 0, C, 2C, ...
 * while i < N, each step covering min(C, N - i) elements from offset i.
 */
module Chunking {

  /** Longest run one inner kernel call sums: 2^24 elements. */
  const CHUNK_SIZE: nat := 16777216

  /** One inner call: the kernel is applied to [start, start + len). */
  datatype Chunk = Chunk(start: int, len: int)

  function Min(x: int, y: int): int
  {
    if x <= y then x else y
  }

  /** ceil(n / CHUNK_SIZE), and 0 for n <= 0. */
  function CeilDiv(n: int): nat
  {
    if n <= 0 then 0 else (n + CHUNK_SIZE - 1) / CHUNK_SIZE
  }

  /** The chunks the driver loop visits from offset i on, in order. */
  function ChunksFrom(n: int, i: int): seq<Chunk>
    decreases n - i
  {
    if i >= n then []
    else [Chunk(i, if n - i > CHUNK_SIZE then CHUNK_SIZE else n - i)] + ChunksFrom(n, i + CHUNK_SIZE)
  }

  /** The chunks a driver visits for a vector of length n. */
  function ChunkPlan(n: int): seq<Chunk>
  {
    ChunksFrom(n, 0)
  }

  /** One driver step at offset i < n records the chunk starting at i and moves on by C. */
  lemma VisitStep(visited: seq<Chunk>, n: int, i: int)
    requires i < n
    ensures visited + ChunksFrom(n, i)
         == (visited + [Chunk(i, if n - i > CHUNK_SIZE then CHUNK_SIZE else n - i)]) + ChunksFrom(n, i + CHUNK_SIZE)
  {
  }

  lemma CeilDivStep(x: int)
    requires x > 0
    ensures CeilDiv(x) == 1 + CeilDiv(x - CHUNK_SIZE)
  {
  }

  /** The k-th chunk from offset i starts k chunks further on; there are ceil((n - i) / C) of them. */
  lemma {:induction false} ChunksFromShape(n: int, i: int)
    ensures |ChunksFrom(n, i)| == CeilDiv(n - i)
    ensures forall k :: 0 <= k < |ChunksFrom(n, i)| ==>
              ChunksFrom(n, i)[k] == Chunk(i + k * CHUNK_SIZE, Min(CHUNK_SIZE, n - i - k * CHUNK_SIZE))
    decreases n - i
  {
    if i < n {
      ChunksFromShape(n, i + CHUNK_SIZE);
      CeilDivStep(n - i);
      var cs := ChunksFrom(n, i);
      var rest := ChunksFrom(n, i + CHUNK_SIZE);
      assert cs == [Chunk(i, Min(CHUNK_SIZE, n - i))] + rest;
      forall k | 0 <= k < |cs|
        ensures cs[k] == Chunk(i + k * CHUNK_SIZE, Min(CHUNK_SIZE, n - i - k * CHUNK_SIZE))
      {
        if k > 0 {
          assert cs[k] == rest[k - 1];
        }
      }
    }
  }

  /**
   * The driver visits ceil(n / C) chunks; chunk k starts at k * C; every chunk
   * has a length in 1..C; all but the last have length exactly C, and the last
   * one ends at n.
   */
  lemma ChunkPlanShape(n: int)
    ensures |ChunkPlan(n)| == CeilDiv(n)
    ensures n > 0 ==> (|ChunkPlan(n)| - 1) * CHUNK_SIZE < n <= |ChunkPlan(n)| * CHUNK_SIZE
    ensures forall k :: 0 <= k < |ChunkPlan(n)| ==>
              && ChunkPlan(n)[k].start == k * CHUNK_SIZE
              && 1 <= ChunkPlan(n)[k].len <= CHUNK_SIZE
              && ChunkPlan(n)[k].start + ChunkPlan(n)[k].len <= n
              && (k < |ChunkPlan(n)| - 1 ==> ChunkPlan(n)[k].len == CHUNK_SIZE)
              && (k == |ChunkPlan(n)| - 1 ==> ChunkPlan(n)[k].start + ChunkPlan(n)[k].len == n)
  {
    ChunksFromShape(n, 0);
    var p := ChunkPlan(n);
    if n > 0 {
      var q := |p|;
      assert q == (n + CHUNK_SIZE - 1) / CHUNK_SIZE;
      assert (q - 1) * CHUNK_SIZE < n <= q * CHUNK_SIZE;
    }
  }

  /**
   * The chunks tile [0, n) with no gap and no overlap: the first starts at 0,
   * consecutive chunks meet, and the chunk starts are exactly the multiples of
   * C below n.
   */
  lemma ChunkPlanTiles(n: int)
    ensures n > 0 ==> |ChunkPlan(n)| > 0 && ChunkPlan(n)[0].start == 0
    ensures forall k :: 0 <= k < |ChunkPlan(n)| - 1 ==>
              ChunkPlan(n)[k + 1].start == ChunkPlan(n)[k].start + ChunkPlan(n)[k].len
    ensures forall s :: 0 <= s < n && s % CHUNK_SIZE == 0 ==>
              s / CHUNK_SIZE < |ChunkPlan(n)| && ChunkPlan(n)[s / CHUNK_SIZE].start == s
    ensures forall k :: 0 <= k < |ChunkPlan(n)| ==>
              ChunkPlan(n)[k].start % CHUNK_SIZE == 0 && 0 <= ChunkPlan(n)[k].start < n
  {
    ChunkPlanShape(n);
    var p := ChunkPlan(n);
    forall s | 0 <= s < n && s % CHUNK_SIZE == 0
      ensures s / CHUNK_SIZE < |p| && p[s / CHUNK_SIZE].start == s
    {
      assert s == (s / CHUNK_SIZE) * CHUNK_SIZE;
    }
  }

  /** Each index x in [0, n) lies in chunk x / C and in no other chunk. */
  lemma ChunkContaining(n: int, x: int)
    requires 0 <= x < n
    ensures x / CHUNK_SIZE < |ChunkPlan(n)|
    ensures forall k :: 0 <= k < |ChunkPlan(n)| ==>
              (ChunkPlan(n)[k].start <= x < ChunkPlan(n)[k].start + ChunkPlan(n)[k].len <==> k == x / CHUNK_SIZE)
  {
    ChunkPlanShape(n);
    var p := ChunkPlan(n);
    forall k | 0 <= k < |p|
      ensures p[k].start <= x < p[k].start + p[k].len <==> k == x / CHUNK_SIZE
    {
      if k < |p| - 1 {
        assert p[k].start + p[k].len == (k + 1) * CHUNK_SIZE;
      } else {
        assert p[k].start + p[k].len == n;
      }
    }
  }
}
