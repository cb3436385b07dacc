/**
 * svw2112/dp2.c: the 4-way unrolled kernel, its chunked driver, the size
 * dispatch and the measurement loop. Element values are exact integers (the
 * program sums floats); the C pointer offset `pA + i` is the index offset `off`.
 *
 * The unrolled loop steps j = 0, 4, 8, ... while j < N and reads j .. j + 3 on
 * every step, so it reads the indices [0, Padded(N)), where Padded(N) is N
 * rounded up to a multiple of 4: up to three elements past the end when
 * N % 4 != 0.
 */
module Dp2 {
  import opened DotProduct
  import opened Chunking
  import opened WarmUp
  import Vectors

  /** The C `int` of the loop counter `j`: 32-bit, two's complement. */
  newtype Int32 = x: int | -0x8000_0000 <= x < 0x8000_0000

  const INT_MAX: int := 0x7fff_ffff

  /**
   * The end of the range the unrolled loop reads for length n: the least
   * multiple of 4 that is at least n (0 for n <= 0).
   */
  function Padded(n: int): (p: nat)
    ensures p % 4 == 0
    ensures n <= 0 ==> p == 0
    ensures n > 0 ==> n <= p < n + 4
  {
    if n <= 0 then 0 else (n + 3) / 4 * 4
  }

  /**
   * The unrolled loop's reads stay below n exactly when n <= 0 or n % 4 == 0;
   * otherwise they run 1 to 3 elements past it.
   */
  lemma UnrollInBounds(n: int)
    ensures (Padded(n) == if n <= 0 then 0 else n) <==> (n <= 0 || n % 4 == 0)
    ensures n > 0 && n % 4 != 0 ==> n < Padded(n) <= n + 3
  {
  }

  /** Padding commutes with a shift by a multiple of 4 and is monotone. */
  lemma PaddedShift(i: int, m: int, n: int)
    requires 0 <= i && i % 4 == 0 && 0 < m && i + m <= n
    ensures i + Padded(m) == Padded(i + m) <= Padded(n)
  {
  }

  /** A step of the unrolled loop from a multiple of 4 below n stays within Padded(n). */
  lemma PaddedStep(q: int, n: int)
    requires 0 <= 4 * q < n
    ensures 4 * q + 4 <= Padded(n)
  {
  }

  /** The unrolled loop, stepping by 4 from 0, stops exactly at Padded(n). */
  lemma PaddedExit(q: int, n: int)
    requires 0 <= 4 * q <= Padded(n) && n <= 4 * q
    ensures 4 * q == Padded(n)
  {
  }

  /**
   * One step of the chunked driver at offset i: the call reads up to
   * i + Padded(size), which is where the next chunk starts or, for the final
   * chunk, Padded(n).
   */
  lemma ChunkReadEnd(i: int, n: int, size: int)
    requires 0 <= i < n && i % 4 == 0
    requires size == if n - i > CHUNK_SIZE then CHUNK_SIZE else n - i
    ensures Min(i, Padded(n)) == i
    ensures i + Padded(size) <= Padded(n)
    ensures Min(i + CHUNK_SIZE, Padded(n)) == i + Padded(size)
    ensures (i + CHUNK_SIZE) % 4 == 0
    ensures i + CHUNK_SIZE <= n || Padded(n) <= i + CHUNK_SIZE
  {
  }

  /** When the chunked loop stops, it has read exactly up to Padded(n). */
  lemma ChunkLoopExit(i: int, n: int)
    requires 0 <= i && i % 4 == 0 && n <= i && (i <= n || Padded(n) <= i)
    ensures Min(i, Padded(n)) == Padded(n)
  {
    if i == n && n > 0 {
      PaddedExit(i / 4, n);
    }
  }

  /**
   * `dpunroll`: the sum of a[off + j] * b[off + j] over j in [0, Padded(n)),
   * which is the plain sum over [0, n) when n % 4 == 0 (or n <= 0). It needs
   * Padded(n) readable elements from off, and n <= 2^31 - 4 so that the `int`
   * counter reaches Padded(n) without overflow.
   */
  method DpUnroll(n: int, a: array<int>, b: array<int>, off: nat) returns (r: int)
    requires n <= INT_MAX - 3
    requires off + Padded(n) <= a.Length && off + Padded(n) <= b.Length
    ensures r == DotRange(a[..], b[..], off, off + Padded(n))
    ensures n <= 0 || n % 4 == 0 ==> r == DotRange(a[..], b[..], off, off + n)
  {
    r := 0;
    var j: Int32 := 0;
    ghost var steps := 0;
    while (j as int) < n
      invariant 0 <= j as int <= Padded(n) && j as int == 4 * steps
      invariant r == DotRange(a[..], b[..], off, off + j as int)
    {
      var k := off + j as int;
      PaddedStep(steps, n);
      DotStep4(a[..], b[..], off, k);
      r := r + (a[k] * b[k] + a[k + 1] * b[k + 1] + a[k + 2] * b[k + 2] + a[k + 3] * b[k + 3]);
      j := j + 4;
      steps := steps + 1;
    }
    PaddedExit(steps, n);
    UnrollInBounds(n);
  }

  /**
   * `dpunroll_chunked`: runs `dpunroll` over each chunk of the plan and adds
   * the partial results. Every call gets a length of at most CHUNK_SIZE, so
   * its `int` counter cannot overflow; the chunks visited are ChunkPlan(n);
   * the total is the sum over [0, Padded(n)), the plain sum when n % 4 == 0.
   */
  method DpUnrollChunked(n: int, a: array<int>, b: array<int>) returns (r: int, ghost visited: seq<Chunk>)
    requires Padded(n) <= a.Length && Padded(n) <= b.Length
    ensures r == DotRange(a[..], b[..], 0, Padded(n))
    ensures n <= 0 || n % 4 == 0 ==> r == DotRange(a[..], b[..], 0, n)
    ensures visited == ChunkPlan(n)
  {
    r := 0;
    visited := [];
    ghost var plan := ChunkPlan(n);
    var i := 0;
    while i < n
      invariant 0 <= i && i % 4 == 0 && (i <= n || Padded(n) <= i)
      invariant r == DotRange(a[..], b[..], 0, Min(i, Padded(n)))
      invariant visited + ChunksFrom(n, i) == plan
    {
      var currentChunkSize := if n - i > CHUNK_SIZE then CHUNK_SIZE else n - i;
      ChunkReadEnd(i, n, currentChunkSize);
      var part := DpUnroll(currentChunkSize, a, b, i);
      assert r + part == DotRange(a[..], b[..], 0, Min(i + CHUNK_SIZE, Padded(n))) by {
        DotSplit(a[..], b[..], 0, i, i + Padded(currentChunkSize));
      }
      r := r + part;
      VisitStep(visited, n, i);
      visited := visited + [Chunk(i, currentChunkSize)];
      i := i + CHUNK_SIZE;
    }
    ChunkLoopExit(i, n);
    UnrollInBounds(n);
    assert n <= 0 ==> DotRange(a[..], b[..], 0, n) == 0 == r;
  }

  /**
   * Of the chunks the driver visits, the reads of chunk k run past n exactly
   * when k is the final chunk and n % 4 != 0: every other chunk has length
   * CHUNK_SIZE, a multiple of 4.
   */
  lemma OnlyFinalChunkOverReads(n: int, k: nat)
    requires k < |ChunkPlan(n)|
    ensures ChunkPlan(n)[k].start + Padded(ChunkPlan(n)[k].len) > n
        <==> k == |ChunkPlan(n)| - 1 && n % 4 != 0
  {
    ChunkPlanShape(n);
    var c := ChunkPlan(n)[k];
    PaddedShift(c.start, c.len, n);
  }

  /**
   * The size dispatch of `main`: the chunked driver iff n > CHUNK_SIZE,
   * `dpunroll` on the whole vector otherwise (where n <= 2^24 keeps its
   * counter in range); both give the sum over [0, Padded(n)).
   */
  method Dispatch(n: int, a: array<int>, b: array<int>) returns (r: int, chunked: bool)
    requires Padded(n) <= a.Length && Padded(n) <= b.Length
    ensures chunked <==> n > CHUNK_SIZE
    ensures r == DotRange(a[..], b[..], 0, Padded(n))
    ensures n <= 0 || n % 4 == 0 ==> r == DotRange(a[..], b[..], 0, n)
  {
    chunked := n > CHUNK_SIZE;
    if chunked {
      ghost var visited;
      r, visited := DpUnrollChunked(n, a, b);
    } else {
      r := DpUnroll(n, a, b, 0);
    }
  }

  /**
   * `main` after argument parsing, for n % 4 == 0: two all-ones vectors of
   * length n, one dispatched dot product per measurement, and the warm-up
   * rule over the given sample durations. Every per-measurement result is n,
   * and the average is the second-half total over m / 2.
   */
  method Benchmark(n: nat, durations: seq<nat>) returns (results: seq<int>, average: Mean)
    requires n % 4 == 0
    ensures |results| == |durations|
    ensures forall k :: 0 <= k < |results| ==> results[k] == n
    ensures average == AverageTime(Sum(durations[|durations| / 2..]), |durations|)
  {
    var vecA := new int[n];
    var vecB := new int[n];
    Vectors.InitializeVectors(n, vecA, vecB);
    DotAllOnes(vecA[..], vecB[..], 0, n);
    var m := |durations|;
    var cumulativeTime := 0;
    results := [];
    var i := 0;
    while i < m
      invariant 0 <= i <= m
      invariant |results| == i
      invariant forall k :: 0 <= k < i ==> results[k] == n
      invariant DotRange(vecA[..], vecB[..], 0, n) == n
      invariant cumulativeTime == Sum(AccumulatedPrefix(durations, i))
    {
      var dpResult, _ := Dispatch(n, vecA, vecB);
      AccumulateStep(durations, i);
      if i >= m / 2 {
        cumulativeTime := cumulativeTime + durations[i];
      }
      results := results + [dpResult];
      i := i + 1;
    }
    AccumulatedIsSecondHalf(durations);
    average := AverageTime(cumulativeTime, m);
  }

  /**
   * The unrolled kernel with the remainder handled: four products per step
   * while four elements remain, then one per step. It reads only [off, off + n)
   * and gives the plain sum for every n.
   */
  method DpUnrollWithTail(n: int, a: array<int>, b: array<int>, off: nat) returns (r: int)
    requires n <= INT_MAX
    requires off <= a.Length && off <= b.Length
    requires off + n <= a.Length && off + n <= b.Length
    ensures r == DotRange(a[..], b[..], off, off + n)
  {
    r := 0;
    var j: Int32 := 0;
    while (j as int) + 3 < n
      invariant 0 <= j as int && (j as int <= n || j == 0)
      invariant r == DotRange(a[..], b[..], off, off + j as int)
    {
      var k := off + j as int;
      DotStep4(a[..], b[..], off, k);
      r := r + (a[k] * b[k] + a[k + 1] * b[k + 1] + a[k + 2] * b[k + 2] + a[k + 3] * b[k + 3]);
      j := j + 4;
    }
    while (j as int) < n
      invariant 0 <= j as int && (j as int <= n || j == 0)
      invariant r == DotRange(a[..], b[..], off, off + j as int)
    {
      r := r + a[off + j as int] * b[off + j as int];
      j := j + 1;
    }
  }
}
