/**
 * svw2112/dp1.c: the plain kernel, its chunked driver, the size dispatch and
 * the measurement loop. Element values are exact integers (the program sums
 * floats); the C pointer offset `pA + i` is the index offset `off`.
 */
module Dp1 {
  import opened DotProduct
  import opened Chunking
  import opened WarmUp
  import Vectors

  /** `dp`: the sum of a[off + j] * b[off + j] for j in [0, n); 0 when n <= 0. */
  method Dp(n: int, a: array<int>, b: array<int>, off: nat) returns (r: int)
    requires off <= a.Length && off <= b.Length
    requires off + n <= a.Length && off + n <= b.Length
    ensures r == DotRange(a[..], b[..], off, off + n)
    ensures n <= 0 ==> r == 0
  {
    r := 0;
    var j := 0;
    while j < n
      invariant 0 <= j && (j <= n || j == 0)
      invariant r == DotRange(a[..], b[..], off, off + j)
    {
      r := r + a[off + j] * b[off + j];
      j := j + 1;
    }
  }

  /**
   * `dp_chunked`: runs `dp` over each chunk of the plan and adds the partial
   * results. The chunks it visits are exactly ChunkPlan(n), and the total is
   * the plain sum over [0, n).
   */
  method DpChunked(n: int, a: array<int>, b: array<int>) returns (r: int, ghost visited: seq<Chunk>)
    requires n <= a.Length && n <= b.Length
    ensures r == DotRange(a[..], b[..], 0, n)
    ensures visited == ChunkPlan(n)
  {
    var chunkSize := CHUNK_SIZE;
    r := 0;
    visited := [];
    ghost var plan := ChunkPlan(n);
    var i := 0;
    while i < n
      invariant 0 <= i
      invariant r == DotRange(a[..], b[..], 0, Min(i, n))
      invariant visited + ChunksFrom(n, i) == plan
    {
      var currentChunkSize := if n - i > chunkSize then chunkSize else n - i;
      var part := Dp(currentChunkSize, a, b, i);
      assert r + part == DotRange(a[..], b[..], 0, Min(i + chunkSize, n)) by {
        DotSplit(a[..], b[..], 0, i, i + currentChunkSize);
      }
      r := r + part;
      VisitStep(visited, n, i);
      visited := visited + [Chunk(i, currentChunkSize)];
      i := i + chunkSize;
    }
    assert Min(i, n) == n;
  }

  /**
   * The size dispatch of `main`: the chunked driver iff n > 2^24, the plain
   * kernel otherwise; both give the plain sum over [0, n).
   */
  method Dispatch(n: int, a: array<int>, b: array<int>) returns (r: int, chunked: bool)
    requires n <= a.Length && n <= b.Length
    ensures chunked <==> n > CHUNK_SIZE
    ensures r == DotRange(a[..], b[..], 0, n)
  {
    chunked := n > 16777216;
    if chunked {
      ghost var visited;
      r, visited := DpChunked(n, a, b);
    } else {
      r := Dp(n, a, b, 0);
    }
  }

  /**
   * `main` after argument parsing: two all-ones vectors of length n, one
   * dispatched dot product per measurement, and the warm-up rule over the
   * given sample durations. Every per-measurement result is n, and the
   * average is the second-half total over m / 2.
   */
  method Benchmark(n: nat, durations: seq<nat>) returns (results: seq<int>, average: Mean)
    ensures |results| == |durations|
    ensures forall k :: 0 <= k < |results| ==> results[k] == n
    ensures average == AverageTime(Sum(durations[|durations| / 2..]), |durations|)
  {
    var vecA := new int[n];
    var vecB := new int[n];
    Vectors.InitializeVectors(n, vecA, vecB);
    DotAllOnes(vecA[..], vecB[..], 0, n);
    var m := |durations|;
    var cumulativeTime := 0;
    results := [];
    var i := 0;
    while i < m
      invariant 0 <= i <= m
      invariant |results| == i
      invariant forall k :: 0 <= k < i ==> results[k] == n
      invariant DotRange(vecA[..], vecB[..], 0, n) == n
      invariant cumulativeTime == Sum(AccumulatedPrefix(durations, i))
    {
      var dpResult, _ := Dispatch(n, vecA, vecB);
      AccumulateStep(durations, i);
      if i >= m / 2 {
        cumulativeTime := cumulativeTime + durations[i];
      }
      results := results + [dpResult];
      i := i + 1;
    }
    AccumulatedIsSecondHalf(durations);
    average := AverageTime(cumulativeTime, m);
  }
}
