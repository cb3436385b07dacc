/**
 * svw2112/dp4.py: the plain Python kernel and the measurement loop of `main`.
 * The NumPy float32 arrays are sequences of exact integers.
 */
module Dp4 {
  import opened DotProduct
  import opened WarmUp

  /**
   * `dp`: the sum of a[j] * b[j] for j in range(0, n), reading only indices
   * below n; 0 when n <= 0 because the loop body never runs. Indexing past
   * the arrays would raise, so n may not exceed either length.
   */
  method Dp(n: int, a: seq<int>, b: seq<int>) returns (r: int)
    requires n <= |a| && n <= |b|
    ensures r == DotRange(a, b, 0, n)
    ensures n <= 0 ==> r == 0
  {
    r := 0;
    var j := 0;
    while j < n
      invariant 0 <= j && (j <= n || j == 0)
      invariant r == DotRange(a, b, 0, j)
    {
      r := r + a[j] * b[j];
      j := j + 1;
    }
  }

  /** `np.ones(n)`: the fixture vector. */
  function Ones(n: nat): (v: seq<int>)
    ensures |v| == n && forall j :: 0 <= j < n ==> v[j] == 1
  {
    seq(n, _ => 1)
  }

  /**
   * `main` after argument parsing: two all-ones arrays of length n, one `dp`
   * per measurement, and the warm-up rule over the given sample durations.
   * Every per-measurement result is n, and the mean is the second-half total
   * over m // 2 (DivisionByZero for m <= 1, where Python raises).
   */
  method Benchmark(n: nat, durations: seq<nat>) returns (results: seq<int>, mean: Mean)
    ensures |results| == |durations|
    ensures forall k :: 0 <= k < |results| ==> results[k] == n
    ensures mean == AverageTime(Sum(durations[|durations| / 2..]), |durations|)
  {
    var vecA := Ones(n);
    var vecB := Ones(n);
    DotAllOnes(vecA, vecB, 0, n);
    var m := |durations|;
    var accumulatedTime := 0;
    results := [];
    var i := 0;
    while i < m
      invariant 0 <= i <= m
      invariant |results| == i
      invariant forall k :: 0 <= k < i ==> results[k] == n
      invariant accumulatedTime == Sum(AccumulatedPrefix(durations, i))
    {
      var result := Dp(n, vecA, vecB);
      AccumulateStep(durations, i);
      if i >= m / 2 {
        accumulatedTime := accumulatedTime + durations[i];
      }
      results := results + [result];
      i := i + 1;
    }
    AccumulatedIsSecondHalf(durations);
    mean := AverageTime(accumulatedTime, m);
  }
}
