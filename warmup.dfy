/**
 * The measurement protocol shared by the three benchmark programs: of M timed
 * samples, sample i is accumulated iff i >= M / 2, and the accumulated total
 * is divided by M / 2. Sample durations are an input sequence of naturals
 * (clock readings are not modelled); M is its length.
 */
module WarmUp {

  /** Total of a sequence of durations. */
  function Sum(s: seq<nat>): nat
  {
    if s == [] then 0 else Sum(s[..|s| - 1]) + s[|s| - 1]
  }

  /** The harness rule: of m samples, sample i is accumulated iff i >= m / 2. */
  predicate Accumulates(i: nat, m: nat)
  {
    i >= m / 2
  }

  /** The durations the rule accumulates among the first k samples of d, in order. */
  function AccumulatedPrefix(d: seq<nat>, k: nat): seq<nat>
    requires k <= |d|
  {
    if k == 0 then []
    else AccumulatedPrefix(d, k - 1) + (if Accumulates(k - 1, |d|) then [d[k - 1]] else [])
  }

  /** The outcome of the averaging step. */
  datatype Mean = Mean(time: real) | DivisionByZero

  /**
   * The harness average: the accumulated total divided by m / 2 (integer
   * division). A zero divisor is the error outcome.
   */
  function AverageTime(total: nat, m: nat): (r: Mean)
    ensures r.DivisionByZero? <==> m <= 1
    ensures r.Mean? ==> r.time * ((m / 2) as real) == total as real
  {
    if m / 2 == 0 then DivisionByZero else Mean(total as real / ((m / 2) as real))
  }

  lemma SumAppend(s: seq<nat>, x: nat)
    ensures Sum(s + [x]) == Sum(s) + x
  {
  }

  /** Sample i adds its duration to the running total iff the rule accumulates it. */
  lemma AccumulateStep(d: seq<nat>, i: nat)
    requires i < |d|
    ensures Sum(AccumulatedPrefix(d, i + 1))
         == Sum(AccumulatedPrefix(d, i)) + (if Accumulates(i, |d|) then d[i] else 0)
  {
    if Accumulates(i, |d|) {
      SumAppend(AccumulatedPrefix(d, i), d[i]);
    } else {
      assert AccumulatedPrefix(d, i + 1) == AccumulatedPrefix(d, i) + [];
      assert AccumulatedPrefix(d, i) + [] == AccumulatedPrefix(d, i);
    }
  }

  /**
   * Among the first k samples the rule accumulates exactly those of index
   * m / 2 .. k - 1, in order.
   */
  lemma {:induction false} AccumulatedPrefixIsSlice(d: seq<nat>, k: nat)
    requires k <= |d|
    ensures AccumulatedPrefix(d, k) == d[if k < |d| / 2 then k else |d| / 2..k]
  {
    if k > 0 {
      AccumulatedPrefixIsSlice(d, k - 1);
      var h := |d| / 2;
      if k - 1 >= h {
        assert d[h..k] == d[h..k - 1] + [d[k - 1]];
      }
    }
  }

  /**
   * Over the whole run exactly the last m - m / 2 samples are accumulated; the
   * divisor m / 2 is 0 for m <= 1 and is one less than that count when m is odd.
   */
  lemma AccumulatedIsSecondHalf(d: seq<nat>)
    ensures AccumulatedPrefix(d, |d|) == d[|d| / 2..]
    ensures |AccumulatedPrefix(d, |d|)| == |d| - |d| / 2
    ensures |d| / 2 == 0 <==> |d| <= 1
    ensures |d| % 2 == 1 ==> |d| / 2 == |AccumulatedPrefix(d, |d|)| - 1
    ensures |d| % 2 == 0 ==> |d| / 2 == |AccumulatedPrefix(d, |d|)|
  {
    AccumulatedPrefixIsSlice(d, |d|);
  }

  /** Identical durations c sum to c times their number. */
  lemma {:induction false} SumConstant(s: seq<nat>, c: nat)
    requires forall i :: 0 <= i < |s| ==> s[i] == c
    ensures Sum(s) == |s| * c
  {
    if s != [] {
      SumConstant(s[..|s| - 1], c);
      assert Sum(s) == (|s| - 1) * c + c;
    }
  }

  /**
   * With m >= 2 identical positive durations c, the reported average is
   * (m - m / 2) * c / (m / 2): it equals c exactly when m is even and
   * overstates it when m is odd.
   */
  lemma OddCountOverstatesMean(d: seq<nat>, c: nat)
    requires |d| >= 2 && c > 0
    requires forall i :: 0 <= i < |d| ==> d[i] == c
    ensures AverageTime(Sum(d[|d| / 2..]), |d|)
         == Mean(((|d| - |d| / 2) * c) as real / ((|d| / 2) as real))
    ensures AverageTime(Sum(d[|d| / 2..]), |d|) == Mean(c as real) <==> |d| % 2 == 0
    ensures |d| % 2 == 1 ==> AverageTime(Sum(d[|d| / 2..]), |d|).time > c as real
  {
    var h := |d| / 2;
    var kept := d[h..];
    SumConstant(kept, c);
    var total := (|d| - h) * c;
    assert Sum(kept) == total;
    if |d| % 2 == 0 {
      assert total == h * c;
      QuotientOfMultiple(h, c);
    } else {
      assert total == h * c + c;
      QuotientExceeds(h, c);
    }
  }

  lemma QuotientOfMultiple(h: nat, c: nat)
    requires h > 0
    ensures ((h * c) as real) / (h as real) == c as real
  {
  }

  lemma QuotientExceeds(h: nat, c: nat)
    requires h > 0 && c > 0
    ensures ((h * c + c) as real) / (h as real) > c as real
  {
  }

  /**
   * The average over the samples actually accumulated: the total divided by
   * their number m - m / 2. Only m == 0 leaves nothing to average.
   */
  function KeptMean(total: nat, m: nat): (r: Mean)
    ensures r.DivisionByZero? <==> m == 0
    ensures r.Mean? ==> r.time * ((m - m / 2) as real) == total as real
  {
    if m == 0 then DivisionByZero else Mean(total as real / ((m - m / 2) as real))
  }

  /** With identical durations c, the corrected average is c for every m >= 1. */
  lemma KeptMeanOfConstant(d: seq<nat>, c: nat)
    requires |d| >= 1
    requires forall i :: 0 <= i < |d| ==> d[i] == c
    ensures KeptMean(Sum(d[|d| / 2..]), |d|) == Mean(c as real)
  {
    var kept := d[|d| / 2..];
    SumConstant(kept, c);
    assert |kept| == |d| - |d| / 2 > 0;
    QuotientOfMultiple(|kept|, c);
  }
}
