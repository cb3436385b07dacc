/**
 * Exact-arithmetic reference for the dot-product kernels.
 *
 * The benchmark programs accumulate single-precision floats; this model uses
 * unbounded integers for the element values, so every statement below is about
 * which indices are summed and in which ranges, never about rounding.
 */
module DotProduct {

  /** The sum of a[j] * b[j] over j in [lo, hi); the empty sum 0 when hi <= lo. */
  function DotRange(a: seq<int>, b: seq<int>, lo: nat, hi: int): int
    requires hi <= |a| && hi <= |b|
    decreases hi
  {
    if hi <= lo then 0 else DotRange(a, b, lo, hi - 1) + a[hi - 1] * b[hi - 1]
  }

  /** A sum over [lo, hi) splits at any point in between. */
  lemma {:induction false} DotSplit(a: seq<int>, b: seq<int>, lo: nat, mid: nat, hi: int)
    requires lo <= mid <= hi <= |a| && hi <= |b|
    ensures DotRange(a, b, lo, hi) == DotRange(a, b, lo, mid) + DotRange(a, b, mid, hi)
    decreases hi
  {
    if hi > mid {
      DotSplit(a, b, lo, mid, hi - 1);
    }
  }

  /** The sum over [lo, hi) reads a and b at the indices of [lo, hi) and nowhere else. */
  lemma {:induction false} DotReadsOnlyRange(a: seq<int>, b: seq<int>, a': seq<int>, b': seq<int>, lo: nat, hi: int)
    requires hi <= |a| && hi <= |b| && hi <= |a'| && hi <= |b'|
    requires forall j :: lo <= j < hi ==> a[j] == a'[j] && b[j] == b'[j]
    ensures DotRange(a, b, lo, hi) == DotRange(a', b', lo, hi)
    decreases hi
  {
    if hi > lo {
      DotReadsOnlyRange(a, b, a', b', lo, hi - 1);
    }
  }

  /** Over a range where both vectors hold 1, the dot product is the length of the range. */
  lemma {:induction false} DotAllOnes(a: seq<int>, b: seq<int>, lo: nat, hi: int)
    requires lo <= hi <= |a| && hi <= |b|
    requires forall j :: lo <= j < hi ==> a[j] == 1 && b[j] == 1
    ensures DotRange(a, b, lo, hi) == hi - lo
    decreases hi
  {
    if hi > lo {
      DotAllOnes(a, b, lo, hi - 1);
    }
  }

  /** Four consecutive terms added in one step, as an unrolled loop body does. */
  lemma DotStep4(a: seq<int>, b: seq<int>, lo: nat, j: nat)
    requires lo <= j && j + 4 <= |a| && j + 4 <= |b|
    ensures DotRange(a, b, lo, j + 4)
         == DotRange(a, b, lo, j) + (a[j] * b[j] + a[j + 1] * b[j + 1] + a[j + 2] * b[j + 2] + a[j + 3] * b[j + 3])
  {
    assert DotRange(a, b, lo, j + 4) == DotRange(a, b, lo, j + 3) + a[j + 3] * b[j + 3];
    assert DotRange(a, b, lo, j + 3) == DotRange(a, b, lo, j + 2) + a[j + 2] * b[j + 2];
    assert DotRange(a, b, lo, j + 2) == DotRange(a, b, lo, j + 1) + a[j + 1] * b[j + 1];
  }
}
