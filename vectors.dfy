/**
 * The fixture of both C benchmark programs: every element of the two input
 * vectors is set to 1 before any measurement.
 */
module Vectors {

  /** Sets a[i] and b[i] to 1 for every i in [0, n) and leaves every other element alone. */
  method InitializeVectors(n: int, a: array<int>, b: array<int>)
    requires n <= a.Length && n <= b.Length
    modifies a, b
    ensures forall i :: 0 <= i < n ==> a[i] == 1 && b[i] == 1
    ensures forall i :: 0 <= i < a.Length && !(0 <= i < n) ==> a[i] == old(a[i])
    ensures forall i :: 0 <= i < b.Length && !(0 <= i < n) ==> b[i] == old(b[i])
  {
    var i := 0;
    while i < n
      invariant 0 <= i && (i <= n || i == 0)
      invariant forall k :: 0 <= k < i ==> a[k] == 1 && b[k] == 1
      invariant forall k :: 0 <= k < a.Length && !(0 <= k < i) ==> a[k] == old(a[k])
      invariant forall k :: 0 <= k < b.Length && !(0 <= k < i) ==> b[k] == old(b[k])
    {
      a[i] := 1;
      b[i] := 1;
      i := i + 1;
    }
  }
}
