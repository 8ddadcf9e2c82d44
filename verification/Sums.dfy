/** Sums over finite maps, independent of the order they are walked in. */
module Sums {
  function Drop<K(==)>(m: map<K, int>, k: K): map<K, int> {
    map j | j in m && j != k :: m[j]
  }

  ghost function Sum<K(!new)>(m: map<K, int>): int {
    if m == map[] then 0
    else
      var k :| k in m;
      m[k] + Sum(Drop(m, k))
  }

  lemma {:induction false} SumStep<K(!new)>(m: map<K, int>, k: K)
    requires k in m
    ensures Sum(m) == m[k] + Sum(Drop(m, k))
    decreases |m|
  {
    var j :| j in m && Sum(m) == m[j] + Sum(Drop(m, j));
    if j != k {
      assert Drop(m, j).Keys == m.Keys - {j} && Drop(m, k).Keys == m.Keys - {k};
      SumStep(Drop(m, j), k);
      SumStep(Drop(m, k), j);
      assert Drop(Drop(m, j), k) == Drop(Drop(m, k), j);
    }
  }

  lemma SumUpdate<K(!new)>(m: map<K, int>, k: K, v: int)
    ensures Sum(m[k := v]) == Sum(m) - (if k in m then m[k] else 0) + v
  {
    SumStep(m[k := v], k);
    if k in m {
      SumStep(m, k);
      assert Drop(m[k := v], k) == Drop(m, k);
    } else {
      assert Drop(m[k := v], k) == m;
    }
  }

  /** A sum of non-negative terms is at least each of them. */
  lemma {:induction false} SumBounds<K(!new)>(m: map<K, int>)
    requires forall k :: k in m ==> m[k] >= 0
    ensures Sum(m) >= 0 && forall k :: k in m ==> m[k] <= Sum(m)
    decreases |m|
  {
    if m != map[] {
      var j :| j in m && Sum(m) == m[j] + Sum(Drop(m, j));
      assert Drop(m, j).Keys == m.Keys - {j};
      SumBounds(Drop(m, j));
      forall k | k in m ensures m[k] <= Sum(m) { if k != j { assert k in Drop(m, j); } }
    }
  }

  lemma {:induction false} SumZero<K(!new)>(m: map<K, int>)
    requires forall k :: k in m ==> m[k] == 0
    ensures Sum(m) == 0
    decreases |m|
  {
    if m != map[] {
      var j :| j in m && Sum(m) == m[j] + Sum(Drop(m, j));
      assert Drop(m, j).Keys == m.Keys - {j};
      SumZero(Drop(m, j));
    }
  }

  // --- means ------------------------------------------------------------------------------

  /** x, n times over. */
  function Repeated(x: real, n: nat): real { if n == 0 then 0.0 else Repeated(x, n - 1) + x }

  lemma {:induction false} RepeatedIsProduct(x: real, n: nat)
    ensures Repeated(x, n) == x * n as real
  {
    if n > 0 {
      RepeatedIsProduct(x, n - 1);
      OneMore(x, (n - 1) as real);
      assert n as real == (n - 1) as real + 1.0;
    }
  }

  lemma OneMore(x: real, n: real)
    ensures x * (n + 1.0) == x * n + x
  {}

  lemma Grows(x: real, y: real, z: real)
    requires x < y && z > 0.0
    ensures x * z < y * z
  {}

  /** The mean of numbers between two is between them. */
  lemma MeanIsBetween(sum: real, n: nat, lo: real, hi: real)
    requires n > 0 && Repeated(lo, n) <= sum <= Repeated(hi, n)
    ensures lo <= sum / n as real <= hi
  {
    RepeatedIsProduct(lo, n);
    RepeatedIsProduct(hi, n);
    Quotient(sum, n as real, lo, hi);
  }

  lemma Quotient(sum: real, n: real, lo: real, hi: real)
    requires n > 0.0 && lo * n <= sum <= hi * n
    ensures lo <= sum / n <= hi
  {
    var q := sum / n;
    assert q * n == sum;
    if q < lo { Grows(q, lo, n); }
    if q > hi { Grows(hi, q, n); }
  }
}
