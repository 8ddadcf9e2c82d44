/** The polyphase resampler's object and loops, proved equal to the direct convolution. */
module Resample {
  import opened FilterBank

  ghost predicate Divides(d: int, x: int) { exists q :: x == d * q }

  ghost predicate SameCommon(a: int, b: int, x: int, y: int, d: int) {
    Divides(d, a) && Divides(d, b) <==> Divides(d, x) && Divides(d, y)
  }

  lemma DividesCombination(d: int, x: int, y: int, k: int)
    requires Divides(d, x) && Divides(d, y)
    ensures Divides(d, x + y * k)
  {
    var q, p :| x == d * q && y == d * p;
    assert x + y * k == d * (q + p * k);
  }

  lemma RemainderKeepsCommon(x: int, y: int, d: int)
    requires y > 0
    ensures SameCommon(x, y, y, x % y, d)
  {
    var k := x / y;
    assert x == y * k + x % y;
    if Divides(d, x) && Divides(d, y) {
      DividesCombination(d, x, y, -k);
      assert x % y == x + y * (-k);
    }
    if Divides(d, y) && Divides(d, x % y) {
      DividesCombination(d, x % y, y, k);
    }
  }

  /** gcd. Of nothing and nothing it is 1. */
  method Gcd(a: int, b: int) returns (g: int)
    requires a >= 0 && b >= 0
    ensures g > 0 && Divides(g, a) && Divides(g, b)
    ensures a == 0 && b == 0 ==> g == 1
    ensures a != 0 || b != 0 ==> forall d :: Divides(d, a) && Divides(d, b) ==> Divides(d, g)
  {
    var x, y := a, b;
    while y != 0
      invariant x >= 0 && y >= 0 && (x == 0 && y == 0 <==> a == 0 && b == 0)
      invariant forall d :: SameCommon(a, b, x, y, d)
      decreases y
    {
      forall d ensures SameCommon(a, b, y, x % y, d) {
        assert SameCommon(a, b, x, y, d);
        RemainderKeepsCommon(x, y, d);
      }
      x, y := y, x % y;
    }
    assert x == x * 1 && y == x * 0;
    if x == 0 {
      assert a == 1 * a && b == 1 * b;
      return 1;
    }
    assert SameCommon(a, b, x, y, x);
    forall d | Divides(d, a) && Divides(d, b) ensures Divides(d, x) { assert SameCommon(a, b, x, y, d); }
    return x;
  }

  lemma Cofactor(g: int, x: int)
    requires g > 0 && x > 0 && Divides(g, x)
    ensures x / g > 0 && x == (x / g) * g
  {
    var q :| x == g * q;
    assert g * (q - x / g) == x % g;
    SmallMultiple(g, q - x / g);
    assert x % g == 0;
  }

  lemma SmallMultiple(g: int, d: int)
    requires 0 <= g * d < g
    ensures d == 0
  {
    Grow(g, d);
  }

  lemma Grow(g: int, d: int)
    requires g > 0
    ensures d >= 1 ==> g * d >= g
    ensures d <= -1 ==> g * d < 0
  {}

  lemma PhaseAndUnit(n: nat, per: int)
    requires per > 0
    ensures 0 <= n % per < per && n / per >= 0 && n == n % per + (n / per) * per
  {}

  class Resampler {
    const r: Rates
    ghost var g: int
    var inputPerUnit: int
    var outputPerUnit: int
    var firstIndex: array<int>
    var weights: array<seq<real>>

    ghost predicate PhaseAt(i: int)
      requires r.Valid()
      reads this, firstIndex, weights
    {
      0 <= i < firstIndex.Length && i < weights.Length ==>
        && firstIndex[i] == MinIndex(r, i)
        && |weights[i]| == MaxIndex(r, i) - MinIndex(r, i) + 1
        && forall j :: 0 <= j < |weights[i]| ==> weights[i][j] == Weight(r, i, MinIndex(r, i) + j)
    }

    ghost predicate Valid()
      reads this, firstIndex, weights
    {
      && r.Valid() && g > 0 && inputPerUnit > 0 && outputPerUnit > 0
      && r.rateIn == inputPerUnit * g && r.rateOut == outputPerUnit * g
      && firstIndex.Length == outputPerUnit && weights.Length == outputPerUnit
      && (forall i :: PhaseAt(i))
    }

    constructor (kernel: Kernel, rateIn: int, rateOut: int)
      requires rateIn > 0 && rateOut > 0
      ensures Valid() && r == Rates(kernel, rateIn, rateOut) && fresh(firstIndex) && fresh(weights)
    {
      var g := Gcd(rateIn, rateOut);
      Cofactor(g, rateIn);
      Cofactor(g, rateOut);
      var rates := Rates(kernel, rateIn, rateOut);
      var per := rateOut / g;
      var firsts := new int[per];
      var bank := new seq<real>[per];
      this.r, this.g := rates, g;
      inputPerUnit, outputPerUnit := rateIn / g, per;
      firstIndex, weights := firsts, bank;
      new;
      Fill();
    }

    method Fill()
      requires r.Valid() && firstIndex.Length == weights.Length
      modifies firstIndex, weights
      ensures forall k :: PhaseAt(k)
    {
      var i := 0;
      while i < firstIndex.Length
        invariant 0 <= i <= firstIndex.Length
        invariant forall k :: k < i ==> PhaseAt(k)
      {
        var first, taps := Phase(r, i);
        label Filling:
        firstIndex[i] := first;
        weights[i] := taps;
        forall k | k < i + 1 ensures PhaseAt(k) { if k < i { assert old@Filling(PhaseAt(k)); } }
        i := i + 1;
      }
      forall k ensures PhaseAt(k) { if k < i { assert PhaseAt(k); } }
    }

    /** One turn of the constructor's loop. */
    static method Phase(r: Rates, i: int) returns (first: int, taps: seq<real>)
      requires r.Valid()
      ensures first == MinIndex(r, i) && |taps| == MaxIndex(r, i) - MinIndex(r, i) + 1
      ensures forall j :: 0 <= j < |taps| ==> taps[j] == Weight(r, i, first + j)
    {
      var outputT := i as real / r.rateOut as real;
      first := Ceil((outputT - Width(r)) * r.rateIn as real);
      var last := ((outputT + Width(r)) * r.rateIn as real).Floor;
      WindowIsThere(r, i);
      var a := new real[last - first + 1];
      var j := 0;
      while j < a.Length
        invariant 0 <= j <= a.Length
        invariant forall k :: 0 <= k < j ==> a[k] == Weight(r, i, first + k)
      {
        var inputT := (first + j) as real / r.rateIn as real;
        a[j] := Filter(r, inputT - outputT) / r.rateIn as real;
        j := j + 1;
      }
      taps := a[..];
    }

    /** One turn of Resample's loop: the taps of the phase, moved by the unit. */
    method Output(input: seq<real>, n: nat) returns (sum: real)
      requires Valid()
      ensures sum == Direct(r, input, n, 0, |input|)
    {
      PhaseAndUnit(n, outputPerUnit);
      var phase, unit := n % outputPerUnit, n / outputPerUnit;
      var first := firstIndex[phase] + unit * inputPerUnit;
      PhaseTaps(n, phase, unit, first);
      sum := Convolve(input, first, weights[phase], n);
    }

    lemma PhaseTaps(n: nat, phase: nat, unit: nat, first: int)
      requires Valid() && phase < outputPerUnit && n == phase + unit * outputPerUnit && first == firstIndex[phase] + unit * inputPerUnit
      ensures forall k :: WeightAt(n, first, weights[phase], k)
    {
      assert PhaseAt(phase);
      forall k ensures WeightAt(n, first, weights[phase], k) {
        WindowIsEnough(r, g, inputPerUnit, outputPerUnit, phase, unit, k);
      }
    }

    /** The tap range is clipped to the input before the loop. */
    method Convolve(input: seq<real>, first: int, taps: seq<real>, ghost n: nat) returns (sum: real)
      requires r.Valid() && forall k :: WeightAt(n, first, taps, k)
      ensures sum == Direct(r, input, n, 0, |input|)
    {
      var lo, hi := 0, |taps|;
      if first < 0 {
        lo := -first;
      }
      if first + hi > |input| {
        hi := |input| - first;
      }
      sum := 0.0;
      var j := lo;
      while j < hi
        invariant lo <= j && (lo < hi ==> j <= hi && sum == Direct(r, input, n, first + lo, first + j))
        invariant lo >= hi ==> j == lo && sum == 0.0
      {
        assert WeightAt(n, first, taps, first + j);
        sum := sum + input[first + j] * taps[j];
        j := j + 1;
      }
      Clipped(input, n, first, taps, lo, hi);
    }

    /** What tap k - first says of the input sample k. */
    ghost predicate WeightAt(n: int, first: int, taps: seq<real>, k: int)
      requires r.Valid()
    {
      if first <= k < first + |taps| then taps[k - first] == Weight(r, n, k) else Weight(r, n, k) == 0.0
    }

    /** Clipping the taps leaves out nothing but zeros. */
    lemma Clipped(input: seq<real>, n: int, first: int, taps: seq<real>, lo: int, hi: int)
      requires r.Valid() && forall k :: WeightAt(n, first, taps, k)
      requires lo == (if first < 0 then -first else 0) && hi == (if first + |taps| > |input| then |input| - first else |taps|)
      ensures Direct(r, input, n, 0, |input|) == if lo < hi then Direct(r, input, n, first + lo, first + hi) else 0.0
    {
      forall k | 0 <= k < |input| && !(first + lo <= k < first + hi) ensures Weight(r, n, k) == 0.0 {
        assert WeightAt(n, first, taps, k);
      }
      if lo < hi {
        DirectZero(r, input, n, 0, first + lo);
        DirectZero(r, input, n, first + hi, |input|);
        DirectSplit(r, input, n, 0, first + lo, |input|);
        DirectSplit(r, input, n, first + lo, first + hi, |input|);
      } else {
        DirectZero(r, input, n, 0, |input|);
      }
    }

    /** Resample: every output sample is the direct convolution over the whole input, and there are as many as
     *  output instants inside the input's duration. */
    method Run(input: seq<real>) returns (out: seq<real>)
      requires Valid()
      ensures |out| == OutputLen(r, |input|)
      ensures forall n :: 0 <= n < |out| ==> out[n] == Direct(r, input, n, 0, |input|)
    {
      OutputLenCounts(r, |input|, 0);
      if |input| == 0 {
        return [];
      }
      var a := new real[OutputLen(r, |input|)];
      var n := 0;
      while n < a.Length
        invariant 0 <= n <= a.Length
        invariant forall k :: 0 <= k < n ==> a[k] == Direct(r, input, k, 0, |input|)
      {
        a[n] := Output(input, n);
        n := n + 1;
      }
      out := a[..];
    }
  }

  /** The package's Resample. */
  method Convert(kernel: Kernel, input: seq<real>, from: int, to: int) returns (out: seq<real>)
    requires from > 0 && to > 0
    ensures var r := Rates(kernel, from, to);
      if from == to || input == [] then out == input
      else |out| == OutputLen(r, |input|) && forall n :: 0 <= n < |out| ==> out[n] == Direct(r, input, n, 0, |input|)
  {
    if from == to || |input| == 0 {
      return input;
    }
    var r := new Resampler(kernel, from, to);
    out := r.Run(input);
  }
}
