/** The band-limited filter of internal/audio/resample.go in exact arithmetic: the direct convolution, and why the
 *  taps of one phase serve every output sample of that phase.
 */
module FilterBank {
  /** The windowed sinc inside its window, as a function of the offset, the cutoff and the window width. */
  type Kernel = (real, real, real) -> real

  /** A rate pair. */
  datatype Rates = Rates(kernel: Kernel, rateIn: int, rateOut: int) {
    predicate Valid() { rateIn > 0 && rateOut > 0 }
  }

  function Min(a: int, b: int): int { if b < a then b else a }

  function Cutoff(r: Rates): real { 0.99 * 0.5 * Min(r.rateIn, r.rateOut) as real }

  function Width(r: Rates): (w: real)
    requires r.Valid()
    ensures w > 0.0
  {
    6.0 / (2.0 * Cutoff(r))
  }

  function Abs(t: real): real { if t < 0.0 then -t else t }

  /** filterFunc */
  function Filter(r: Rates, t: real): real
    requires r.Valid()
  {
    if Abs(t) >= Width(r) then 0.0 else r.kernel(t, Cutoff(r), Width(r))
  }

  function Ceil(x: real): int { -((-x).Floor) }

  lemma CeilIs(x: real, k: int)
    ensures k < Ceil(x) <==> k as real < x
  {}

  lemma FloorIs(x: real, k: int)
    ensures k > x.Floor <==> k as real > x
  {}

  /** The input instant k less the output instant n. */
  function Offset(r: Rates, n: int, k: int): real
    requires r.Valid()
  {
    k as real / r.rateIn as real - n as real / r.rateOut as real
  }

  function Weight(r: Rates, n: int, k: int): real
    requires r.Valid()
  {
    Filter(r, Offset(r, n, k)) / r.rateIn as real
  }

  /** The direct convolution: output n from the input samples a to b. */
  function Direct(r: Rates, input: seq<real>, n: int, a: int, b: int): real
    requires r.Valid() && 0 <= a && b <= |input|
    decreases b - a
  {
    if a >= b then 0.0 else Direct(r, input, n, a, b - 1) + input[b - 1] * Weight(r, n, b - 1)
  }

  lemma {:induction false} DirectSplit(r: Rates, input: seq<real>, n: int, a: int, b: int, c: int)
    requires r.Valid() && 0 <= a <= b <= c <= |input|
    ensures Direct(r, input, n, a, c) == Direct(r, input, n, a, b) + Direct(r, input, n, b, c)
    decreases c - b
  {
    if b < c { DirectSplit(r, input, n, a, b, c - 1); }
  }

  lemma {:induction false} DirectZero(r: Rates, input: seq<real>, n: int, a: int, b: int)
    requires r.Valid() && 0 <= a && b <= |input| && forall k :: a <= k < b ==> Weight(r, n, k) == 0.0
    ensures Direct(r, input, n, a, b) == 0.0
    decreases b - a
  {
    if a < b {
      DirectZero(r, input, n, a, b - 1);
      assert Weight(r, n, b - 1) == 0.0;
    }
  }

  // --- one phase ----------------------------------------------------------------

  /** The first input sample of a phase, and the last. */
  function MinIndex(r: Rates, phase: int): int
    requires r.Valid()
  {
    Ceil((phase as real / r.rateOut as real - Width(r)) * r.rateIn as real)
  }

  function MaxIndex(r: Rates, phase: int): int
    requires r.Valid()
  {
    ((phase as real / r.rateOut as real + Width(r)) * r.rateIn as real).Floor
  }

  lemma Times(x: real, y: real, z: real)
    requires x < y && z > 0.0
    ensures x * z < y * z
  {}

  /** There is room for the taps: the window is not empty by more than one. */
  lemma WindowIsThere(r: Rates, phase: int)
    requires r.Valid()
    ensures MaxIndex(r, phase) - MinIndex(r, phase) + 1 >= 0
  {
    var t, z := phase as real / r.rateOut as real, r.rateIn as real;
    Times(t - Width(r), t + Width(r), z);
    CeilIs((t - Width(r)) * z, MinIndex(r, phase) - 1);
    FloorIs((t + Width(r)) * z, MaxIndex(r, phase) + 1);
  }

  lemma Below(k: real, t: real, w: real, z: real)
    requires z > 0.0 && k < (t - w) * z
    ensures k / z - t < -w
  {
    if k / z >= t - w { assert k == (k / z) * z; Up(t - w, k / z, z); }
  }

  lemma Above(k: real, t: real, w: real, z: real)
    requires z > 0.0 && k > (t + w) * z
    ensures k / z - t > w
  {
    if k / z <= t + w { assert k == (k / z) * z; Up(k / z, t + w, z); }
  }

  lemma Up(x: real, y: real, z: real)
    requires x <= y && z > 0.0
    ensures x * z <= y * z
  {}

  /** Outside the taps of a phase the filter is zero. */
  lemma OutsideIsZero(r: Rates, phase: int, k: int)
    requires r.Valid() && (k < MinIndex(r, phase) || k > MaxIndex(r, phase))
    ensures Weight(r, phase, k) == 0.0
  {
    var t, z := phase as real / r.rateOut as real, r.rateIn as real;
    if k < MinIndex(r, phase) {
      CeilIs((t - Width(r)) * z, k);
      Below(k as real, t, Width(r), z);
    } else {
      FloorIs((t + Width(r)) * z, k);
      Above(k as real, t, Width(r), z);
    }
  }

  // --- the period ---------------------------------------------------------------

  lemma Share(u: int, part: int, g: int)
    requires part > 0 && g > 0
    ensures part * g > 0 && (u * part) as real / (part * g) as real == u as real / g as real
  {
    var up, pr, gr := u as real, part as real, g as real;
    assert (u * part) as real == up * pr && (part * g) as real == pr * gr;
    assert pr * gr > 0.0;
    Fraction(up, pr, gr);
  }

  lemma Fraction(u: real, p: real, g: real)
    requires p > 0.0 && g > 0.0
    ensures p * g > 0.0 && (u * p) / (p * g) == u / g
  {
    var q := u / g;
    assert q * g == u;
    assert q * (p * g) == (q * g) * p == u * p;
    Quotient(q, p * g, u * p);
  }

  lemma Quotient(q: real, d: real, x: real)
    requires d > 0.0 && q * d == x
    ensures x / d == q
  {}

  lemma AddOver(x: int, y: int, z: real)
    requires z > 0.0
    ensures (x + y) as real / z == x as real / z + y as real / z
  {}

  /** One unit later in the input and in the output, the offset is the same. */
  lemma OffsetRepeats(r: Rates, g: int, inUnit: int, outUnit: int, n: int, k: int, u: int)
    requires r.Valid() && g > 0 && inUnit > 0 && outUnit > 0 && r.rateIn == inUnit * g && r.rateOut == outUnit * g
    ensures Offset(r, n + u * outUnit, k + u * inUnit) == Offset(r, n, k)
  {
    Share(u, inUnit, g);
    Share(u, outUnit, g);
    AddOver(k, u * inUnit, r.rateIn as real);
    AddOver(n, u * outUnit, r.rateOut as real);
  }

  /** Output n needs just the taps of its phase, moved by its unit. */
  lemma WindowIsEnough(r: Rates, g: int, inUnit: int, outUnit: int, phase: int, u: int, k: int)
    requires r.Valid() && g > 0 && inUnit > 0 && outUnit > 0 && r.rateIn == inUnit * g && r.rateOut == outUnit * g
    ensures Weight(r, phase + u * outUnit, k) == Weight(r, phase, k - u * inUnit)
    ensures k - u * inUnit < MinIndex(r, phase) || k - u * inUnit > MaxIndex(r, phase) ==> Weight(r, phase + u * outUnit, k) == 0.0
  {
    OffsetRepeats(r, g, inUnit, outUnit, phase, k - u * inUnit, u);
    if k - u * inUnit < MinIndex(r, phase) || k - u * inUnit > MaxIndex(r, phase) {
      OutsideIsZero(r, phase, k - u * inUnit);
    }
  }

  // --- the length ---------------------------------------------------------------

  function OutputLen(r: Rates, n: nat): int
    requires r.Valid()
  {
    if n == 0 then 0 else Ceil(Ticks(n as real, r.rateOut as real, r.rateIn as real))
  }

  function Ticks(n: real, rateOut: real, rateIn: real): real
    requires rateIn > 0.0
  {
    n * rateOut / rateIn
  }

  lemma Scale(x: real, y: real, z: real)
    requires y > 0.0
    ensures x / y < z <==> x < z * y
  {
    assert (x / y) * y == x;
    if x / y < z { Times(x / y, z, y); } else { Up(z, x / y, y); }
  }

  lemma NothingOver(i: real)
    requires i > 0.0
    ensures 0.0 / i == 0.0
  {}

  /** OutputLen counts exactly the output instants strictly inside the input's duration. */
  lemma OutputLenCounts(r: Rates, n: nat, m: nat)
    requires r.Valid()
    ensures OutputLen(r, n) >= 0
    ensures m < OutputLen(r, n) <==> m as real / r.rateOut as real < n as real / r.rateIn as real
  {
    var x, i, o := n as real, r.rateIn as real, r.rateOut as real;
    if n == 0 {
      NothingFits(m, o, x, i);
    } else {
      TicksBefore(x, o, i, m);
      TicksBefore(x, o, i, -1);
    }
  }

  lemma TicksBefore(x: real, o: real, i: real, m: int)
    requires x > 0.0 && o > 0.0 && i > 0.0
    ensures m < Ceil(Ticks(x, o, i)) <==> m as real / o < x / i
    ensures m < 0 ==> m < Ceil(Ticks(x, o, i))
  {
    Swap(x, o, i);
    CeilIs(Ticks(x, o, i), m);
    Scale(m as real, o, x / i);
    if m < 0 { Scale(m as real, o, 0.0); QuotientPositive(x, i); }
  }

  lemma QuotientPositive(x: real, i: real)
    requires x > 0.0 && i > 0.0
    ensures x / i > 0.0
  {}

  lemma NothingFits(m: nat, o: real, x: real, i: real)
    requires o > 0.0 && i > 0.0 && x == 0.0
    ensures !(m as real / o < x / i)
  {
    NothingOver(i);
    Scale(m as real, o, 0.0);
  }

  lemma Swap(x: real, o: real, i: real)
    requires i > 0.0
    ensures x * o / i == (x / i) * o
  {
    var q := x / i;
    assert q * i == x;
    assert (q * o) * i == x * o;
    Quotient(q * o, i, x * o);
  }

  // --- the filter's numbers ---------------------------------------------------------------

  /** The cutoff is just below half of either rate, and the window holds six zero crossings to a side. */
  lemma CutoffIsBelowHalfOfBoth(r: Rates)
    requires r.Valid()
    ensures 0.0 < Cutoff(r) < r.rateIn as real / 2.0 && Cutoff(r) < r.rateOut as real / 2.0
    ensures Cutoff(r) == 0.495 * r.rateIn as real || Cutoff(r) == 0.495 * r.rateOut as real
    ensures 2.0 * Cutoff(r) * Width(r) == 6.0
  {}

  /** An input sample counts with the kernel at its distance in time, over the input rate, and not at all from the width of
   *  the window on. */
  lemma WeightIs(r: Rates, n: int, k: int)
    requires r.Valid()
    ensures var t := k as real / r.rateIn as real - n as real / r.rateOut as real;
      && (-Width(r) < t < Width(r) ==> Weight(r, n, k) == r.kernel(t, Cutoff(r), Width(r)) / r.rateIn as real)
      && (t <= -Width(r) || Width(r) <= t ==> Weight(r, n, k) == 0.0)
  {
    if Filter(r, Offset(r, n, k)) == 0.0 { NothingOver(r.rateIn as real); }
  }

  // --- the convolution --------------------------------------------------------------------

  /** One sample alone gives its weight times itself. */
  lemma {:induction false} OneSampleAlone(r: Rates, input: seq<real>, n: int, k: nat, b: nat)
    requires r.Valid() && k < |input| && b <= |input| && forall i :: 0 <= i < |input| && i != k ==> input[i] == 0.0
    ensures Direct(r, input, n, 0, b) == if k < b then input[k] * Weight(r, n, k) else 0.0
  {
    if b > 0 { OneSampleAlone(r, input, n, k, b - 1); }
  }

  /** And signals add: so every output is the sum over the input samples, each times its weight. */
  lemma {:induction false} SignalsAdd(r: Rates, x: seq<real>, y: seq<real>, sum: seq<real>, n: int, b: nat)
    requires r.Valid() && |x| == |y| == |sum| && b <= |sum| && forall i :: 0 <= i < |sum| ==> sum[i] == x[i] + y[i]
    ensures Direct(r, sum, n, 0, b) == Direct(r, x, n, 0, b) + Direct(r, y, n, 0, b)
  {
    if b > 0 {
      SignalsAdd(r, x, y, sum, n, b - 1);
      OverSum(x[b - 1], y[b - 1], Weight(r, n, b - 1));
    }
  }

  lemma OverSum(x: real, y: real, z: real)
    ensures (x + y) * z == x * z + y * z
  {}
}
