/** The allocation curve (app.js:46-62): weights that spread a lump construction budget over n
    months. The s-curve evaluates a normal density through `Math.exp`, `Math.sqrt` and `Math.PI`;
    here that density is the parameter `phi`, the standard normal density, so that the
    source's `coeff * Math.exp(-0.5 * z * z)` with `coeff = 1 / (s * sqrt(2 pi))` is `phi(z) / s`. */
module Allocation {
  import opened Wrappers
  import opened Sums

  /** The `allocation` selector: 'straight' gives `Straight`; every other value takes the
      s-curve branch. */
  datatype Shape = Straight | SCurve

  /** What the model assumes of the density function: it is positive everywhere. */
  ghost predicate PositiveDensity(phi: real -> real)
  {
    forall z :: phi(z) > 0.0
  }

  /** The standard deviation used: `sigma` when positive, else `max(1, 0.3 * n)`. */
  function Spread(n: int, sigma: real): (s: real)
    ensures s > 0.0
    ensures sigma > 0.0 ==> s == sigma
  {
    if sigma > 0.0 then sigma else Max(1.0, 0.3 * n as real)
  }

  /** Unnormalised weight of slot m (1-based) of n: the density at m, centred on (n + 1) / 2. */
  function Density(phi: real -> real, n: int, s: real, m: int): real
    requires s > 0.0
  {
    phi((m as real - (n + 1) as real / 2.0) / s) / s
  }

  /** The unnormalised s-curve weights of the first k slots of n. */
  function RawDensities(phi: real -> real, n: int, sigma: real, k: nat): (raw: seq<real>)
    ensures |raw| == k
  {
    if k == 0 then [] else RawDensities(phi, n, sigma, k - 1) + [Density(phi, n, Spread(n, sigma), k)]
  }

  /** Slot i (0-based) holds the density at position i + 1. */
  lemma {:induction false} RawDensitiesAt(phi: real -> real, n: int, sigma: real, k: nat, i: int)
    requires 0 <= i < k
    ensures RawDensities(phi, n, sigma, k)[i] == Density(phi, n, Spread(n, sigma), i + 1)
    decreases k
  {
    if i < k - 1 {
      RawDensitiesAt(phi, n, sigma, k - 1, i);
    }
  }

  /** Under a positive density every raw weight is positive. */
  lemma {:induction false} RawDensitiesPositive(phi: real -> real, n: int, sigma: real, k: nat)
    requires PositiveDensity(phi)
    ensures forall i :: 0 <= i < k ==> RawDensities(phi, n, sigma, k)[i] > 0.0
    decreases k
  {
    if k > 0 {
      RawDensitiesPositive(phi, n, sigma, k - 1);
      var z := (k as real - (n + 1) as real / 2.0) / Spread(n, sigma);
      assert phi(z) > 0.0;
    }
  }

  /** Reference definition of `allocationWeights(method, n, sigma)`. */
  function Weights(shape: Shape, n: int, sigma: real, phi: real -> real): (w: seq<real>)
    requires PositiveDensity(phi)
    ensures |w| == if n <= 0 then 0 else n
  {
    if n <= 0 then []
    else if shape == Straight then seq(n, _ => 1.0 / n as real)
    else
      var raw := RawDensities(phi, n, sigma, n);
      RawDensitiesPositive(phi, n, sigma, n);
      SumPositive(raw);
      Divided(raw, Sum(raw))
  }

  /** Positive raw weights divided by their total are positive and sum to 1. */
  lemma Normalised(raw: seq<real>)
    requires forall i :: 0 <= i < |raw| ==> raw[i] > 0.0
    requires Sum(raw) > 0.0
    ensures forall i :: 0 <= i < |raw| ==> Divided(raw, Sum(raw))[i] > 0.0
    ensures raw != [] ==> Sum(Divided(raw, Sum(raw))) == 1.0
  {
    var total := Sum(raw);
    SumDivided(raw, total);
    SelfQuotient(total);
    forall i | 0 <= i < |raw|
      ensures Divided(raw, total)[i] > 0.0
    {
      DividedAt(raw, total, i);
      QuotientPositive(raw[i], total);
    }
  }

  /** A non-zero total divided by itself is 1. */
  lemma SelfQuotient(b: real)
    requires b != 0.0
    ensures b / b == 1.0
  {
  }

  /** A positive density divided by a positive total stays positive. */
  lemma QuotientPositive(a: real, b: real)
    requires a > 0.0 && b > 0.0
    ensures a / b > 0.0
  {
  }

  /** n equal shares of 1/n sum to 1. */
  lemma EqualShares(n: nat)
    requires n >= 1
    ensures Sum(seq(n, _ => 1.0 / n as real)) == 1.0
  {
    SumConstant(n, 1.0 / n as real);
  }

  /** Every weight is positive, the weights of a non-empty window sum to exactly 1, and the
      straight shape gives every slot 1/n. */
  lemma WeightsDistribute(shape: Shape, n: int, sigma: real, phi: real -> real)
    requires PositiveDensity(phi)
    ensures forall i :: 0 <= i < |Weights(shape, n, sigma, phi)| ==> Weights(shape, n, sigma, phi)[i] > 0.0
    ensures n >= 1 ==> Sum(Weights(shape, n, sigma, phi)) == 1.0
    ensures shape == Straight ==>
              forall i :: 0 <= i < |Weights(shape, n, sigma, phi)| ==> Weights(shape, n, sigma, phi)[i] == 1.0 / n as real
  {
    if n >= 1 {
      if shape == Straight {
        EqualShares(n);
      } else {
        var raw := RawDensities(phi, n, sigma, n);
        RawDensitiesPositive(phi, n, sigma, n);
        SumPositive(raw);
        Normalised(raw);
      }
    }
  }

  /** With a density symmetric about 0 the s-curve is symmetric about the centre of the window:
      slot i and slot n - 1 - i get the same weight. */
  lemma SCurveSymmetric(n: int, sigma: real, phi: real -> real, i: int)
    requires PositiveDensity(phi)
    requires forall z :: phi(-z) == phi(z)
    requires 0 <= i < n
    ensures Weights(SCurve, n, sigma, phi)[i] == Weights(SCurve, n, sigma, phi)[n - 1 - i]
  {
    var s := Spread(n, sigma);
    var raw := RawDensities(phi, n, sigma, n);
    var z := ((i + 1) as real - (n + 1) as real / 2.0) / s;
    MirrorOffset(n, i, s);
    RawDensitiesAt(phi, n, sigma, n, i);
    RawDensitiesAt(phi, n, sigma, n, n - 1 - i);
    RawDensitiesPositive(phi, n, sigma, n);
    SumPositive(raw);
    DividedAt(raw, Sum(raw), i);
    DividedAt(raw, Sum(raw), n - 1 - i);
  }

  /** Slot n - 1 - i lies as far after the centre of the window as slot i lies before it. */
  lemma MirrorOffset(n: int, i: int, s: real)
    requires s != 0.0
    ensures ((n - i) as real - (n + 1) as real / 2.0) / s == -(((i + 1) as real - (n + 1) as real / 2.0) / s)
  {
    var d := (i + 1) as real - (n + 1) as real / 2.0;
    assert (n - i) as real - (n + 1) as real / 2.0 == -d;
  }

  /** `allocationWeights` (app.js:46-62). */
  method AllocationWeights(shape: Shape, n: int, sigma: real, phi: real -> real) returns (w: seq<real>)
    requires PositiveDensity(phi)
    ensures w == Weights(shape, n, sigma, phi)
  {
    if n <= 0 {
      return [];
    }
    if shape == Straight {
      return seq(n, _ => 1.0 / n as real);
    }
    var mu := (n + 1) as real / 2.0;
    var s := Spread(n, sigma);
    var raw: seq<real> := [];
    var m := 1;
    while m <= n
      invariant 1 <= m <= n + 1
      invariant raw == RawDensities(phi, n, sigma, m - 1)
    {
      var z := (m as real - mu) / s;
      raw := raw + [phi(z) / s];
      m := m + 1;
    }
    var sum := Sum(raw);
    RawDensitiesPositive(phi, n, sigma, n);
    SumPositive(raw);
    w := seq(|raw|, i requires 0 <= i < |raw| => raw[i] / sum);
    forall i | 0 <= i < |raw| ensures w[i] == Divided(raw, sum)[i] {
      DividedAt(raw, sum, i);
    }
  }
}
