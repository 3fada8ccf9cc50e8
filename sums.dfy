/** Sums of money amounts: the left fold `reduce((a, b) => a + b, 0)` over a list, and the total
    of the values of a month-keyed schedule. */
module Sums {
  import opened Months

  /** `xs.reduce((a, b) => a + b, 0)`. */
  function Sum(xs: seq<real>): real
  {
    if xs == [] then 0.0 else Sum(xs[..|xs| - 1]) + xs[|xs| - 1]
  }

  /** A list of n copies of c sums to n * c. */
  lemma {:induction false} SumConstant(n: nat, c: real)
    ensures Sum(seq(n, _ => c)) == n as real * c
  {
    if n > 0 {
      SumConstant(n - 1, c);
      assert seq(n, _ => c)[..n - 1] == seq(n - 1, _ => c);
    }
  }

  /** Every element divided by d (`xs.map(x => x / d)`). */
  function Divided(xs: seq<real>, d: real): (ys: seq<real>)
    requires d != 0.0
    ensures |ys| == |xs|
  {
    if xs == [] then [] else Divided(xs[..|xs| - 1], d) + [xs[|xs| - 1] / d]
  }

  /** Element i of the divided list is element i divided by d. */
  lemma {:induction false} DividedAt(xs: seq<real>, d: real, i: int)
    requires d != 0.0
    requires 0 <= i < |xs|
    ensures Divided(xs, d)[i] == xs[i] / d
    decreases |xs|
  {
    if i < |xs| - 1 {
      DividedAt(xs[..|xs| - 1], d, i);
    }
  }

  /** Dividing every element by d divides the sum by d. */
  lemma {:induction false} SumDivided(xs: seq<real>, d: real)
    requires d != 0.0
    ensures Sum(Divided(xs, d)) == Sum(xs) / d
    decreases |xs|
  {
    if xs != [] {
      var init := xs[..|xs| - 1];
      SumDivided(init, d);
      assert Divided(xs, d)[..|xs| - 1] == Divided(init, d);
      assert Divided(xs, d)[|xs| - 1] == xs[|xs| - 1] / d;
      assert Sum(init) / d + xs[|xs| - 1] / d == (Sum(init) + xs[|xs| - 1]) / d;
    }
  }

  /** Every element multiplied by c (`xs.map(x => c * x)`). */
  function Scaled(xs: seq<real>, c: real): (ys: seq<real>)
    ensures |ys| == |xs|
    ensures forall i :: 0 <= i < |xs| ==> ys[i] == c * xs[i]
  {
    seq(|xs|, i requires 0 <= i < |xs| => c * xs[i])
  }

  /** Scaling every element by c scales the sum by c. */
  lemma {:induction false} SumScaled(xs: seq<real>, c: real)
    ensures Sum(Scaled(xs, c)) == c * Sum(xs)
    decreases |xs|
  {
    if xs != [] {
      var init := xs[..|xs| - 1];
      SumScaled(init, c);
      assert forall i :: 0 <= i < |init| ==> Scaled(xs, c)[..|xs| - 1][i] == Scaled(init, c)[i];
      assert Scaled(xs, c)[..|xs| - 1] == Scaled(init, c);
    }
  }

  /** A non-empty list of positive amounts has a positive sum. */
  lemma {:induction false} SumPositive(xs: seq<real>)
    requires forall i :: 0 <= i < |xs| ==> xs[i] > 0.0
    ensures xs != [] ==> Sum(xs) > 0.0
    ensures Sum(xs) >= 0.0
    decreases |xs|
  {
    if xs != [] {
      SumPositive(xs[..|xs| - 1]);
    }
  }

  /** The total of a schedule's values, the order of summation being immaterial over reals. */
  ghost function MapSum(m: map<Month, real>): real
    decreases |m.Keys|
  {
    if m == map[] then 0.0
    else
      var k :| k in m;
      m[k] + MapSum(m - {k})
  }

  /** The total can be split at any key, whichever key the definition happened to pick. */
  lemma {:induction false} MapSumPick(m: map<Month, real>, k: Month)
    requires k in m
    ensures MapSum(m) == m[k] + MapSum(m - {k})
    decreases |m.Keys|
  {
    var j :| j in m && MapSum(m) == m[j] + MapSum(m - {j});
    if j != k {
      assert |(m - {j}).Keys| < |m.Keys| by {
        assert (m - {j}).Keys < m.Keys;
      }
      assert |(m - {k}).Keys| < |m.Keys| by {
        assert (m - {k}).Keys < m.Keys;
      }
      MapSumPick(m - {j}, k);
      MapSumPick(m - {k}, j);
      assert m - {j} - {k} == m - {k} - {j};
    }
  }

  /** Setting key k to v changes the total by v minus what k held before. */
  lemma MapSumUpdate(m: map<Month, real>, k: Month, v: real)
    ensures MapSum(m[k := v]) == MapSum(m) - (if k in m then m[k] else 0.0) + v
  {
    MapSumPick(m[k := v], k);
    if k in m {
      MapSumPick(m, k);
      assert m[k := v] - {k} == m - {k};
    } else {
      assert m[k := v] - {k} == m;
    }
  }
}
