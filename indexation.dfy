/** Annual indexation: how many fiscal index boundaries have passed (app.js:378-388), and the
    compounding `Math.pow(1 + pct, steps)` that the income model and the asset projector apply. */
module Indexation {
  import opened Wrappers
  import opened Months

  /** `indexSteps` (app.js:379-388). The first boundary is the first occurrence of `indexMonth`
      not before `scenarioStart`; `ym` counts one step for it and one per later year whose
      `indexMonth` it has reached. */
  function IndexSteps(scenarioStart: Month, ym: Month, indexMonth: int): nat
  {
    var firstYear := if indexMonth >= scenarioStart.month then scenarioStart.year else scenarioStart.year + 1;
    if ym.year < firstYear then 0
    else if ym.year == firstYear && ym.month < indexMonth then 0
    else
      var steps := ym.year - firstYear + 1;
      var steps' := if ym.month < indexMonth then steps - 1 else steps;
      if steps' < 0 then 0 else steps'
  }

  /** The month before `m`. */
  function Prev(m: Month): (p: Month)
    ensures Index(p) == Index(m) - 1
    ensures Next(p) == m
  {
    var p := FromIndex(Index(m) - 1);
    IndexInjective(Next(p), m);
    p
  }

  /** Reference count: the number of months (y, k) lying in the inclusive window [s, ym]. */
  function Boundaries(s: Month, ym: Month, k: int): nat
    decreases Index(ym) - Index(s)
  {
    if Index(ym) < Index(s) then 0
    else Boundaries(s, Prev(ym), k) + (if ym.month == k then 1 else 0)
  }

  /** Moving one month forward from a month not before `s` adds a step exactly when the new
      month is the index month. */
  lemma IndexStepsStep(s: Month, p: Month, k: int)
    requires 1 <= k <= 12
    requires Index(s) <= Index(p)
    ensures IndexSteps(s, Next(p), k) == IndexSteps(s, p, k) + (if Next(p).month == k then 1 else 0)
  {
    assert s.year <= p.year;
  }

  /** `indexSteps(s, ym, k)` counts the months of the form (y, k) in [s, ym]. */
  lemma {:induction false} IndexStepsCountsBoundaries(s: Month, ym: Month, k: int)
    requires 1 <= k <= 12
    ensures IndexSteps(s, ym, k) == Boundaries(s, ym, k)
    decreases Index(ym) - Index(s)
  {
    if Index(ym) < Index(s) {
      assert ym.year <= s.year;
    } else if Index(ym) == Index(s) {
      IndexInjective(ym, s);
      assert Boundaries(s, Prev(ym), k) == 0;
    } else {
      var p := Prev(ym);
      IndexStepsCountsBoundaries(s, p, k);
      IndexStepsStep(s, p, k);
    }
  }

  /** The count is monotone: a later month has at least as many steps. */
  lemma {:induction false} BoundariesMonotone(s: Month, a: Month, b: Month, k: int)
    requires Index(a) <= Index(b)
    ensures Boundaries(s, a, k) <= Boundaries(s, b, k)
    decreases Index(b) - Index(a)
  {
    if Index(a) < Index(b) {
      BoundariesMonotone(s, a, Prev(b), k);
    } else {
      IndexInjective(a, b);
    }
  }

  /** The properties of the stepper that callers rely on: zero before the start, non-decreasing,
      rising by exactly one at each crossing of the index month, and 1 (not 0) at the start
      month itself when that month is the index month. */
  lemma IndexStepsProperties(s: Month, a: Month, b: Month, k: int)
    requires 1 <= k <= 12
    ensures Index(a) < Index(s) ==> IndexSteps(s, a, k) == 0
    ensures Index(a) <= Index(b) ==> IndexSteps(s, a, k) <= IndexSteps(s, b, k)
    ensures Index(s) <= Index(a) ==>
              IndexSteps(s, Next(a), k) == IndexSteps(s, a, k) + (if Next(a).month == k then 1 else 0)
    ensures IndexSteps(s, s, k) == if s.month == k then 1 else 0
  {
    IndexStepsCountsBoundaries(s, a, k);
    IndexStepsCountsBoundaries(s, b, k);
    IndexStepsCountsBoundaries(s, s, k);
    assert Boundaries(s, Prev(s), k) == 0;
    if Index(a) <= Index(b) {
      BoundariesMonotone(s, a, b, k);
    }
    if Index(s) <= Index(a) {
      IndexStepsStep(s, a, k);
    }
  }

  /** The worked example: scenario start 2024-03, index month 7 (July). */
  lemma IndexStepsExample()
    ensures IndexSteps(YearMonth(2024, 3), YearMonth(2024, 6), 7) == 0
    ensures IndexSteps(YearMonth(2024, 3), YearMonth(2024, 7), 7) == 1
    ensures IndexSteps(YearMonth(2024, 3), YearMonth(2025, 6), 7) == 1
    ensures IndexSteps(YearMonth(2024, 3), YearMonth(2025, 7), 7) == 2
  {
  }

  /** `Math.pow(x, n)` for a whole exponent. */
  function Pow(x: real, n: nat): (r: real)
    ensures 0.0 <= x ==> 0.0 <= r
    ensures 1.0 <= x ==> 1.0 <= r
  {
    if n == 0 then 1.0 else x * Pow(x, n - 1)
  }

  /** Growth by a factor of at least 1 never shrinks with more steps. */
  lemma {:induction false} PowMonotone(x: real, a: nat, b: nat)
    requires 1.0 <= x
    requires a <= b
    ensures Pow(x, a) <= Pow(x, b)
    decreases b
  {
    if a < b {
      PowMonotone(x, a, b - 1);
      PowStep(x, b - 1);
    }
  }

  /** One more step of growth by a factor of at least 1 does not shrink the amount. */
  lemma PowStep(x: real, n: nat)
    requires 1.0 <= x
    ensures Pow(x, n) <= Pow(x, n + 1)
  {
    assert Pow(x, n + 1) == x * Pow(x, n);
    NoShrink(x, Pow(x, n));
  }

  /** Scaling a non-negative amount by a factor of at least 1 does not shrink it. */
  lemma NoShrink(x: real, p: real)
    requires 1.0 <= x && 0.0 <= p
    ensures p <= x * p
  {
    assert x * p - p == (x - 1.0) * p;
  }
}
