/** The draw-schedule builders (app.js:64-87): month-to-amount maps for the construction budget,
    spread over the build window, and for the land purchase, which falls in single months. */
module Draws {
  import opened Wrappers
  import opened Months
  import opened Sums
  import opened Allocation

  /** `schedule.get(ym) || 0`: the amount a schedule holds for a month, 0 when absent. */
  function Lookup(m: map<Month, real>, ym: Month): real
  {
    if ym in m then m[ym] else 0.0
  }

  /** An amount counts towards a land draw only when it is positive. */
  function Positive(x: real): real
  {
    if x > 0.0 then x else 0.0
  }

  /** Reference definition of the land schedule: the loan and the stamp duty fall in the
      settlement month, the other acquisition costs in their own month, adding up when the two
      months coincide. */
  function LandDrawAt(landLoan: real, landStampDuty: real, landMonth: Option<Month>,
                      otherAcqCosts: real, otherAcqMonth: Option<Month>, ym: Month): real
  {
    (if landMonth == Some(ym) then Positive(landLoan) + Positive(landStampDuty) else 0.0)
    + (if otherAcqMonth == Some(ym) then Positive(otherAcqCosts) else 0.0)
  }

  /** `buildLandDraws` (app.js:75-87). */
  method BuildLandDraws(landLoan: real, landStampDuty: real, landMonth: Option<Month>,
                        otherAcqCosts: real, otherAcqMonth: Option<Month>)
    returns (m: map<Month, real>)
    ensures forall ym :: ym in m <==>
              || (landMonth == Some(ym) && (landLoan > 0.0 || landStampDuty > 0.0))
              || (otherAcqMonth == Some(ym) && otherAcqCosts > 0.0)
    ensures forall ym :: Lookup(m, ym) == LandDrawAt(landLoan, landStampDuty, landMonth, otherAcqCosts, otherAcqMonth, ym)
    ensures MapSum(m) ==
              (if landMonth.Some? then Positive(landLoan) + Positive(landStampDuty) else 0.0)
              + (if otherAcqMonth.Some? then Positive(otherAcqCosts) else 0.0)
  {
    m := map[];
    if landLoan > 0.0 && landMonth.Some? {
      m := AddTo(m, landMonth.value, landLoan);
    }
    if landStampDuty > 0.0 && landMonth.Some? {
      m := AddTo(m, landMonth.value, landStampDuty);
    }
    if otherAcqCosts > 0.0 && otherAcqMonth.Some? {
      m := AddTo(m, otherAcqMonth.value, otherAcqCosts);
    }
  }

  /** `m.set(k, (m.get(k) || 0) + v)`: adds v to the entry for k, creating it when absent. */
  method AddTo(m: map<Month, real>, k: Month, v: real) returns (m': map<Month, real>)
    ensures m'.Keys == m.Keys + {k}
    ensures forall ym :: Lookup(m', ym) == Lookup(m, ym) + (if ym == k then v else 0.0)
    ensures MapSum(m') == MapSum(m) + v
  {
    MapSumUpdate(m, k, Lookup(m, k) + v);
    m' := m[k := Lookup(m, k) + v];
  }

  /** Reference definition of the construction schedule: a month of the build window gets the
      amount times the weight of its slot; every other month gets nothing. */
  function ConstructionDrawAt(amount: real, start: Option<Month>, end: Option<Month>,
                              weights: seq<real>, ym: Month): real
    requires start.Some? && end.Some? ==> |weights| == WindowLength(start.value, end.value)
  {
    if start.Some? && end.Some? && Index(start.value) <= Index(ym) <= Index(end.value) then
      amount * weights[MonthsDiff(start.value, ym)]
    else 0.0
  }

  /** The weights `buildConstructionDraws` spreads the amount with: one per month of the window. */
  function ConstructionWeights(start: Option<Month>, end: Option<Month>, shape: Shape, sigma: real,
                               phi: real -> real): (w: seq<real>)
    requires PositiveDensity(phi)
    ensures |w| == |MonthsOf(start, end)|
  {
    Weights(shape, |MonthsOf(start, end)|, sigma, phi)
  }

  /** A schedule with one entry per month of a list of distinct months totals the entries. */
  lemma {:induction false} MapSumOfSlots(m: map<Month, real>, months: seq<Month>, values: seq<real>)
    requires |values| == |months|
    requires forall j, k :: 0 <= j < k < |months| ==> months[j] != months[k]
    requires forall ym :: ym in m <==> ym in months
    requires forall j :: 0 <= j < |months| ==> m[months[j]] == values[j]
    ensures MapSum(m) == Sum(values)
    decreases |months|
  {
    if months != [] {
      var last := |months| - 1;
      MapSumPick(m, months[last]);
      MapSumOfSlots(m - {months[last]}, months[..last], values[..last]);
    } else {
      assert m == map[];
    }
  }

  /** `buildConstructionDraws` (app.js:64-73): one entry per month of the window, holding
      `amount * weights[i]`; the entries add up to the whole amount, or to nothing when the
      window is empty. */
  method BuildConstructionDraws(amount: real, start: Option<Month>, end: Option<Month>,
                                shape: Shape, sigma: real, phi: real -> real)
    returns (schedule: map<Month, real>)
    requires PositiveDensity(phi)
    ensures forall ym :: ym in schedule <==> ym in MonthsOf(start, end)
    ensures forall ym :: Lookup(schedule, ym) ==
              ConstructionDrawAt(amount, start, end, ConstructionWeights(start, end, shape, sigma, phi), ym)
    ensures MapSum(schedule) == if MonthsOf(start, end) == [] then 0.0 else amount
  {
    var months: seq<Month> := [];
    if start.Some? && end.Some? {
      months := MonthsBetweenInclusive(start.value, end.value);
    }
    var weights := AllocationWeights(shape, |months|, sigma, phi);
    WindowDistinct(start, end);
    schedule := SpreadOver(amount, months, weights);
    WindowSlots(start, end);
    SlotsAreReference(amount, start, end, weights, months, schedule);
    WeightsDistribute(shape, |months|, sigma, phi);
    ScheduleTotal(amount, weights, months, schedule);
  }

  /** Under the straight shape every month of the build window draws exactly amount / n. */
  lemma StraightConstructionDraws(amount: real, start: Option<Month>, end: Option<Month>, sigma: real,
                                  phi: real -> real, ym: Month)
    requires PositiveDensity(phi)
    requires ym in MonthsOf(start, end)
    ensures ConstructionDrawAt(amount, start, end, ConstructionWeights(start, end, Straight, sigma, phi), ym)
            == amount / |MonthsOf(start, end)| as real
  {
    var n := |MonthsOf(start, end)|;
    WindowSlots(start, end);
    var k := MonthsDiff(start.value, ym);
    WeightsDistribute(Straight, n, sigma, phi);
    assert Weights(Straight, n, sigma, phi)[k] == 1.0 / n as real;
    ShareOfN(amount, n as real);
  }

  /** A share of 1/n of an amount is the amount divided by n. */
  lemma ShareOfN(amount: real, n: real)
    requires n != 0.0
    ensures amount * (1.0 / n) == amount / n
  {
  }

  /** The loop of `buildConstructionDraws`: month i of the list gets `amount * weights[i]`. */
  method SpreadOver(amount: real, months: seq<Month>, weights: seq<real>) returns (schedule: map<Month, real>)
    requires |weights| == |months|
    requires forall j, k :: 0 <= j < k < |months| ==> months[j] != months[k]
    ensures forall ym :: ym in schedule <==> ym in months
    ensures forall j :: 0 <= j < |months| ==> schedule[months[j]] == amount * weights[j]
  {
    schedule := map[];
    var i := 0;
    while i < |months|
      invariant 0 <= i <= |months|
      invariant forall ym :: ym in schedule <==> ym in months[..i]
      invariant forall j :: 0 <= j < i ==> schedule[months[j]] == amount * weights[j]
    {
      schedule := schedule[months[i] := amount * weights[i]];
      assert months[..i + 1] == months[..i] + [months[i]];
      i := i + 1;
    }
    assert months[..|months|] == months;
  }

  /** The months of the window are distinct. */
  lemma WindowDistinct(start: Option<Month>, end: Option<Month>)
    ensures forall j, k :: 0 <= j < k < |MonthsOf(start, end)| ==> MonthsOf(start, end)[j] != MonthsOf(start, end)[k]
  {
    if start.Some? && end.Some? {
      forall j, k | 0 <= j < k < |MonthsOf(start, end)|
        ensures MonthsOf(start, end)[j] != MonthsOf(start, end)[k]
      {
        assert Index(MonthsOf(start, end)[j]) < Index(MonthsOf(start, end)[k]);
      }
    }
  }

  /** The window as positions: the j-th month is j months after the start, and a month is in
      it exactly when it lies between the ends. */
  lemma WindowSlots(start: Option<Month>, end: Option<Month>)
    ensures start.Some? && end.Some? ==>
              && |MonthsOf(start, end)| == WindowLength(start.value, end.value)
              && forall j :: 0 <= j < |MonthsOf(start, end)| ==> Index(MonthsOf(start, end)[j]) == Index(start.value) + j
    ensures forall ym :: ym in MonthsOf(start, end) <==>
              start.Some? && end.Some? && Index(start.value) <= Index(ym) <= Index(end.value)
  {
    if start.Some? && end.Some? {
      WindowContents(start.value, end.value);
    }
  }

  /** A schedule holding `amount * weights[j]` for the j-th month of the window agrees with the
      reference definition everywhere. */
  lemma SlotsAreReference(amount: real, start: Option<Month>, end: Option<Month>, weights: seq<real>,
                          months: seq<Month>, schedule: map<Month, real>)
    requires |weights| == |months|
    requires start.Some? && end.Some? ==>
               && |months| == WindowLength(start.value, end.value)
               && forall j :: 0 <= j < |months| ==> Index(months[j]) == Index(start.value) + j
    requires forall ym :: ym in months <==>
               start.Some? && end.Some? && Index(start.value) <= Index(ym) <= Index(end.value)
    requires forall ym :: ym in schedule <==> ym in months
    requires forall j :: 0 <= j < |months| ==> schedule[months[j]] == amount * weights[j]
    ensures forall ym :: Lookup(schedule, ym) == ConstructionDrawAt(amount, start, end, weights, ym)
  {
    forall ym | ym in schedule
      ensures schedule[ym] == ConstructionDrawAt(amount, start, end, weights, ym)
    {
      var j :| 0 <= j < |months| && months[j] == ym;
      assert MonthsDiff(start.value, ym) == j;
    }
  }

  /** Weights that sum to 1 spread exactly the amount (nothing over an empty window). */
  lemma ScheduleTotal(amount: real, weights: seq<real>, months: seq<Month>, schedule: map<Month, real>)
    requires |weights| == |months|
    requires months != [] ==> Sum(weights) == 1.0
    requires forall j, k :: 0 <= j < k < |months| ==> months[j] != months[k]
    requires forall ym :: ym in schedule <==> ym in months
    requires forall j :: 0 <= j < |months| ==> schedule[months[j]] == amount * weights[j]
    ensures MapSum(schedule) == if months == [] then 0.0 else amount
  {
    ScheduleSum(amount, weights, months, schedule);
    if months == [] {
      assert weights == [];
      assert amount * 0.0 == 0.0;
    } else {
      assert amount * 1.0 == amount;
    }
  }

  /** The schedule's values add up to the amount times the sum of the weights. */
  lemma ScheduleSum(amount: real, weights: seq<real>, months: seq<Month>, schedule: map<Month, real>)
    requires |weights| == |months|
    requires forall j, k :: 0 <= j < k < |months| ==> months[j] != months[k]
    requires forall ym :: ym in schedule <==> ym in months
    requires forall j :: 0 <= j < |months| ==> schedule[months[j]] == amount * weights[j]
    ensures MapSum(schedule) == amount * Sum(weights)
  {
    var shares := Scaled(weights, amount);
    forall j | 0 <= j < |months|
      ensures schedule[months[j]] == shares[j]
    {
    }
    MapSumOfSlots(schedule, months, shares);
    SumScaled(weights, amount);
  }
}
