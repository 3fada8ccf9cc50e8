/** The asset-value projection `computeAssetSeries` (app.js:400-426): the asset's starting
    value, one point a year at the index month inside the window, and a closing point at the
    scenario end, each compounded by the growth rate once per index boundary passed. */
module Asset {
  import opened Wrappers
  import opened Months
  import opened Indexation

  /** A point's label: 'Start', the year as a string, or 'End'. */
  datatype AssetLabel = Start | Year(y: int) | End

  datatype AssetPoint = AssetPoint(kind: AssetLabel, ym: Month, value: real)

  /** `assetStartMonth || conEnd || startMonth` (app.js:394): the first of the three months
      that is given. */
  function AssetStartOf(assetStartMonth: Option<Month>, conEnd: Option<Month>, startMonth: Option<Month>)
    : (s: Option<Month>)
    ensures s.None? <==> assetStartMonth.None? && conEnd.None? && startMonth.None?
    ensures s.Some? ==> s == assetStartMonth || s == conEnd || s == startMonth
    ensures assetStartMonth.Some? ==> s == assetStartMonth
    ensures assetStartMonth.None? ==> s == if conEnd.Some? then conEnd else startMonth
  {
    if assetStartMonth.Some? then assetStartMonth else if conEnd.Some? then conEnd else startMonth
  }

  /** `assetBase * Math.pow(1 + assetGrowth / 100, steps)`. */
  function Grown(base: real, growthPct: real, steps: nat): real
  {
    base * Pow(1.0 + growthPct / 100.0, steps)
  }

  /** The point the loop adds for year y: one when (y, k) lies in [s, e], none otherwise. */
  function YearPoint(s: Month, e: Month, k: int, base: real, growthPct: real, y: int): (pts: seq<AssetPoint>)
    requires 1 <= k <= 12
    ensures |pts| <= 1
    ensures pts != [] <==> Index(s) <= Index(YearMonth(y, k)) <= Index(e)
    ensures pts != [] ==>
              pts[0] == AssetPoint(Year(y), YearMonth(y, k), Grown(base, growthPct, IndexSteps(s, YearMonth(y, k), k)))
  {
    var ym := YearMonth(y, k);
    if Cmp(Some(ym), Some(s)) >= 0 && Cmp(Some(ym), Some(e)) <= 0 then
      [AssetPoint(Year(y), ym, Grown(base, growthPct, IndexSteps(s, ym, k)))]
    else []
  }

  /** The points of the years from s's year through y, in order. */
  function YearPoints(s: Month, e: Month, k: int, base: real, growthPct: real, y: int): seq<AssetPoint>
    requires 1 <= k <= 12
    decreases y - s.year + 1
  {
    if y < s.year then [] else YearPoints(s, e, k, base, growthPct, y - 1) + YearPoint(s, e, k, base, growthPct, y)
  }

  /** The series `computeAssetSeries` returns: nothing when the asset start or a scenario month
      is missing; otherwise the start point, the annual points, and an end point unless the
      last point already falls on the end month. */
  function AssetSeries(startMonth: Option<Month>, endMonth: Option<Month>, base: real,
                       assetStart: Option<Month>, k: int, growthPct: real): seq<AssetPoint>
    requires 1 <= k <= 12
  {
    if assetStart.None? || startMonth.None? || endMonth.None? then []
    else
      var s := assetStart.value;
      var e := endMonth.value;
      var points := [AssetPoint(Start, s, base)] + YearPoints(s, e, k, base, growthPct, e.year);
      if Cmp(Some(points[|points| - 1].ym), Some(e)) != 0 then
        points + [AssetPoint(End, e, Grown(base, growthPct, IndexSteps(s, e, k)))]
      else points
  }

  /** `computeAssetSeries(inputs)`, with the asset inputs passed in. */
  method ComputeAssetSeries(startMonth: Option<Month>, endMonth: Option<Month>, assetBase: real,
                            assetStart: Option<Month>, assetIdxMonth: int, assetGrowth: real)
    returns (series: seq<AssetPoint>)
    requires 1 <= assetIdxMonth <= 12
    ensures series == AssetSeries(startMonth, endMonth, assetBase, assetStart, assetIdxMonth, assetGrowth)
  {
    series := [];
    if assetStart.None? || startMonth.None? || endMonth.None? {
      return;
    }
    var s: Month := assetStart.value;
    var e: Month := endMonth.value;
    series := [AssetPoint(Start, s, assetBase)];
    series := AddYearPoints(series, s, e, assetBase, assetIdxMonth, assetGrowth);
    var last := series[|series| - 1];
    if Cmp(Some(last.ym), Some(e)) != 0 {
      var stepsEnd := IndexSteps(s, e, assetIdxMonth);
      var valEnd := Grown(assetBase, assetGrowth, stepsEnd);
      series := series + [AssetPoint(End, e, valEnd)];
    }
  }

  /** The loop of `computeAssetSeries`: for each year from s's through e's, the point at the
      index month when it lies in [s, e]. */
  method AddYearPoints(series0: seq<AssetPoint>, s: Month, e: Month, assetBase: real, assetIdxMonth: int,
                       assetGrowth: real)
    returns (series: seq<AssetPoint>)
    requires 1 <= assetIdxMonth <= 12
    ensures series == series0 + YearPoints(s, e, assetIdxMonth, assetBase, assetGrowth, e.year)
  {
    series := series0;
    var y := s.year;
    while y <= e.year
      invariant s.year <= y && (y <= e.year + 1 || y == s.year)
      invariant series == series0 + YearPoints(s, e, assetIdxMonth, assetBase, assetGrowth, y - 1)
    {
      var ym: Month := YearMonth(y, assetIdxMonth);
      YearPointOf(s, e, assetIdxMonth, assetBase, assetGrowth, y);
      if Cmp(Some(ym), Some(s)) >= 0 && Cmp(Some(ym), Some(e)) <= 0 {
        var steps := IndexSteps(s, ym, assetIdxMonth);
        var val := Grown(assetBase, assetGrowth, steps);
        series := series + [AssetPoint(Year(y), ym, val)];
      }
      y := y + 1;
    }
    assert YearPoints(s, e, assetIdxMonth, assetBase, assetGrowth, y - 1)
        == YearPoints(s, e, assetIdxMonth, assetBase, assetGrowth, e.year);
  }

  /** One more year adds that year's point, if any. */
  lemma YearPointOf(s: Month, e: Month, k: int, base: real, growthPct: real, y: int)
    requires 1 <= k <= 12 && s.year <= y
    ensures var ym := YearMonth(y, k);
      YearPoints(s, e, k, base, growthPct, y) == YearPoints(s, e, k, base, growthPct, y - 1) +
        if Index(s) <= Index(ym) <= Index(e) then [AssetPoint(Year(y), ym, Grown(base, growthPct, IndexSteps(s, ym, k)))]
        else []
  {
    var pt := YearPoint(s, e, k, base, growthPct, y);
    if pt != [] {
      assert pt == [pt[0]];
    }
  }

  /** Every point is an annual point of a year from s's year through y, at that year's index
      month inside [s, e], carrying the base compounded once per boundary passed since s; the
      years strictly increase along the list. */
  ghost predicate AnnualPoints(s: Month, e: Month, k: int, base: real, growthPct: real, y: int, pts: seq<AssetPoint>)
    requires 1 <= k <= 12
  {
    && (forall i :: 0 <= i < |pts| ==>
          && pts[i].kind.Year?
          && s.year <= pts[i].kind.y <= y
          && pts[i].ym == YearMonth(pts[i].kind.y, k)
          && Index(s) <= Index(pts[i].ym) <= Index(e)
          && pts[i].value == Grown(base, growthPct, IndexSteps(s, pts[i].ym, k)))
    && (forall i, j :: 0 <= i < j < |pts| ==> pts[i].kind.y < pts[j].kind.y)
  }

  /** Every annual point belongs to a year from s's year through y, sits at that year's index
      month inside [s, e], and carries the base compounded once per boundary passed since s;
      the years strictly increase along the list. */
  lemma {:induction false} YearPointsFacts(s: Month, e: Month, k: int, base: real, growthPct: real, y: int)
    requires 1 <= k <= 12
    ensures AnnualPoints(s, e, k, base, growthPct, y, YearPoints(s, e, k, base, growthPct, y))
    decreases y - s.year + 1
  {
    if y >= s.year {
      YearPointsFacts(s, e, k, base, growthPct, y - 1);
      var prev := YearPoints(s, e, k, base, growthPct, y - 1);
      var cur := YearPoint(s, e, k, base, growthPct, y);
      var pts := YearPoints(s, e, k, base, growthPct, y);
      assert pts == prev + cur;
      forall i | 0 <= i < |pts|
        ensures pts[i].kind.Year? && s.year <= pts[i].kind.y <= y && pts[i].ym == YearMonth(pts[i].kind.y, k)
        ensures Index(s) <= Index(pts[i].ym) <= Index(e)
        ensures pts[i].value == Grown(base, growthPct, IndexSteps(s, pts[i].ym, k))
      {
        if i < |prev| {
          assert pts[i] == prev[i] && prev[i].kind.Year?;
        } else {
          assert pts[i] == cur[0];
        }
      }
      forall i, j | 0 <= i < j < |pts|
        ensures pts[i].kind.y < pts[j].kind.y
      {
        assert pts[i] == prev[i] && prev[i].kind.Year?;
        if j < |prev| {
          assert pts[j] == prev[j] && prev[j].kind.Year?;
        } else {
          assert pts[j] == cur[0];
        }
      }
    }
  }

  /** The annual point of year y passed y - f + 1 boundaries, f being the first year whose index
      month is not before s: the first annual point is one step up on the base, the next two,
      and so on. */
  lemma AnnualSteps(s: Month, k: int, y: int)
    requires 1 <= k <= 12
    requires Index(s) <= Index(YearMonth(y, k))
    ensures var first := if k >= s.month then s.year else s.year + 1;
      y >= first && IndexSteps(s, YearMonth(y, k), k) == y - first + 1
  {
  }

  /** The series is empty exactly when the asset start or a scenario month is missing;
      otherwise it opens with the start point at the base value and closes on the end month. */
  lemma AssetSeriesShape(startMonth: Option<Month>, endMonth: Option<Month>, base: real,
                         assetStart: Option<Month>, k: int, growthPct: real)
    requires 1 <= k <= 12
    ensures var series := AssetSeries(startMonth, endMonth, base, assetStart, k, growthPct);
      && (series == [] <==> assetStart.None? || startMonth.None? || endMonth.None?)
      && (series != [] ==>
            && series[0] == AssetPoint(Start, assetStart.value, base)
            && series[|series| - 1].ym == endMonth.value)
  {
    if assetStart.Some? && startMonth.Some? && endMonth.Some? {
      var s := assetStart.value;
      var e := endMonth.value;
      var points := [AssetPoint(Start, s, base)] + YearPoints(s, e, k, base, growthPct, e.year);
      assert points[0] == AssetPoint(Start, s, base);
      if Cmp(Some(points[|points| - 1].ym), Some(e)) == 0 {
        assert points[|points| - 1].ym == e;
      }
    }
  }

  /** Every point after the first is an annual or end point carrying the base compounded once
      per index boundary passed between s and its month. */
  ghost predicate Compounded(series: seq<AssetPoint>, s: Month, k: int, base: real, growthPct: real)
    requires 1 <= k <= 12
  {
    forall i :: 0 < i < |series| ==>
      && (series[i].kind.Year? || series[i].kind.End?)
      && series[i].value == Grown(base, growthPct, IndexSteps(s, series[i].ym, k))
  }

  /** After the first point, months never go back, and none is after e. */
  ghost predicate InOrderUpTo(series: seq<AssetPoint>, e: Month)
  {
    && (forall i, j :: 0 < i < j < |series| ==> Index(series[i].ym) <= Index(series[j].ym))
    && (forall i :: 0 < i < |series| ==> Index(series[i].ym) <= Index(e))
  }

  /** The start point followed by the annual points. */
  lemma StartThenAnnual(s: Month, e: Month, k: int, base: real, growthPct: real, pts: seq<AssetPoint>)
    requires 1 <= k <= 12
    requires AnnualPoints(s, e, k, base, growthPct, e.year, pts)
    ensures Compounded([AssetPoint(Start, s, base)] + pts, s, k, base, growthPct)
    ensures InOrderUpTo([AssetPoint(Start, s, base)] + pts, e)
  {
    var points := [AssetPoint(Start, s, base)] + pts;
    forall i | 0 < i < |points|
      ensures points[i] == pts[i - 1]
    {
    }
    forall i, j | 0 < i < j < |points|
      ensures Index(points[i].ym) <= Index(points[j].ym)
    {
      assert pts[i - 1].kind.y < pts[j - 1].kind.y;
    }
  }

  /** Appending the end point keeps both properties. */
  lemma ThenEnd(series: seq<AssetPoint>, s: Month, e: Month, k: int, base: real, growthPct: real)
    requires 1 <= k <= 12
    requires Compounded(series, s, k, base, growthPct) && InOrderUpTo(series, e)
    ensures var last := AssetPoint(End, e, Grown(base, growthPct, IndexSteps(s, e, k)));
      Compounded(series + [last], s, k, base, growthPct) && InOrderUpTo(series + [last], e)
  {
    var last := AssetPoint(End, e, Grown(base, growthPct, IndexSteps(s, e, k)));
    var longer := series + [last];
    forall i | 0 < i < |longer|
      ensures longer[i] == if i < |series| then series[i] else last
    {
    }
  }

  /** Every point after the start carries the base compounded once per index boundary passed
      between the asset start and the point's month, and no point after the start comes
      before an earlier one's month or after the end month. */
  lemma AssetSeriesValues(startMonth: Option<Month>, endMonth: Option<Month>, base: real,
                          assetStart: Option<Month>, k: int, growthPct: real)
    requires 1 <= k <= 12
    requires assetStart.Some? && endMonth.Some?
    ensures Compounded(AssetSeries(startMonth, endMonth, base, assetStart, k, growthPct), assetStart.value, k, base, growthPct)
    ensures InOrderUpTo(AssetSeries(startMonth, endMonth, base, assetStart, k, growthPct), endMonth.value)
  {
    if startMonth.Some? {
      var s := assetStart.value;
      var e := endMonth.value;
      var pts := YearPoints(s, e, k, base, growthPct, e.year);
      var points := [AssetPoint(Start, s, base)] + pts;
      YearPointsFacts(s, e, k, base, growthPct, e.year);
      StartThenAnnual(s, e, k, base, growthPct, pts);
      if Cmp(Some(points[|points| - 1].ym), Some(e)) != 0 {
        ThenEnd(points, s, e, k, base, growthPct);
      }
    }
  }

  /** A non-negative base growing at a non-negative rate never falls along the series. */
  lemma AssetSeriesGrows(startMonth: Option<Month>, endMonth: Option<Month>, base: real,
                         assetStart: Option<Month>, k: int, growthPct: real)
    requires 1 <= k <= 12
    requires base >= 0.0 && growthPct >= 0.0
    ensures forall i, j :: 0 <= i < j < |AssetSeries(startMonth, endMonth, base, assetStart, k, growthPct)| ==>
              AssetSeries(startMonth, endMonth, base, assetStart, k, growthPct)[i].value
                <= AssetSeries(startMonth, endMonth, base, assetStart, k, growthPct)[j].value
  {
    var series := AssetSeries(startMonth, endMonth, base, assetStart, k, growthPct);
    if assetStart.Some? && startMonth.Some? && endMonth.Some? {
      var s := assetStart.value;
      AssetSeriesShape(startMonth, endMonth, base, assetStart, k, growthPct);
      AssetSeriesValues(startMonth, endMonth, base, assetStart, k, growthPct);
      forall i, j | 0 <= i < j < |series|
        ensures series[i].value <= series[j].value
      {
        var b := IndexSteps(s, series[j].ym, k);
        if i == 0 {
          assert series[i].value == Grown(base, growthPct, 0);
          GrownMonotone(base, growthPct, 0, b);
        } else {
          var a := IndexSteps(s, series[i].ym, k);
          IndexStepsProperties(s, series[i].ym, series[j].ym, k);
          GrownMonotone(base, growthPct, a, b);
        }
      }
    }
  }

  /** Compounding a non-negative base at a non-negative rate for more steps gives no less. */
  lemma GrownMonotone(base: real, growthPct: real, a: nat, b: nat)
    requires base >= 0.0 && growthPct >= 0.0 && a <= b
    ensures Grown(base, growthPct, a) <= Grown(base, growthPct, b)
  {
    var x := 1.0 + growthPct / 100.0;
    PowMonotone(x, a, b);
    assert base * Pow(x, a) <= base * Pow(x, b);
  }
}
