/** Calendar arithmetic on `YYYY-MM` months (app.js, lines 10-44). A month string is modelled by the
    pair of numbers it parses to; the engine only ever compares months through `Date` values
    built on the first of the month, which is the linear position `Index` below. */
module Months {
  import opened Wrappers

  /** The pair `[y, m]` that `ym.split('-').map(Number)` yields. */
  datatype YearMonth = YearMonth(year: int, month: int)

  /** A month whose month-of-year is 1..12, as every `<input type="month">` value is. */
  type Month = m: YearMonth | 1 <= m.month <= 12 witness YearMonth(2000, 1)

  /** Months elapsed since January of year 0: the order `Date` timestamps of first days induce. */
  function Index(m: Month): int
  {
    m.year * 12 + m.month - 1
  }

  /** The month at a given position; `/` and `%` are Euclidean, so negative positions work too. */
  function FromIndex(i: int): (m: Month)
    ensures Index(m) == i
  {
    YearMonth(i / 12, i % 12 + 1)
  }

  /** Two months are the same month exactly when they sit at the same position. */
  lemma IndexInjective(a: Month, b: Month)
    ensures Index(a) == Index(b) <==> a == b
  {
    if Index(a) == Index(b) {
      assert (a.year - b.year) * 12 == b.month - a.month;
    }
  }

  /** `d.setMonth(d.getMonth() + 1)` on the first day of a month. */
  function Next(m: Month): (n: Month)
    ensures Index(n) == Index(m) + 1
  {
    if m.month == 12 then YearMonth(m.year + 1, 1) else YearMonth(m.year, m.month + 1)
  }

  /** The month `k` months after `m` (before it, for negative `k`). */
  function Advance(m: Month, k: int): (n: Month)
    ensures Index(n) == Index(m) + k
  {
    FromIndex(Index(m) + k)
  }

  /** `cmpYm` (app.js:30-37): 0 when either month is missing, otherwise -1, 0 or 1 by calendar
      position. */
  function Cmp(a: Option<Month>, b: Option<Month>): (r: int)
    ensures -1 <= r <= 1
    ensures a.None? || b.None? ==> r == 0
    ensures a.Some? && b.Some? ==>
              && (r == 0 <==> a.value == b.value)
              && (r < 0 <==> Index(a.value) < Index(b.value))
              && (r > 0 <==> Index(b.value) < Index(a.value))
  {
    if a.None? || b.None? then 0
    else
      var da := Index(a.value);
      var db := Index(b.value);
      IndexInjective(a.value, b.value);
      if da == db then 0 else if da < db then -1 else 1
  }

  /** `monthsDiff` (app.js:40-44): the signed number of whole months from `a` to `b`, so that
      advancing `a` by it lands exactly on `b`. */
  function MonthsDiff(a: Month, b: Month): (d: int)
    ensures Index(a) + d == Index(b)
  {
    (b.year - a.year) * 12 + (b.month - a.month)
  }

  /** Advancing `a` by `MonthsDiff(a, b)` lands exactly on `b`. */
  lemma AdvanceByDiff(a: Month, b: Month)
    ensures Advance(a, MonthsDiff(a, b)) == b
  {
    IndexInjective(Advance(a, MonthsDiff(a, b)), b);
  }

  /** Gregorian leap years. */
  predicate IsLeap(y: int)
  {
    (y % 4 == 0 && y % 100 != 0) || y % 400 == 0
  }

  /** `daysInMonth` (app.js:24-27): day 0 of the following month is the last day of this one. */
  function DaysInMonth(m: Month): (d: int)
    ensures 28 <= d <= 31
    ensures m.month == 2 ==> (d == 29 <==> IsLeap(m.year)) && (d == 28 <==> !IsLeap(m.year))
    ensures m.month != 2 ==> (d == 30 <==> m.month in {4, 6, 9, 11}) && (d == 31 <==> m.month !in {4, 6, 9, 11})
  {
    if m.month == 2 then (if IsLeap(m.year) then 29 else 28)
    else if m.month in {4, 6, 9, 11} then 30
    else 31
  }

  /** Days in the months January..k of year y. */
  function DaysThrough(y: int, k: int): int
    requires 0 <= k <= 12
  {
    if k == 0 then 0 else DaysThrough(y, k - 1) + DaysInMonth(YearMonth(y, k))
  }

  /** The twelve month lengths add up to the length of the Gregorian year. */
  lemma {:induction false} YearLength(y: int)
    ensures DaysThrough(y, 12) == if IsLeap(y) then 366 else 365
  {
    assert DaysThrough(y, 1) == 31;
    assert DaysThrough(y, 2) == 31 + (if IsLeap(y) then 29 else 28);
    assert DaysThrough(y, 3) == DaysThrough(y, 2) + 31;
    assert DaysThrough(y, 4) == DaysThrough(y, 3) + 30;
    assert DaysThrough(y, 5) == DaysThrough(y, 4) + 31;
    assert DaysThrough(y, 6) == DaysThrough(y, 5) + 30;
    assert DaysThrough(y, 7) == DaysThrough(y, 6) + 31;
    assert DaysThrough(y, 8) == DaysThrough(y, 7) + 31;
    assert DaysThrough(y, 9) == DaysThrough(y, 8) + 30;
    assert DaysThrough(y, 10) == DaysThrough(y, 9) + 31;
    assert DaysThrough(y, 11) == DaysThrough(y, 10) + 30;
  }

  /** Number of months in the inclusive window [start, end]; 0 when end is before start. */
  function WindowLength(start: Month, end: Month): (n: nat)
    ensures Index(start) <= Index(end) ==> n == MonthsDiff(start, end) + 1
    ensures Index(end) < Index(start) ==> n == 0
  {
    if Index(end) < Index(start) then 0 else Index(end) - Index(start) + 1
  }

  /** The inclusive window as a sequence: element i is `start` advanced by i months. */
  function Window(start: Month, end: Month): (w: seq<Month>)
    ensures |w| == WindowLength(start, end)
  {
    seq(WindowLength(start, end), i => Advance(start, i))
  }

  /** The months `monthsBetweenInclusive` yields when a month string may be blank: a blank
      string parses to an invalid `Date`, the loop test is false at once and no month results. */
  function MonthsOf(start: Option<Month>, end: Option<Month>): seq<Month>
  {
    if start.Some? && end.Some? then Window(start.value, end.value) else []
  }

  /** The window holds exactly the months between its ends. */
  lemma WindowContents(start: Month, end: Month)
    ensures forall m: Month :: m in Window(start, end) <==> Index(start) <= Index(m) <= Index(end)
  {
    var w := Window(start, end);
    forall m: Month | Index(start) <= Index(m) <= Index(end)
      ensures m in w
    {
      var i := Index(m) - Index(start);
      IndexInjective(w[i], m);
    }
  }

  /** The window is strictly increasing under `cmpYm`. */
  lemma WindowIncreasing(start: Month, end: Month)
    ensures forall i, j :: 0 <= i < j < |Window(start, end)| ==>
              Cmp(Some(Window(start, end)[i]), Some(Window(start, end)[j])) < 0
  {
  }

  /** `monthsBetweenInclusive` (app.js:10-22): walks a cursor from `start` one month at a time
      while it is not after `end`, collecting each month. */
  method MonthsBetweenInclusive(start: Month, end: Month) returns (months: seq<Month>)
    ensures |months| == if Cmp(Some(end), Some(start)) >= 0 then MonthsDiff(start, end) + 1 else 0
    ensures forall i :: 0 <= i < |months| ==> months[i] == Advance(start, i)
    ensures months == Window(start, end)
  {
    months := [];
    var d := start;
    while Index(d) <= Index(end)
      invariant Index(d) == Index(start) + |months|
      invariant Index(d) <= Index(end) + 1 || months == []
      invariant forall i :: 0 <= i < |months| ==> months[i] == Advance(start, i)
      decreases Index(end) + 1 - Index(d)
    {
      IndexInjective(d, Advance(start, |months|));
      months := months + [d];
      d := Next(d);
    }
  }
}
