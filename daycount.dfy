/** Day-count conventions for monthly interest accrual (app.js:89-94). */
module DayCount {
  import opened Months

  /** The day-count selector. The source compares strings: '30/360' and 'ACT/360' are recognised,
      and every other value, including 'ACT/365', takes the ACT/365 branch. */
  datatype Convention = Thirty360 | Act360 | Act365

  /** `dayCountFactor(ym, convention)`: the fraction of a year one month of interest covers. */
  function DayCountFactor(m: Month, convention: Convention): (f: real)
    ensures convention == Thirty360 ==> f == 1.0 / 12.0
    ensures convention == Act360 ==> 28.0 / 360.0 <= f <= 31.0 / 360.0
    ensures convention == Act365 ==> 28.0 / 365.0 <= f <= 31.0 / 365.0
    ensures convention == Act360 ==> f * 360.0 == DaysInMonth(m) as real
    ensures convention == Act365 ==> f * 365.0 == DaysInMonth(m) as real
  {
    var d := DaysInMonth(m);
    if convention == Thirty360 then 30.0 / 360.0
    else if convention == Act360 then d as real / 360.0
    else d as real / 365.0
  }

  /** The factors of months 1..k of year y, added up. */
  function FactorsThrough(y: int, k: int, convention: Convention): real
    requires 0 <= k <= 12
  {
    if k == 0 then 0.0 else FactorsThrough(y, k - 1, convention) + DayCountFactor(YearMonth(y, k), convention)
  }

  /** The twelve monthly factors of a calendar year add up to the year as the convention counts
      it: exactly one year under 30/360 and ACT/365 in a common year, 366/365 in a leap year,
      and the actual number of days over 360 under ACT/360. */
  lemma {:induction false} YearOfFactors(y: int, convention: Convention)
    ensures FactorsThrough(y, 12, convention) ==
              match convention
              case Thirty360 => 1.0
              case Act360 => (if IsLeap(y) then 366.0 else 365.0) / 360.0
              case Act365 => if IsLeap(y) then 366.0 / 365.0 else 1.0
  {
    FactorsCountDays(y, 12, convention);
    YearLength(y);
  }

  /** Up to month k the factors total k/12 under 30/360, and the days elapsed over the
      convention's year basis otherwise. */
  lemma {:induction false} FactorsCountDays(y: int, k: int, convention: Convention)
    requires 0 <= k <= 12
    ensures FactorsThrough(y, k, convention) ==
              match convention
              case Thirty360 => k as real / 12.0
              case Act360 => DaysThrough(y, k) as real / 360.0
              case Act365 => DaysThrough(y, k) as real / 365.0
  {
    if k > 0 {
      FactorsCountDays(y, k - 1, convention);
    }
  }
}
