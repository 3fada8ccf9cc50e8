# SDA Modeler cashflow and asset engine, in Dafny

This project models the engine of the SDA Modeler, a browser tool for planning a Specialist
Disability Accommodation development. The browser layer is left out. The model covers:

- **Month arithmetic.** `YYYY-MM` months are modelled as `Months.Month`, a `(year, month)` pair
  with the absolute index `year * 12 + month - 1`. The model enumerates windows, compares and
  subtracts months, and counts the days in a month by the Gregorian leap-year rule.
- **Annual indexation.** `indexSteps` counts the index-month boundaries passed.
- **Allocation curve.** The weights spread a construction budget over the build window. The
  straight branch is exact. The s-curve takes the normal density as a parameter.
- **Draw schedules.** These are maps from month to amount, one for land and one for construction.
- **Pricing helpers.** The day-count factor, the NSW transfer-duty schedule, and CSV field
  quoting (section 2, rules 6 and 7 of RFC 4180).
- **The monthly simulator `computeCashflow`.**
  - Each month, interest accrues on the opening balance.
  - Draws are added, and interest is added only when it is capitalised.
  - Ramped, indexed and vacancy-adjusted participant income is taken off.
  - The balance is floored at zero.
  - Totals and the peak balance are carried along.
- **The asset-growth series `computeAssetSeries`.**
- **Input validation `validate`.**

Money and rates are Dafny `real`s, so the arithmetic is exact. Where the source changes state
step by step, the model is imperative: `monthsBetweenInclusive`, `allocationWeights`, the two
draw builders, the `computeCashflow` loop, `computeAssetSeries` and `validate`. Each of these is a
method, and its `ensures` ties its result to a reference function. The properties are then
proved as lemmas about those functions. The rest is functions.

Modules, one file each:

| module | file | role |
|---|---|---|
| `Wrappers` | `wrappers.dfy` | `Option`; `Max`, `Min`, `Clamp` |
| `Months` | `months.dfy` | month arithmetic |
| `Indexation` | `indexation.dfy` | index steps; growth `Pow` |
| `Sums` | `sums.dfy` | sums of sequences and of map values |
| `Allocation` | `allocation.dfy` | allocation weights |
| `Draws` | `draws.dfy` | draw schedules |
| `DayCount` | `daycount.dfy` | day-count factor |
| `StampDuty` | `stamp_duty.dfy` | NSW duty |
| `Csv` | `csv.dfy` | CSV field quoting |
| `Income` | `income.dfy` | participant income |
| `Cashflow` | `cashflow.dfy` | the monthly ledger |
| `Asset` | `asset.dfy` | the asset series |
| `Validation` | `validate.dfy` | input validation |

How the form's inputs are represented:

- **Blank month fields.** A month field may be blank, so it is an `Option<Month>`.
- **Selector strings.** `allocation` and `dayCount` are datatypes. As in the source, any value
  other than `'straight'` takes the s-curve branch. Any value other than `'30/360'` and
  `'ACT/360'` takes ACT/365.

## Model

| member | source | states |
|---|---|---|
| `Months.MonthsBetweenInclusive` | app.js:10-22 | when end is not before start, the list has `monthsDiff(start, end) + 1` months and is empty otherwise; element i is start advanced by exactly i months |
| `Months.WindowContents` | app.js:10-22 | the enumerated window holds exactly the months from start to end inclusive |
| `Months.WindowIncreasing` | app.js:17-20 | the enumerated months are strictly increasing under `cmpYm` |
| `Months.DaysInMonth` | app.js:24-27 | a month has 28 to 31 days; February has 29 exactly in leap years; April, June, September and November have 30; the rest have 31 |
| `Months.YearLength` | app.js:24-27 | the twelve months of a year add up to 366 days in a leap year and 365 otherwise |
| `Months.Cmp` | app.js:30-37 | 0 when either month is missing; otherwise 0, negative or positive exactly as the first month is equal to, before or after the second |
| `Months.IndexInjective` | app.js:34-36 | two months have the same position on the calendar exactly when they are the same month |
| `Months.MonthsDiff` | app.js:40-44 | the difference is the number of months from a to b: a's index plus it is b's index |
| `Months.AdvanceByDiff` | app.js:40-44 | advancing a by `monthsDiff(a, b)` months lands on b |
| `Indexation.IndexStepsCountsBoundaries` | app.js:379-388 | `indexSteps(s, ym, k)` equals the number of months (y, k) in the inclusive window [s, ym] |
| `Indexation.IndexStepsStep` | app.js:379-388 | from the scenario start on, moving one month forward adds 1 to the count exactly when the new month is the index month |
| `Indexation.IndexStepsProperties` | app.js:379-388 | 0 before the start; non-decreasing in ym; rises by exactly 1 at each index-month crossing; 1, not 0, at ym = s when s's month is the index month |
| `Indexation.IndexStepsExample` | app.js:379-388 | with start 2024-03 and index month 7: 2024-06 gives 0, 2024-07 gives 1, 2025-06 gives 1, 2025-07 gives 2 |
| `Indexation.PowMonotone` | app.js:160-161 | compounding by a factor of at least 1 never decreases as steps are added |
| `Allocation.Weights` | app.js:46-62 | there are no weights for n <= 0 and n weights otherwise |
| `Allocation.AllocationWeights` | app.js:46-62 | the method's weights are those of the reference function `Weights`: empty for n <= 0, 1/n each for straight, normalised densities for the s-curve |
| `Allocation.WeightsDistribute` | app.js:46-62 | every weight is positive; for n >= 1 the weights sum to 1; under straight every weight is 1/n |
| `Allocation.Normalised` | app.js:60-61 | dividing positive densities by their sum gives positive weights that sum to 1 |
| `Allocation.SCurveSymmetric` | app.js:51-61 | with a symmetric density, slot i and slot n-1-i get the same s-curve weight |
| `Draws.BuildLandDraws` | app.js:75-87 | the keys are exactly landMonth (when the land loan or the stamp duty is positive) and otherAcqMonth (when its costs are positive); each month holds the sum of the positive amounts that fall in it, adding when the months coincide; the values sum to those positive amounts |
| `Draws.AddTo` | app.js:78 | the key is added; only its entry grows, by the amount; the sum of the values grows by the amount |
| `Draws.BuildConstructionDraws` | app.js:64-73 | the keys are exactly the build window's months; each month holds the amount times its slot's weight; the values sum to the amount, or to 0 over an empty window |
| `Draws.SpreadOver` | app.js:68-71 | month i of the window gets `amount * weights[i]`, and no other key is set |
| `Draws.SlotsAreReference` | app.js:68-71 | the schedule built slot by slot agrees with the reference definition month by month |
| `Draws.StraightConstructionDraws` | app.js:64-73 | under straight allocation every month of the build window draws exactly amount / n |
| `Draws.ScheduleTotal` | app.js:64-73 | weights summing to 1 spread exactly the amount over the window |
| `Draws.ScheduleSum` | app.js:68-71 | the schedule's values add up to the amount times the sum of the weights |
| `DayCount.DayCountFactor` | app.js:89-94 | 30/360 gives exactly 1/12; ACT/360 and ACT/365 give the month's days over 360 or 365, so between 28 and 31 days' worth |
| `DayCount.YearOfFactors` | app.js:89-94 | over a calendar year the factors add to 1 under 30/360, to 365/360 or 366/360 under ACT/360, and to 1 or 366/365 under ACT/365 |
| `DayCount.FactorsCountDays` | app.js:89-94 | the factors of the first k months add to k/12, or to the days elapsed over 360 or 365 |
| `StampDuty.StampDutyAsWritten` | app.js:96-105 | the duty as written is never negative and is 0 for a value of 0 or less |
| `StampDuty.StampDutyAsWrittenJumps` | app.js:102-104 | the as-written schedule jumps by more than 153 at 310,000 and by more than 389 at 1,033,000; up to 310,000 it equals the continuous schedule, and above those thresholds it exceeds it by exactly 153 and 542 |
| `StampDuty.StampDuty` | app.js:96-105 | the corrected duty is never negative and is 0 for a value of 0 or less |
| `StampDuty.StampDutyIsMarginal` | app.js:99-104 | the corrected schedule is the sum of each bracket's marginal rate on the slice of the value that falls in it |
| `StampDuty.StampDutyProgressive` | app.js:99-104 | the corrected duty never falls as the value rises, and grows by at most 5.5% of the increase |
| `Csv.CsvValue` | app.js:516-521 | a missing value gives the empty field; a value without a quote, comma or line feed is written unchanged; any other value is enclosed in double quotes |
| `Csv.UnescapeEscapeQuotes` | app.js:520 | doubling every quote can be undone |
| `Csv.CsvValueRoundTrip` | app.js:516-521 | reading the field back, by rules 6 and 7 of RFC 4180, gives the original value; the field is the value itself exactly when no quoting is needed |
| `Income.Normalize` | app.js:133-146 | name, start, SDA and RRC are kept; the target percentage is clamped to [0, 100] and becomes a fraction in [0, 1]; a negative ramp becomes 0 |
| `Income.Occupancy` | app.js:155-157 | occupancy never exceeds the target; it is not negative from the start month on; it equals the target with no ramp, or once diff + 1 >= ramp |
| `Income.OccupancyRamps` | app.js:155-157 | occupancy never falls as the months go by |
| `Income.OccupancyDuringRamp` | app.js:157 | before the ramp ends, occupancy is the share (diff + 1) / ramp of the target |
| `Income.ParticipantIncomeCounted` | app.js:150-164 | from the start month on, income is (SDA × (1 + sdaIdx)^b + RRC × (1 + rrcIdx)^b) × occupancy × (1 - vacancy), where b counts the index months from the scenario start up to this month (`Boundaries`, defined independently of `indexSteps`) |
| `Income.OccupancyExample` | app.js:155-157 | with a six-month ramp: one sixth of the target in the start month, the full target in the sixth month and later |
| `Income.ParticipantIncome` | app.js:150-151 | no income without a start month or before it |
| `Income.ParticipantIncomeBounds` | app.js:150-164 | with non-negative rents, income lies between 0 and the indexed gross rent |
| `Income.MonthIncomeBounds` | app.js:170 | the month's total income is not negative, and is 0 when no participant has started |
| `Cashflow.IndexMonthOf` | app.js:129 | the index month lies in 1..12; 0 (not given) means July; a month in range is kept |
| `Cashflow.TermsOf` | app.js:128-131 | the vacancy fraction is the percentage / 100 within [0, 100], 0 below and 1 above; each indexation rate is its percentage / 100, and -1 below -100%; the index month is `IndexMonthOf` of the input (0 reads as July, others clamped to 1..12) |
| `Cashflow.Step` | app.js:172-173 | the new balance is never negative, is at least the unfloored balance, and is 0 or equal to it |
| `Cashflow.ComputeCashflow` | app.js:107-185 | the rows are the ledger over the scenario window; the totals are the sums of the rows' draws, interest (when capitalised, else 0) and income, the clamped deposit and stamp duty, the last balance and the peak |
| `Cashflow.Walk` | app.js:166-180 | after the loop, the rows are the specified ledger; the balance is its closing balance; each total is its column sum, with interest counted only when capitalised; the peak is its peak |
| `Cashflow.WalkStep` | app.js:174-179 | one pass of the loop keeps every running total equal to the same quantity over the ledger one month longer |
| `Cashflow.MonthRow` | app.js:167-174 | the row pushed for a month is the specified row for that month and opening balance |
| `Cashflow.LedgerStep` | app.js:174-179 | a further month extends the ledger by its row, and each running total by that row's share |
| `Cashflow.LedgerRow` | app.js:166-175 | row i of the ledger is computed from month i and the previous row's closing balance, or 0 for the first row |
| `Cashflow.FirstInterest` | app.js:122 | the first row's interest is 0 because the balance starts at 0 |
| `Cashflow.RowsDraws` | app.js:166-167 | row i of a scenario's ledger is month i's row, and its draws are the land schedule's entry for that month plus the construction schedule's |
| `Cashflow.RowsIncome` | app.js:170 | row i's income is the sum of the normalised participants' incomes for month i under the scenario's vacancy and indexation terms |
| `Cashflow.RowsInterest` | app.js:168-169 | row i's interest is the previous row's closing balance (0 for the first row) times annualRatePct / 100 times month i's day-count factor under the scenario's convention |
| `Cashflow.RowsInterestThirty360` | app.js:168-169 | under 30/360 row i's interest is exactly the opening balance times rate / 12 |
| `Cashflow.RowsBalance` | app.js:172-175 | row i's closing balance is max(0, opening balance + draws + interest when capitalised - income), so never negative |
| `Cashflow.PeakIsMaximum` | app.js:179 | the peak is at least 0, at least every closing balance, and is either 0 or one of them |
| `Cashflow.LedgerAgrees` | app.js:169-173 | two ledgers whose feeds agree on draws and income, and also on rate and factor when capitalising, have the same balances, draws and income row by row |
| `Cashflow.RateIndependent` | app.js:169-173 | when interest is not capitalised, changing the rate changes no row's balance, draws or income |
| `Cashflow.RowsIncomeNonNegative` | app.js:170 | with non-negative SDA and RRC rents, every row's income is non-negative |
| `Cashflow.RowsFollowMonths` | app.js:166-174 | there is one row per month of the window, in month order and strictly increasing under `cmpYm`; there are none when a window end is missing |
| `Cashflow.TotalsFacts` | app.js:176-184 | debtAtPC is the last row's balance, or 0 with no rows; 0 <= debtAtPC <= peak; every balance lies in [0, peak]; without capitalisation total interest is 0 |
| `Asset.AssetStartOf` | app.js:394 | the asset start is the asset start month if given, else the build end, else the scenario start; it is missing only when all three are |
| `Asset.YearPoint` | app.js:411-416 | year y yields a point exactly when (y, k) lies in [assetStart, endMonth]; the point is labelled with the year and its value is the base compounded once per index step |
| `Asset.AddYearPoints` | app.js:410-417 | the loop appends exactly the yearly points from the asset start's year to the end year |
| `Asset.ComputeAssetSeries` | app.js:400-426 | the method's series is the specified asset series |
| `Asset.YearPointsFacts` | app.js:410-417 | every yearly point falls in the window, is labelled with its year, and holds the compounded value for its index steps; the points are in increasing month order |
| `Asset.AnnualSteps` | app.js:379-388 | at the index month of year y, the step count is y - firstYear + 1 |
| `Asset.AssetSeriesShape` | app.js:404-424 | the series is empty exactly when the asset start, scenario start or scenario end is missing; otherwise the first point is ('Start', assetStart, assetBase) and the last point's month is endMonth |
| `Asset.AssetSeriesValues` | app.js:406-424 | every point after the start point is a year or end point whose value is the base compounded by `(1 + g/100)^indexSteps(assetStart, ym, k)`; those points never go back in time and none lies after endMonth (the end point can lie before assetStart when endMonth comes first) |
| `Asset.AssetSeriesGrows` | app.js:414-422 | with a non-negative base and growth rate, the values never decrease along the series |
| `Asset.GrownMonotone` | app.js:414 | with a non-negative base and growth rate, more index steps never give a smaller value |
| `Validation.ParticipantProblem` | app.js:232-234 | a participant raises no problem exactly when it has a start month (if it pays rent) and a target within 0-100% |
| `Validation.CheckWindow` | app.js:220-224 | the first five checks push their messages in order, given the scenario and build windows |
| `Validation.CheckAmounts` | app.js:225-230 | the next six checks push their messages in order, given land, deposit, other costs, vacancy and index month |
| `Validation.ScanParticipants` | app.js:231-235 | the participant scan appends the problem of the first participant that has one, and nothing else |
| `Validation.Validate` | app.js:218-237 | the messages are the field problems in order, followed by at most one participant problem |
| `Validation.FirstParticipantReported` | app.js:231-235 | at most one participant is reported; nothing is reported exactly when no participant has a problem; otherwise the report names the first participant that has one |
| `Validation.FieldsAccepted` | app.js:220-230 | the field checks report nothing exactly when every field condition holds |
| `Validation.ValidateAccepts` | app.js:218-237 | `validate` reports nothing exactly when the scenario meets the independent acceptance conditions |
| `Validation.AcceptedWindow` | app.js:220-222 | a scenario that passes validation gets one ledger row per month from start to end, at least one |

## Left out

- The browser layer is not part of this model. That means the DOM reading and writing, event
  wiring, `render`, `fmt`, `buildExportCsv`, `fmtNumber` and the export download. The model's
  inputs are the already-read values.
- `collectAssetInputs` is replaced by parameters. Only its start-month fallback (app.js:394) is
  modelled, as `Asset.AssetStartOf`.
- The s-curve's `Math.exp`, `Math.sqrt` and pi, being floating point, are not modelled. The
  normal density is a parameter `phi`, assumed positive. The weights are proved positive, summing
  to 1, and symmetric when `phi` is symmetric. The exact numeric values are not modelled.
- JavaScript coercions are not modelled: `Number(x) || 0`, `parseFloat`, NaN, a non-finite
  target read as 100, and `Math.floor` on the ramp. Inputs are already-typed values.
- `String(v)` of numbers in `csvValue` is not modelled. Its input is the string or a missing
  value.
- `csvValue` quotes on `"`, `,` and a line feed only, as the source's regular expression does.
  RFC 4180 also asks for quoting on a carriage return, and that is not added.
- The JavaScript `Date` quirk that maps years 0-99 to 1900-1999 is not modelled. Months are
  integer (year, month) pairs, and month strings are taken to have four-digit years.
- `validate` compares months as strings, and the model compares their indices. The two agree
  for four-digit years.
- `Asset.ComputeAssetSeries`: the index month is required to lie in 1..12. The source passes
  `parseInt(...) || 7` unchecked, and a month outside 1..12 makes it format an invalid month
  string.
- `Draws.BuildConstructionDraws` keeps every month of the window for an amount of 0 or less:
  `buildConstructionDraws` (app.js:64-73) has no guard on the amount and writes amount times
  weight for each month. The model does the same.
- `Income.Normalize` keeps the participant's start month as given. The source (app.js:134-135)
  re-parses it with ``new Date(`${p.start}-01`)``, which is midnight UTC, and reads it back with
  local-time getters. West of UTC that gives the previous month, so every participant starts
  one month early. Time zones are not modelled.
- `Allocation.AllocationWeights` and `Draws.BuildConstructionDraws`: for the s-curve the model
  takes a positive density, so the weights always sum to 1. In floating point, with an even
  number of months and a small sigma (0.01, say), `Math.exp` underflows to 0 in every slot. The
  sum is then 0 and every weight is NaN, and `weights[i] || 0` (app.js:70) turns each draw into
  0. The construction draws then sum to 0 instead of the amount. This is not modelled.

## Findings

| source | as written | input that shows it | evidently intended | confidence | as-written member | corrected member |
|---|---|---|---|---|---|---|
| app.js:103-104 | the 310,000-1,033,000 bracket has base 9438 and the top bracket has base 42362 | a value of 310,001: 9438 + 0.045 is charged, where the previous bracket reaches 1340 + 227000 * 0.035 = 9285 at 310,000, a jump of about 153; the same happens at 1,033,001, a jump of about 389 | continuous bases 9285 and 41820, the ends of the brackets below (and the published NSW bases for these thresholds) | high that the schedule is discontinuous; medium that it was unintended; not executed | `StampDuty.StampDutyAsWrittenJumps` | `StampDuty.StampDutyProgressive` |
