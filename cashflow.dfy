/** The monthly simulator `computeCashflow` (app.js:107-185): over the scenario window, month
    by month, interest accrues on the opening balance, the month's land and construction draws
    are added, interest is added when it is capitalised, participant income is taken off, and
    the balance is floored at zero; totals and the peak balance are carried along. */
module Cashflow {
  import opened Wrappers
  import opened Months
  import opened Indexation
  import opened Allocation
  import opened Draws
  import opened DayCount
  import opened Income

  /** The scenario inputs `computeCashflow` reads, already converted from the form's text. */
  datatype Scenario = Scenario(
    startMonth: Option<Month>, endMonth: Option<Month>,
    annualRatePct: real, dayCount: Convention, capitalise: bool,
    landValue: real, landDeposit: real, landLoan: real, landStampDuty: real, landMonth: Option<Month>,
    otherAcqCosts: real, otherAcqMonth: Option<Month>,
    conAmount: real, conStart: Option<Month>, conEnd: Option<Month>, allocation: Shape, sigma: real,
    vacancyPct: real, indexMonth: int, sdaIndexPct: real, rrcIndexPct: real,
    participants: seq<ParticipantInput>)

  /** One month of the ledger; `balance` is the closing balance. */
  datatype Row = Row(ym: Month, draws: real, interest: real, income: real, balance: real)

  datatype Totals = Totals(totalDraws: real, totalInterest: real, totalIncome: real, totalDeposit: real,
                           totalStampDuty: real, debtAtPC: real, peakBalance: real)

  datatype Cashflow = Cashflow(rows: seq<Row>, totals: Totals)

  /** The annual rate as a fraction. */
  function Rate(sc: Scenario): real
  {
    sc.annualRatePct / 100.0
  }

  /** `Math.min(12, Math.max(1, Math.floor(indexMonth || 7)))`: 0 stands for "not given" and
      means July; anything else is clamped to a calendar month. */
  function IndexMonthOf(k: int): (m: int)
    ensures 1 <= m <= 12
    ensures k == 0 ==> m == 7
    ensures 1 <= k <= 12 ==> m == k
  {
    if k == 0 then 7 else if k < 1 then 1 else if k > 12 then 12 else k
  }

  /** The income parameters: vacancy clamped to [0, 100] percent, indexation rates floored at
      -100 percent, all as fractions. */
  function TermsOf(sc: Scenario, scenarioStart: Month): (t: IncomeTerms)
    ensures SaneTerms(t)
    ensures t.scenarioStart == scenarioStart && t.indexMonth == IndexMonthOf(sc.indexMonth)
    ensures 1 <= t.indexMonth <= 12
    ensures 0.0 <= sc.vacancyPct <= 100.0 ==> t.vFactor == sc.vacancyPct / 100.0
    ensures sc.vacancyPct < 0.0 ==> t.vFactor == 0.0
    ensures sc.vacancyPct > 100.0 ==> t.vFactor == 1.0
    ensures sc.sdaIndexPct >= -100.0 ==> t.sdaIdx == sc.sdaIndexPct / 100.0
    ensures sc.sdaIndexPct < -100.0 ==> t.sdaIdx == -1.0
    ensures sc.rrcIndexPct >= -100.0 ==> t.rrcIdx == sc.rrcIndexPct / 100.0
    ensures sc.rrcIndexPct < -100.0 ==> t.rrcIdx == -1.0
  {
    IncomeTerms(scenarioStart, IndexMonthOf(sc.indexMonth),
                Max(-100.0, sc.sdaIndexPct) / 100.0, Max(-100.0, sc.rrcIndexPct) / 100.0,
                Clamp(sc.vacancyPct, 0.0, 100.0) / 100.0)
  }

  /** The construction weights fit the build window. */
  ghost predicate FitsBuild(sc: Scenario, w: seq<real>)
  {
    sc.conStart.Some? && sc.conEnd.Some? ==> |w| == WindowLength(sc.conStart.value, sc.conEnd.value)
  }

  /** What is drawn in a month: the land schedule's entry plus the construction schedule's,
      the construction weights `w` being those of the build window. */
  function DrawsAt(sc: Scenario, w: seq<real>, ym: Month): real
    requires FitsBuild(sc, w)
  {
    LandDrawAt(sc.landLoan, sc.landStampDuty, sc.landMonth, sc.otherAcqCosts, sc.otherAcqMonth, ym)
    + ConstructionDrawAt(sc.conAmount, sc.conStart, sc.conEnd, w, ym)
  }
  /** What the month loop reads, fixed before the loop starts: each month's draws, income and
      day-count factor, the annual rate, and whether interest is capitalised. */
  datatype Feed = Feed(draws: Month -> real, income: Month -> real, factor: Month -> real,
                       rate: real, capitalise: bool)

  /** The balance after a month: opening balance plus draws, plus interest when capitalised,
      less income, floored at zero. */
  function Step(prev: real, draws: real, interest: real, income: real, capitalise: bool): (b: real)
    ensures b >= 0.0
    ensures b >= prev + draws + (if capitalise then interest else 0.0) - income
    ensures b == 0.0 || b == prev + draws + (if capitalise then interest else 0.0) - income
  {
    Max(0.0, prev + draws + (if capitalise then interest else 0.0) - income)
  }

  /** The row for month ym, given the opening balance: interest accrues on the opening balance. */
  function MakeRow(f: Feed, ym: Month, prev: real): (r: Row)
    ensures r.ym == ym && r.draws == f.draws(ym) && r.income == f.income(ym)
    ensures r.balance >= 0.0
  {
    var interest := Accrued(prev, f.rate, f.factor(ym));
    Row(ym, f.draws(ym), interest, f.income(ym), Step(prev, f.draws(ym), interest, f.income(ym), f.capitalise))
  }

  /** Interest on a balance at an annual rate for a fraction of a year. */
  function Accrued(balance: real, rate: real, fraction: real): real
  {
    balance * rate * fraction
  }

  /** The closing balance of a run of rows: the last row's, or 0 before the first month. */
  function ClosingBalance(rows: seq<Row>): real
  {
    if rows == [] then 0.0 else rows[|rows| - 1].balance
  }

  /** The ledger over a list of months, each row opening on the previous row's balance. */
  function Ledger(f: Feed, months: seq<Month>): (rows: seq<Row>)
    ensures |rows| == |months|
  {
    if months == [] then []
    else
      var rows := Ledger(f, months[..|months| - 1]);
      rows + [MakeRow(f, months[|months| - 1], ClosingBalance(rows))]
  }

  /** The construction weights of a scenario. */
  function BuildWeights(sc: Scenario, phi: real -> real): (w: seq<real>)
    requires PositiveDensity(phi)
    ensures FitsBuild(sc, w)
  {
    ConstructionWeights(sc.conStart, sc.conEnd, sc.allocation, sc.sigma, phi)
  }

  /** The scenario start, which income indexation counts from; it only matters when there are
      months to walk, that is when it is given. */
  function ScenarioStart(sc: Scenario): Month
  {
    if sc.startMonth.Some? then sc.startMonth.value else YearMonth(0, 1)
  }

  /** What `computeCashflow` prepares before its loop: the draw schedules, the normalised
      participants and the income terms, and the rate. */
  function FeedOf(sc: Scenario, phi: real -> real): Feed
    requires PositiveDensity(phi)
  {
    var w := BuildWeights(sc, phi);
    var t := TermsOf(sc, ScenarioStart(sc));
    var ps := NormalizeAll(sc.participants);
    Feed((ym: Month) => DrawsAt(sc, w, ym), (ym: Month) => MonthIncome(ps, t, ym),
         (ym: Month) => DayCountFactor(ym, sc.dayCount), Rate(sc), sc.capitalise)
  }

  /** The rows `computeCashflow` returns: one per month of the scenario window, none when a
      scenario month is missing. */
  function Rows(sc: Scenario, phi: real -> real): seq<Row>
    requires PositiveDensity(phi)
  {
    Ledger(FeedOf(sc, phi), MonthsOf(sc.startMonth, sc.endMonth))
  }

  function SumDraws(rows: seq<Row>): real
  {
    if rows == [] then 0.0 else SumDraws(rows[..|rows| - 1]) + rows[|rows| - 1].draws
  }

  function SumInterest(rows: seq<Row>): real
  {
    if rows == [] then 0.0 else SumInterest(rows[..|rows| - 1]) + rows[|rows| - 1].interest
  }

  function SumIncome(rows: seq<Row>): real
  {
    if rows == [] then 0.0 else SumIncome(rows[..|rows| - 1]) + rows[|rows| - 1].income
  }

  /** The running `peak = Math.max(peak, balance)`, starting from 0. */
  function Peak(rows: seq<Row>): real
  {
    if rows == [] then 0.0 else Max(Peak(rows[..|rows| - 1]), rows[|rows| - 1].balance)
  }

  /** The totals of a run of rows: interest counts only when capitalising, the debt at practical
      completion is the closing balance, and the deposit and stamp duty are reported floored
      at zero. */
  function TotalsOf(sc: Scenario, rows: seq<Row>): Totals
  {
    Totals(SumDraws(rows), if sc.capitalise then SumInterest(rows) else 0.0, SumIncome(rows),
           Max(0.0, sc.landDeposit), Max(0.0, sc.landStampDuty), ClosingBalance(rows), Peak(rows))
  }

  /** `computeCashflow(inputs)`. */
  method ComputeCashflow(sc: Scenario, phi: real -> real) returns (out: Cashflow)
    requires PositiveDensity(phi)
    ensures out.rows == Rows(sc, phi)
    ensures out.totals == TotalsOf(sc, out.rows)
  {
    var months: seq<Month> := [];
    if sc.startMonth.Some? && sc.endMonth.Some? {
      months := MonthsBetweenInclusive(sc.startMonth.value, sc.endMonth.value);
    }
    var land := BuildLandDraws(sc.landLoan, sc.landStampDuty, sc.landMonth, sc.otherAcqCosts, sc.otherAcqMonth);
    var con := BuildConstructionDraws(sc.conAmount, sc.conStart, sc.conEnd, sc.allocation, sc.sigma, phi);
    var f := FeedOf(sc, phi);
    var rows, balance, totalDraws, totalInterest, totalIncome, peak := Walk(f, sc.dayCount, months, land, con);
    out := Cashflow(rows, Totals(totalDraws, totalInterest, totalIncome, Max(0.0, sc.landDeposit),
                                 Max(0.0, sc.landStampDuty), balance, peak));
  }

  /** The month loop of `computeCashflow`, over the window's months and the two draw schedules;
      the month's income is the feed's, the sum over the normalised participants. */
  method Walk(f: Feed, dayCount: Convention, months: seq<Month>, land: map<Month, real>, con: map<Month, real>)
    returns (rows: seq<Row>, balance: real, totalDraws: real, totalInterest: real, totalIncome: real, peak: real)
    requires forall ym :: Lookup(land, ym) + Lookup(con, ym) == f.draws(ym)
    requires forall ym :: f.factor(ym) == DayCountFactor(ym, dayCount)
    ensures rows == Ledger(f, months)
    ensures balance == ClosingBalance(rows)
    ensures totalDraws == SumDraws(rows)
    ensures totalInterest == if f.capitalise then SumInterest(rows) else 0.0
    ensures totalIncome == SumIncome(rows)
    ensures peak == Peak(rows)
  {
    rows := [];
    balance := 0.0;
    totalDraws := 0.0;
    totalInterest := 0.0;
    totalIncome := 0.0;
    peak := 0.0;
    var i := 0;
    while i < |months|
      invariant 0 <= i <= |months|
      invariant rows == Ledger(f, months[..i])
      invariant balance == ClosingBalance(rows)
      invariant totalDraws == SumDraws(rows)
      invariant totalInterest == if f.capitalise then SumInterest(rows) else 0.0
      invariant totalIncome == SumIncome(rows)
      invariant peak == Peak(rows)
    {
      rows, balance, totalDraws, totalInterest, totalIncome, peak :=
        WalkStep(f, dayCount, land, con, months, i, rows, balance, totalDraws, totalInterest, totalIncome, peak);
      i := i + 1;
    }
    assert months[..|months|] == months;
  }

  /** One pass of the month loop: the month's row is pushed and every running total moves on. */
  method WalkStep(f: Feed, dayCount: Convention, land: map<Month, real>, con: map<Month, real>,
                  months: seq<Month>, i: nat, rows: seq<Row>, balance: real,
                  totalDraws: real, totalInterest: real, totalIncome: real, peak: real)
    returns (rows': seq<Row>, balance': real, totalDraws': real, totalInterest': real, totalIncome': real, peak': real)
    requires i < |months|
    requires Lookup(land, months[i]) + Lookup(con, months[i]) == f.draws(months[i])
    requires f.factor(months[i]) == DayCountFactor(months[i], dayCount)
    requires rows == Ledger(f, months[..i])
    requires balance == ClosingBalance(rows)
    requires totalDraws == SumDraws(rows)
    requires totalInterest == if f.capitalise then SumInterest(rows) else 0.0
    requires totalIncome == SumIncome(rows)
    requires peak == Peak(rows)
    ensures rows' == Ledger(f, months[..i + 1])
    ensures balance' == ClosingBalance(rows')
    ensures totalDraws' == SumDraws(rows')
    ensures totalInterest' == if f.capitalise then SumInterest(rows') else 0.0
    ensures totalIncome' == SumIncome(rows')
    ensures peak' == Peak(rows')
  {
    var row := MonthRow(f, dayCount, land, con, months[i], balance);
    LedgerStep(f, months, i, rows);
    rows' := rows + [row];
    balance' := row.balance;
    totalDraws' := totalDraws + row.draws;
    totalInterest' := totalInterest;
    if f.capitalise {
      totalInterest' := totalInterest + row.interest;
    }
    totalIncome' := totalIncome + row.income;
    peak' := Max(peak, balance');
  }

  /** The body of the month loop: the month's draws from the two schedules, interest on the
      opening balance, the participants' income, and the new balance floored at zero. */
  method MonthRow(f: Feed, dayCount: Convention, land: map<Month, real>, con: map<Month, real>,
                  ym: Month, balance: real)
    returns (row: Row)
    requires Lookup(land, ym) + Lookup(con, ym) == f.draws(ym)
    requires f.factor(ym) == DayCountFactor(ym, dayCount)
    ensures row == MakeRow(f, ym, balance)
  {
    var draws := Lookup(land, ym) + Lookup(con, ym);
    var dcf := DayCountFactor(ym, dayCount);
    var interest := balance * f.rate * dcf;
    var income := f.income(ym);
    var grossDelta := draws + (if f.capitalise then interest else 0.0) - income;
    var newBalance := Max(0.0, balance + grossDelta);
    RowOf(f, ym, balance, draws, interest, income, newBalance);
    row := Row(ym, draws, interest, income, newBalance);
  }

  /** The row the loop body pushes is the specified row. */
  lemma RowOf(f: Feed, ym: Month, prev: real, draws: real, interest: real, income: real, bal: real)
    requires draws == f.draws(ym) && income == f.income(ym)
    requires interest == prev * f.rate * f.factor(ym)
    requires bal == Max(0.0, prev + (draws + (if f.capitalise then interest else 0.0) - income))
    ensures Row(ym, draws, interest, income, bal) == MakeRow(f, ym, prev)
  {
  }

  /** One more month extends the ledger by its row, and each running total by that row's share. */
  lemma LedgerStep(f: Feed, months: seq<Month>, i: nat, rows: seq<Row>)
    requires i < |months| && rows == Ledger(f, months[..i])
    ensures var row := MakeRow(f, months[i], ClosingBalance(rows));
      && Ledger(f, months[..i + 1]) == rows + [row]
      && ClosingBalance(rows + [row]) == row.balance
      && SumDraws(rows + [row]) == SumDraws(rows) + row.draws
      && SumInterest(rows + [row]) == SumInterest(rows) + row.interest
      && SumIncome(rows + [row]) == SumIncome(rows) + row.income
      && Peak(rows + [row]) == Max(Peak(rows), row.balance)
  {
    var row := MakeRow(f, months[i], ClosingBalance(rows));
    assert months[..i + 1][..i] == months[..i];
    assert (rows + [row])[..|rows|] == rows;
  }

  /** The ledger of a prefix of the months is the prefix of the ledger. */
  lemma {:induction false} LedgerPrefix(f: Feed, months: seq<Month>, k: nat)
    requires k <= |months|
    ensures Ledger(f, months[..k]) == Ledger(f, months)[..k]
    decreases |months|
  {
    if k < |months| {
      var init := months[..|months| - 1];
      LedgerPrefix(f, init, k);
      assert init[..k] == months[..k];
    } else {
      assert months[..k] == months;
    }
  }

  /** The opening balance of row i: the previous row's closing balance, 0 for the first row. */
  function Opening(rows: seq<Row>, i: nat): real
    requires i <= |rows|
  {
    if i == 0 then 0.0 else rows[i - 1].balance
  }

  /** Row i of the ledger is month i's row opened on row i - 1's closing balance. */
  lemma LedgerRow(f: Feed, months: seq<Month>, i: nat)
    requires i < |months|
    ensures Ledger(f, months)[i] == MakeRow(f, months[i], Opening(Ledger(f, months), i))
  {
    var rows := Ledger(f, months);
    LedgerPrefix(f, months, i + 1);
    LedgerPrefix(f, months, i);
    var pre := months[..i + 1];
    assert pre[..|pre| - 1] == months[..i];
    assert ClosingBalance(Ledger(f, months[..i])) == Opening(rows, i);
  }

  /** The invariants of every row (row i of the ledger is such a row, opened on row i - 1's
      closing balance, by LedgerRow): it carries its month's draws and income; interest accrues
      on the opening balance; the closing balance is the opening balance plus draws, plus
      interest when capitalising, less income, floored at 0, and so never negative. */
  lemma RowFormula(f: Feed, ym: Month, prev: real, r: Row)
    requires r == MakeRow(f, ym, prev)
    ensures && r.ym == ym && r.draws == f.draws(ym) && r.income == f.income(ym)
            && r.balance == Max(0.0, prev + r.draws + (if f.capitalise then r.interest else 0.0) - r.income)
            && r.balance >= 0.0
            && r.interest == prev * f.rate * f.factor(ym)
  {
  }

  /** The balance starts at 0, so the first month accrues no interest. */
  lemma FirstInterest(f: Feed, months: seq<Month>)
    requires months != []
    ensures Ledger(f, months)[0].interest == 0.0
  {
    LedgerRow(f, months, 0);
    assert Accrued(0.0, f.rate, f.factor(months[0])) == 0.0;
  }

  /** What the loop reads of a scenario: its draw schedules, participants' income, the
      convention's day-count factor, the rate and the capitalisation switch. */
  lemma FeedReads(sc: Scenario, phi: real -> real, ym: Month)
    requires PositiveDensity(phi)
    ensures FeedOf(sc, phi).draws(ym) == DrawsAt(sc, BuildWeights(sc, phi), ym)
    ensures FeedOf(sc, phi).income(ym) == MonthIncome(NormalizeAll(sc.participants), TermsOf(sc, ScenarioStart(sc)), ym)
    ensures FeedOf(sc, phi).factor(ym) == DayCountFactor(ym, sc.dayCount)
    ensures FeedOf(sc, phi).rate == Rate(sc) && FeedOf(sc, phi).capitalise == sc.capitalise
  {
  }

  /** The ledger of a scenario's window, as `computeCashflow` builds it. */
  ghost predicate ScenarioLedger(sc: Scenario, phi: real -> real, months: seq<Month>, rows: seq<Row>)
    requires PositiveDensity(phi)
  {
    months == MonthsOf(sc.startMonth, sc.endMonth) && rows == Ledger(FeedOf(sc, phi), months)
  }

  /** Row i of a scenario's ledger is month i's row and draws that month's land and construction
      schedule entries. */
  lemma RowsDraws(sc: Scenario, phi: real -> real, months: seq<Month>, rows: seq<Row>, i: nat)
    requires PositiveDensity(phi) && ScenarioLedger(sc, phi, months, rows)
    requires i < |rows|
    ensures rows[i].ym == months[i]
    ensures rows[i].draws ==
              LandDrawAt(sc.landLoan, sc.landStampDuty, sc.landMonth, sc.otherAcqCosts, sc.otherAcqMonth, months[i])
              + ConstructionDrawAt(sc.conAmount, sc.conStart, sc.conEnd, BuildWeights(sc, phi), months[i])
  {
    var f := FeedOf(sc, phi);
    LedgerRow(f, months, i);
    RowFormula(f, months[i], Opening(rows, i), rows[i]);
    FeedReads(sc, phi, months[i]);
  }

  /** Row i's income is the sum of the normalised participants' incomes for month i, under the
      scenario's vacancy and indexation terms. */
  lemma RowsIncome(sc: Scenario, phi: real -> real, months: seq<Month>, rows: seq<Row>, i: nat)
    requires PositiveDensity(phi) && ScenarioLedger(sc, phi, months, rows)
    requires i < |rows|
    ensures rows[i].income == MonthIncome(NormalizeAll(sc.participants), TermsOf(sc, ScenarioStart(sc)), months[i])
  {
    var f := FeedOf(sc, phi);
    LedgerRow(f, months, i);
    RowFormula(f, months[i], Opening(rows, i), rows[i]);
    FeedReads(sc, phi, months[i]);
  }

  /** Row i's interest accrues on the previous row's closing balance (0 for the first row) at
      the annual rate times month i's day-count factor under the scenario's convention. */
  lemma RowsInterest(sc: Scenario, phi: real -> real, months: seq<Month>, rows: seq<Row>, i: nat)
    requires PositiveDensity(phi) && ScenarioLedger(sc, phi, months, rows)
    requires i < |rows|
    ensures rows[i].interest == Accrued(Opening(rows, i), Rate(sc), DayCountFactor(months[i], sc.dayCount))
  {
    FeedReads(sc, phi, months[i]);
    LedgerInterest(FeedOf(sc, phi), months, i, Rate(sc), DayCountFactor(months[i], sc.dayCount));
  }

  /** Row i's interest, for a feed whose rate and factor for month i are known. */
  lemma LedgerInterest(f: Feed, months: seq<Month>, i: nat, rate: real, factor: real)
    requires i < |months| && f.rate == rate && f.factor(months[i]) == factor
    ensures Ledger(f, months)[i].interest == Accrued(Opening(Ledger(f, months), i), rate, factor)
  {
    LedgerRow(f, months, i);
  }

  /** Under 30/360 row i's interest is exactly the opening balance times rate / 12. */
  lemma RowsInterestThirty360(sc: Scenario, phi: real -> real, months: seq<Month>, rows: seq<Row>, i: nat)
    requires PositiveDensity(phi) && ScenarioLedger(sc, phi, months, rows)
    requires sc.dayCount == Thirty360
    requires i < |rows|
    ensures rows[i].interest == Opening(rows, i) * Rate(sc) / 12.0
  {
    RowsInterest(sc, phi, months, rows, i);
    assert Accrued(Opening(rows, i), Rate(sc), 1.0 / 12.0) == Opening(rows, i) * Rate(sc) / 12.0;
  }

  /** Row i's closing balance is its opening balance plus its draws, plus its interest when the
      scenario capitalises, less its income, floored at 0. */
  lemma RowsBalance(sc: Scenario, phi: real -> real, months: seq<Month>, rows: seq<Row>, i: nat)
    requires PositiveDensity(phi) && ScenarioLedger(sc, phi, months, rows)
    requires i < |rows|
    ensures rows[i].balance ==
              Max(0.0, Opening(rows, i) + rows[i].draws + (if sc.capitalise then rows[i].interest else 0.0) - rows[i].income)
    ensures rows[i].balance >= 0.0
  {
    var f := FeedOf(sc, phi);
    LedgerRow(f, months, i);
    RowFormula(f, months[i], Opening(rows, i), rows[i]);
    FeedReads(sc, phi, months[i]);
  }

  /** The peak is the largest closing balance, and 0 when every balance is 0 or there are none. */
  lemma {:induction false} PeakIsMaximum(rows: seq<Row>)
    ensures Peak(rows) >= 0.0
    ensures forall i :: 0 <= i < |rows| ==> rows[i].balance <= Peak(rows)
    ensures Peak(rows) == 0.0 || exists i :: 0 <= i < |rows| && rows[i].balance == Peak(rows)
  {
    if rows != [] {
      var init := rows[..|rows| - 1];
      PeakIsMaximum(init);
      if Peak(init) != 0.0 && Peak(rows) == Peak(init) {
        var i :| 0 <= i < |init| && init[i].balance == Peak(init);
        assert rows[i].balance == Peak(rows);
      }
    }
  }

  /** Two feeds that agree on the months' draws and income, and on how interest reaches the
      balance, give the same balances, draws and incomes. */
  lemma {:induction false} LedgerAgrees(f: Feed, g: Feed, months: seq<Month>)
    requires forall ym :: ym in months ==>
               && f.draws(ym) == g.draws(ym) && f.income(ym) == g.income(ym)
               && (f.capitalise ==> f.factor(ym) == g.factor(ym))
    requires f.capitalise == g.capitalise
    requires f.capitalise ==> f.rate == g.rate
    ensures forall i :: 0 <= i < |months| ==>
              && Ledger(f, months)[i].balance == Ledger(g, months)[i].balance
              && Ledger(f, months)[i].draws == Ledger(g, months)[i].draws
              && Ledger(f, months)[i].income == Ledger(g, months)[i].income
    decreases |months|
  {
    if months != [] {
      var init := months[..|months| - 1];
      var ym := months[|months| - 1];
      assert forall m :: m in init ==> m in months;
      LedgerAgrees(f, g, init);
      var rf := Ledger(f, init);
      var rg := Ledger(g, init);
      assert ClosingBalance(rf) == ClosingBalance(rg);
      RowAgrees(f, g, ym, ClosingBalance(rf));
      assert Ledger(f, months) == rf + [MakeRow(f, ym, ClosingBalance(rf))];
      assert Ledger(g, months) == rg + [MakeRow(g, ym, ClosingBalance(rg))];
    }
  }

  /** One month's row under two such feeds, opened on the same balance. */
  lemma RowAgrees(f: Feed, g: Feed, ym: Month, prev: real)
    requires f.draws(ym) == g.draws(ym) && f.income(ym) == g.income(ym)
    requires f.capitalise == g.capitalise
    requires f.capitalise ==> f.rate == g.rate && f.factor(ym) == g.factor(ym)
    ensures MakeRow(f, ym, prev).balance == MakeRow(g, ym, prev).balance
    ensures MakeRow(f, ym, prev).draws == MakeRow(g, ym, prev).draws
    ensures MakeRow(f, ym, prev).income == MakeRow(g, ym, prev).income
  {
  }

  /** Without capitalisation interest never reaches the balance, so the annual rate changes
      nothing but the reported interest. */
  lemma RateIndependent(sc: Scenario, rate: real, phi: real -> real)
    requires PositiveDensity(phi)
    requires !sc.capitalise
    ensures var other := sc.(annualRatePct := rate);
      && |Rows(other, phi)| == |Rows(sc, phi)|
      && forall i :: 0 <= i < |Rows(sc, phi)| ==>
           && Rows(other, phi)[i].balance == Rows(sc, phi)[i].balance
           && Rows(other, phi)[i].draws == Rows(sc, phi)[i].draws
           && Rows(other, phi)[i].income == Rows(sc, phi)[i].income
  {
    var other := sc.(annualRatePct := rate);
    LedgerAgrees(FeedOf(other, phi), FeedOf(sc, phi), MonthsOf(sc.startMonth, sc.endMonth));
  }

  /** Participants with non-negative SDA and RRC amounts never produce negative income, so no
      row's income is negative. */
  lemma RowsIncomeNonNegative(sc: Scenario, phi: real -> real)
    requires PositiveDensity(phi)
    requires forall j :: 0 <= j < |sc.participants| ==> sc.participants[j].sda >= 0.0 && sc.participants[j].rrc >= 0.0
    ensures forall i :: 0 <= i < |Rows(sc, phi)| ==> Rows(sc, phi)[i].income >= 0.0
  {
    var f := FeedOf(sc, phi);
    var months := MonthsOf(sc.startMonth, sc.endMonth);
    var ps := NormalizeAll(sc.participants);
    var t := TermsOf(sc, ScenarioStart(sc));
    forall i | 0 <= i < |months|
      ensures Rows(sc, phi)[i].income >= 0.0
    {
      LedgerRow(f, months, i);
      MonthIncomeBounds(ps, t, months[i]);
    }
  }

  /** `computeCashflow` emits one row per month of the scenario window, in month order, and no
      row at all when a scenario month is missing. */
  lemma RowsFollowMonths(sc: Scenario, phi: real -> real)
    requires PositiveDensity(phi)
    ensures |Rows(sc, phi)| == |MonthsOf(sc.startMonth, sc.endMonth)|
    ensures forall i :: 0 <= i < |Rows(sc, phi)| ==> Rows(sc, phi)[i].ym == MonthsOf(sc.startMonth, sc.endMonth)[i]
    ensures forall i, j :: 0 <= i < j < |Rows(sc, phi)| ==> Cmp(Some(Rows(sc, phi)[i].ym), Some(Rows(sc, phi)[j].ym)) < 0
    ensures sc.startMonth.None? || sc.endMonth.None? ==> Rows(sc, phi) == []
  {
    var months := MonthsOf(sc.startMonth, sc.endMonth);
    forall i | 0 <= i < |months|
      ensures Rows(sc, phi)[i].ym == months[i]
    {
      LedgerRow(FeedOf(sc, phi), months, i);
    }
    if sc.startMonth.Some? && sc.endMonth.Some? {
      WindowIncreasing(sc.startMonth.value, sc.endMonth.value);
    }
  }

  /** The debt at practical completion is the last closing balance, 0 without rows; it never
      exceeds the peak, which bounds every balance; without capitalisation no interest is
      totalled. */
  lemma TotalsFacts(sc: Scenario, phi: real -> real)
    requires PositiveDensity(phi)
    ensures var rows := Rows(sc, phi);
      var t := TotalsOf(sc, rows);
      && t.debtAtPC == (if rows == [] then 0.0 else rows[|rows| - 1].balance)
      && 0.0 <= t.debtAtPC <= t.peakBalance
      && (forall i :: 0 <= i < |rows| ==> 0.0 <= rows[i].balance <= t.peakBalance)
      && (!sc.capitalise ==> t.totalInterest == 0.0)
  {
    var rows := Rows(sc, phi);
    var months := MonthsOf(sc.startMonth, sc.endMonth);
    PeakIsMaximum(rows);
    forall i | 0 <= i < |rows|
      ensures rows[i].balance >= 0.0
    {
      LedgerRow(FeedOf(sc, phi), months, i);
    }
  }
}
