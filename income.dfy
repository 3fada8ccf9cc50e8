/** Participant income (app.js:133-164): each participant pays a monthly SDA amount and a
    monthly RRC amount from their start month, ramping up to a target occupancy, stepped up
    once a year by indexation, and reduced by a vacancy allowance. */
module Income {
  import opened Wrappers
  import opened Months
  import opened Indexation

  /** A participant row as collected from the form: the start month is `None` when blank. */
  datatype ParticipantInput = ParticipantInput(name: string, start: Option<Month>, sda: real, rrc: real,
                                               ramp: int, targetPct: real)

  /** A participant after normalisation: the target is a fraction and the ramp is not negative. */
  datatype Participant = Participant(name: string, start: Option<Month>, sda: real, rrc: real,
                                     ramp: nat, target: real)

  /** The scenario-wide income parameters `participantIncome` closes over: the scenario start
      month, the index month, the two indexation rates as fractions and the vacancy factor. */
  datatype IncomeTerms = IncomeTerms(scenarioStart: Month, indexMonth: int, sdaIdx: real, rrcIdx: real,
                                     vFactor: real)

  /** The normalisation `computeCashflow` applies to each participant (app.js:133-146): the
      target percentage is clamped to [0, 100] and made a fraction, a negative ramp becomes 0. */
  function Normalize(p: ParticipantInput): (q: Participant)
    ensures q.name == p.name && q.start == p.start && q.sda == p.sda && q.rrc == p.rrc
    ensures 0.0 <= q.target <= 1.0
    ensures 0.0 <= p.targetPct <= 100.0 ==> q.target * 100.0 == p.targetPct
    ensures p.targetPct < 0.0 ==> q.target == 0.0
    ensures p.targetPct > 100.0 ==> q.target == 1.0
    ensures p.ramp >= 0 ==> q.ramp == p.ramp
    ensures p.ramp < 0 ==> q.ramp == 0
  {
    Participant(p.name, p.start, p.sda, p.rrc, if p.ramp < 0 then 0 else p.ramp,
                Clamp(p.targetPct, 0.0, 100.0) / 100.0)
  }

  /** Every participant of a list normalised, in order. */
  function NormalizeAll(ps: seq<ParticipantInput>): (qs: seq<Participant>)
    ensures |qs| == |ps|
    ensures forall i :: 0 <= i < |ps| ==> qs[i] == Normalize(ps[i])
  {
    seq(|ps|, i requires 0 <= i < |ps| => Normalize(ps[i]))
  }

  /** Occupancy `diff` months after the start: the target at once when there is no ramp,
      otherwise a linear ramp of target / ramp a month, capped at the target. */
  function Occupancy(target: real, ramp: nat, diff: int): (occ: real)
    ensures occ <= target
    ensures 0.0 <= target && diff >= 0 ==> 0.0 <= occ
    ensures 0.0 <= target && (ramp == 0 || diff + 1 >= ramp) ==> occ == target
  {
    if ramp <= 0 then target
    else
      var share := (diff + 1) as real / ramp as real;
      RampShare(target, ramp, diff);
      Min(target, target * share)
  }

  /** The ramp share reaches 1 once diff + 1 months have passed the ramp length, and the
      ramped occupancy is then at least the target; it is never negative from the start on. */
  lemma RampShare(target: real, ramp: nat, diff: int)
    requires ramp > 0
    ensures diff + 1 >= ramp ==> (diff + 1) as real / ramp as real >= 1.0
    ensures 0.0 <= target && diff + 1 >= ramp ==> target * ((diff + 1) as real / ramp as real) >= target
    ensures 0.0 <= target && diff >= 0 ==> target * ((diff + 1) as real / ramp as real) >= 0.0
  {
    var share := (diff + 1) as real / ramp as real;
    if diff + 1 >= ramp {
      DivAtLeastOne((diff + 1) as real, ramp as real);
      if 0.0 <= target {
        MulMonotone(target, 1.0, share);
      }
    }
    if 0.0 <= target && diff >= 0 {
      MulMonotone(target, 0.0, share);
    }
  }

  lemma DivAtLeastOne(a: real, b: real)
    requires 0.0 < b <= a
    ensures a / b >= 1.0
  {
    assert a / b * b == a;
  }

  lemma MulMonotone(t: real, x: real, y: real)
    requires 0.0 <= t && x <= y
    ensures t * x <= t * y
  {
    assert t * y - t * x == t * (y - x);
  }

  lemma DivMonotone(a: real, c: real, b: real)
    requires a <= c && 0.0 < b
    ensures a / b <= c / b
  {
    assert c / b - a / b == (c - a) / b;
  }

  /** Occupancy never falls as the months go by. */
  lemma OccupancyRamps(target: real, ramp: nat, d1: int, d2: int)
    requires 0.0 <= target
    requires 0 <= d1 <= d2
    ensures Occupancy(target, ramp, d1) <= Occupancy(target, ramp, d2)
  {
    if ramp > 0 {
      var f1 := (d1 + 1) as real / ramp as real;
      var f2 := (d2 + 1) as real / ramp as real;
      DivMonotone((d1 + 1) as real, (d2 + 1) as real, ramp as real);
      MulMonotone(target, f1, f2);
      assert Occupancy(target, ramp, d1) == Min(target, target * f1);
      assert Occupancy(target, ramp, d2) == Min(target, target * f2);
    }
  }

  /** During the ramp occupancy is the share (diff + 1) / ramp of the target. */
  lemma OccupancyDuringRamp(target: real, ramp: nat, diff: int)
    requires 0.0 <= target
    requires 0 <= diff && diff + 1 < ramp
    ensures Occupancy(target, ramp, diff) * ramp as real == target * (diff + 1) as real
  {
    var share := (diff + 1) as real / ramp as real;
    DivMonotone((diff + 1) as real, ramp as real, ramp as real);
    MulMonotone(target, share, 1.0);
    assert Occupancy(target, ramp, diff) == target * share;
    MulDivCancel(target, (diff + 1) as real, ramp as real);
  }

  lemma MulDivCancel(t: real, a: real, b: real)
    requires b != 0.0
    ensures t * (a / b) * b == t * a
  {
    assert a / b * b == a;
    assert t * (a / b) * b == t * (a / b * b);
  }

  /** The worked example of a six-month ramp: one sixth of the target in the start month,
      the full target in the sixth month and after. */
  lemma OccupancyExample()
    ensures Occupancy(1.0, 6, 0) == 1.0 / 6.0
    ensures Occupancy(1.0, 6, 5) == 1.0
    ensures Occupancy(1.0, 6, 12) == 1.0
  {
  }

  /** The gross monthly amount after `steps` annual indexations. */
  function Indexed(p: Participant, t: IncomeTerms, steps: nat): real
  {
    p.sda * Pow(1.0 + t.sdaIdx, steps) + p.rrc * Pow(1.0 + t.rrcIdx, steps)
  }

  /** `participantIncome(p, ym)`: nothing without a start month or before it; otherwise the
      indexed gross amount times occupancy times (1 - vacancy). */
  function ParticipantIncome(p: Participant, t: IncomeTerms, ym: Month): (income: real)
    ensures p.start.None? || Index(ym) < Index(p.start.value) ==> income == 0.0
  {
    if p.start.None? || Cmp(Some(ym), p.start) < 0 then 0.0
    else
      var diff := MonthsDiff(p.start.value, ym);
      var occ := Occupancy(p.target, p.ramp, diff);
      var steps := IndexSteps(t.scenarioStart, ym, t.indexMonth);
      var sdaVal := p.sda * Pow(1.0 + t.sdaIdx, steps);
      var rrcVal := p.rrc * Pow(1.0 + t.rrcIdx, steps);
      Net(sdaVal + rrcVal, occ, t.vFactor)
  }

  /** `gross * occ * (1 - vFactor)`: the gross amount at the occupancy reached, net of vacancy. */
  function Net(gross: real, occ: real, vFactor: real): real
  {
    gross * occ * (1.0 - vFactor)
  }

  /** From the start month on, income is the indexed gross amount, with as many indexation
      steps as index months have passed since the scenario start, times the occupancy reached
      after as many months as have passed since the participant's start, times (1 - vacancy). */
  lemma ParticipantIncomeFormula(p: Participant, t: IncomeTerms, ym: Month)
    requires p.start.Some? && Index(p.start.value) <= Index(ym)
    ensures ParticipantIncome(p, t, ym) ==
              Net(Indexed(p, t, IndexSteps(t.scenarioStart, ym, t.indexMonth)),
                  Occupancy(p.target, p.ramp, Index(ym) - Index(p.start.value)), t.vFactor)
  {
  }

  /** From the start month on, a participant's income is the SDA and RRC amounts, each grown by
      its indexation rate once for every index month from the scenario start up to this month,
      times the occupancy reached since the participant's start, times (1 - vacancy). */
  lemma ParticipantIncomeCounted(p: Participant, t: IncomeTerms, ym: Month)
    requires 1 <= t.indexMonth <= 12
    requires p.start.Some? && Index(p.start.value) <= Index(ym)
    ensures ParticipantIncome(p, t, ym) ==
              Net(Indexed(p, t, Boundaries(t.scenarioStart, ym, t.indexMonth)),
                  Occupancy(p.target, p.ramp, Index(ym) - Index(p.start.value)), t.vFactor)
  {
    IndexStepsCountsBoundaries(t.scenarioStart, ym, t.indexMonth);
    ParticipantIncomeFormula(p, t, ym);
  }

  /** The conditions under which income cannot be negative: target and vacancy are fractions,
      indexation never falls below -100 %, and the SDA and RRC amounts are not negative. */
  ghost predicate SaneTerms(t: IncomeTerms)
  {
    0.0 <= t.vFactor <= 1.0 && t.sdaIdx >= -1.0 && t.rrcIdx >= -1.0
  }

  /** A normalised participant with non-negative amounts never produces negative income, and
      never more than its indexed gross amount. */
  lemma ParticipantIncomeBounds(p: Participant, t: IncomeTerms, ym: Month)
    requires SaneTerms(t)
    requires 0.0 <= p.target <= 1.0
    requires p.sda >= 0.0 && p.rrc >= 0.0
    ensures 0.0 <= ParticipantIncome(p, t, ym) <= Indexed(p, t, IndexSteps(t.scenarioStart, ym, t.indexMonth))
  {
    var steps := IndexSteps(t.scenarioStart, ym, t.indexMonth);
    assert p.sda * Pow(1.0 + t.sdaIdx, steps) >= 0.0;
    assert p.rrc * Pow(1.0 + t.rrcIdx, steps) >= 0.0;
    assert Indexed(p, t, steps) >= 0.0;
    if p.start.Some? && Index(p.start.value) <= Index(ym) {
      var g := Indexed(p, t, steps);
      var occ := Occupancy(p.target, p.ramp, Index(ym) - Index(p.start.value));
      ParticipantIncomeFormula(p, t, ym);
      Discounted(g, occ, t.vFactor);
    }
  }

  /** A non-negative amount scaled by an occupancy and a vacancy allowance, both fractions,
      stays between 0 and the amount. */
  lemma Discounted(g: real, occ: real, v: real)
    requires g >= 0.0 && 0.0 <= occ <= 1.0 && 0.0 <= v <= 1.0
    ensures 0.0 <= Net(g, occ, v) <= g
  {
    assert 0.0 <= g * occ <= g;
    assert 0.0 <= g * occ * (1.0 - v) <= g * occ;
  }

  /** `normalizedParticipants.reduce((sum, p) => sum + participantIncome(p, ym), 0)`. */
  function MonthIncome(ps: seq<Participant>, t: IncomeTerms, ym: Month): real
  {
    if ps == [] then 0.0 else MonthIncome(ps[..|ps| - 1], t, ym) + ParticipantIncome(ps[|ps| - 1], t, ym)
  }

  /** A month's income is not negative when every participant's amounts are not, and is 0 when
      no participant has started by that month. */
  lemma {:induction false} MonthIncomeBounds(ps: seq<Participant>, t: IncomeTerms, ym: Month)
    requires SaneTerms(t)
    requires forall i :: 0 <= i < |ps| ==> 0.0 <= ps[i].target <= 1.0 && ps[i].sda >= 0.0 && ps[i].rrc >= 0.0
    ensures MonthIncome(ps, t, ym) >= 0.0
    ensures (forall i :: 0 <= i < |ps| ==> ps[i].start.None? || Index(ym) < Index(ps[i].start.value)) ==>
              MonthIncome(ps, t, ym) == 0.0
    decreases |ps|
  {
    if ps != [] {
      MonthIncomeBounds(ps[..|ps| - 1], t, ym);
      ParticipantIncomeBounds(ps[|ps| - 1], t, ym);
    }
  }
}
