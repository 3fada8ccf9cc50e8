/** Input validation `validate` (app.js:218-237): the list of problems that stop a run, in the
    order the form's fields are checked; at most one participant problem is reported. */
module Validation {
  import opened Wrappers
  import opened Months
  import opened Income
  import opened Allocation
  import opened Cashflow

  /** The messages `validate` pushes, one constructor each. */
  datatype Problem =
    | StartRequired
    | EndRequired
    | EndBeforeStart
    | BuildDatesRequired
    | BuildEndBeforeStart
    | LandMonthRequired
    | NegativeDeposit
    | DepositExceedsLand
    | OtherAcqMonthRequired
    | VacancyOutOfRange
    | IndexMonthOutOfRange
    | ParticipantStartRequired(name: string)
    | ParticipantTargetOutOfRange(name: string)

  /** Both months are given and the second comes before the first. */
  predicate Reversed(first: Option<Month>, second: Option<Month>)
  {
    first.Some? && second.Some? && Index(second.value) < Index(first.value)
  }

  /** The index month as the form hands it over: blank or 0 reads as July. */
  function GivenIndexMonth(k: int): (m: int)
    ensures k != 0 ==> m == k
  {
    if k == 0 then 7 else k
  }

  /** A participant's gross monthly rent. */
  function Gross(p: ParticipantInput): real
  {
    p.sda + p.rrc
  }

  /** The problem a participant raises, if any: a missing start month is checked first. */
  function ParticipantProblem(p: ParticipantInput): (r: Option<Problem>)
    ensures r == None <==> (Gross(p) > 0.0 ==> p.start.Some?) && 0.0 <= p.targetPct <= 100.0
  {
    if Gross(p) > 0.0 && p.start.None? then Some(ParticipantStartRequired(p.name))
    else if p.targetPct < 0.0 || p.targetPct > 100.0 then Some(ParticipantTargetOutOfRange(p.name))
    else None
  }

  /** The participant loop stops at the first participant with a problem. */
  function ParticipantProblems(ps: seq<ParticipantInput>): seq<Problem>
  {
    if ps == [] then []
    else if ParticipantProblem(ps[0]).Some? then [ParticipantProblem(ps[0]).value]
    else ParticipantProblems(ps[1..])
  }

  function When(c: bool, p: Problem): seq<Problem>
  {
    if c then [p] else []
  }

  /** The checks on the scenario's months, in order, each adding its message to the list
      started empty. */
  function WindowProblems(sc: Scenario): seq<Problem>
  {
    []
    + When(sc.startMonth.None?, StartRequired)
    + When(sc.endMonth.None?, EndRequired)
    + When(Reversed(sc.startMonth, sc.endMonth), EndBeforeStart)
    + When(sc.conAmount > 0.0 && (sc.conStart.None? || sc.conEnd.None?), BuildDatesRequired)
    + When(Reversed(sc.conStart, sc.conEnd), BuildEndBeforeStart)
  }

  /** The checks on the acquisition, vacancy and indexation inputs that follow, in order. */
  function AmountProblems(errors: seq<Problem>, sc: Scenario): seq<Problem>
  {
    errors
    + When(sc.landValue > 0.0 && sc.landMonth.None?, LandMonthRequired)
    + When(sc.landDeposit < 0.0, NegativeDeposit)
    + When(sc.landDeposit > sc.landValue, DepositExceedsLand)
    + When(sc.otherAcqCosts > 0.0 && sc.otherAcqMonth.None?, OtherAcqMonthRequired)
    + When(sc.vacancyPct < 0.0 || sc.vacancyPct > 100.0, VacancyOutOfRange)
    + When(GivenIndexMonth(sc.indexMonth) < 1 || GivenIndexMonth(sc.indexMonth) > 12, IndexMonthOutOfRange)
  }

  /** The checks on the scenario's own fields, in order. */
  function FieldProblems(sc: Scenario): seq<Problem>
  {
    AmountProblems(WindowProblems(sc), sc)
  }

  /** Every problem `validate` reports, in order. */
  function Problems(sc: Scenario): seq<Problem>
  {
    FieldProblems(sc) + ParticipantProblems(sc.participants)
  }

  /** Independent statement of an acceptable scenario: both window ends given and in order, the
      build window given when there is a build and in order when given, a settlement month for
      land and one for other acquisition costs, a deposit between 0 and the land value, vacancy
      and every participant's target within 0-100 percent, an index month within 1-12, and a
      start month for every participant who pays rent. */
  ghost predicate Acceptable(sc: Scenario)
  {
    && sc.startMonth.Some? && sc.endMonth.Some?
    && Index(sc.startMonth.value) <= Index(sc.endMonth.value)
    && (sc.conAmount > 0.0 ==> sc.conStart.Some? && sc.conEnd.Some?)
    && (sc.conStart.Some? && sc.conEnd.Some? ==> Index(sc.conStart.value) <= Index(sc.conEnd.value))
    && (sc.landValue > 0.0 ==> sc.landMonth.Some?)
    && 0.0 <= sc.landDeposit <= sc.landValue
    && (sc.otherAcqCosts > 0.0 ==> sc.otherAcqMonth.Some?)
    && 0.0 <= sc.vacancyPct <= 100.0
    && (sc.indexMonth == 0 || 1 <= sc.indexMonth <= 12)
    && forall p :: p in sc.participants ==> (Gross(p) > 0.0 ==> p.start.Some?) && 0.0 <= p.targetPct <= 100.0
  }

  /** `validate` (app.js:218-237): the field checks push their messages in order, then the
      participants are scanned and the scan stops at the first one with a problem. */
  method Validate(sc: Scenario) returns (errors: seq<Problem>)
    ensures errors == Problems(sc)
  {
    errors := CheckWindow(sc);
    errors := CheckAmounts(errors, sc);
    errors := ScanParticipants(errors, sc.participants);
  }

  /** The first five checks of `validate`: the scenario and build windows. */
  method CheckWindow(sc: Scenario) returns (errors: seq<Problem>)
    ensures errors == WindowProblems(sc)
  {
    errors := [];
    errors := PushIf(errors, sc.startMonth.None?, StartRequired);
    errors := PushIf(errors, sc.endMonth.None?, EndRequired);
    errors := PushIf(errors, Reversed(sc.startMonth, sc.endMonth), EndBeforeStart);
    errors := PushIf(errors, sc.conAmount > 0.0 && (sc.conStart.None? || sc.conEnd.None?), BuildDatesRequired);
    errors := PushIf(errors, Reversed(sc.conStart, sc.conEnd), BuildEndBeforeStart);
  }

  /** The next six checks of `validate`: land, deposit, other acquisition costs, vacancy and
      the index month. */
  method CheckAmounts(errors0: seq<Problem>, sc: Scenario) returns (errors: seq<Problem>)
    ensures errors == AmountProblems(errors0, sc)
  {
    errors := errors0;
    errors := PushIf(errors, sc.landValue > 0.0 && sc.landMonth.None?, LandMonthRequired);
    errors := PushIf(errors, sc.landDeposit < 0.0, NegativeDeposit);
    errors := PushIf(errors, sc.landDeposit > sc.landValue, DepositExceedsLand);
    errors := PushIf(errors, sc.otherAcqCosts > 0.0 && sc.otherAcqMonth.None?, OtherAcqMonthRequired);
    errors := PushIf(errors, sc.vacancyPct < 0.0 || sc.vacancyPct > 100.0, VacancyOutOfRange);
    var k := GivenIndexMonth(sc.indexMonth);
    errors := PushIf(errors, k < 1 || k > 12, IndexMonthOutOfRange);
  }

  /** `if (c) errors.push(p)`. */
  method PushIf(errors0: seq<Problem>, c: bool, p: Problem) returns (errors: seq<Problem>)
    ensures errors == errors0 + When(c, p)
  {
    errors := errors0;
    if c {
      errors := errors + [p];
    }
  }

  /** The participant loop of `validate`: at most one message, for the first participant with a
      problem. */
  method ScanParticipants(errors0: seq<Problem>, ps: seq<ParticipantInput>) returns (errors: seq<Problem>)
    ensures errors == errors0 + ParticipantProblems(ps)
  {
    errors := errors0;
    var i := 0;
    while i < |ps|
      invariant 0 <= i <= |ps|
      invariant errors == errors0
      invariant ParticipantProblems(ps) == ParticipantProblems(ps[i..])
    {
      assert ps[i..][1..] == ps[i + 1..];
      var p := ps[i];
      if Gross(p) > 0.0 && p.start.None? {
        errors := errors + [ParticipantStartRequired(p.name)];
        break;
      }
      if p.targetPct < 0.0 || p.targetPct > 100.0 {
        errors := errors + [ParticipantTargetOutOfRange(p.name)];
        break;
      }
      i := i + 1;
    }
  }

  /** At most one participant is reported, and it is the first one with a problem. */
  lemma {:induction false} FirstParticipantReported(ps: seq<ParticipantInput>)
    ensures |ParticipantProblems(ps)| <= 1
    ensures ParticipantProblems(ps) == [] <==> forall i :: 0 <= i < |ps| ==> ParticipantProblem(ps[i]).None?
    ensures ParticipantProblems(ps) != [] ==>
              exists i :: && 0 <= i < |ps| && ParticipantProblem(ps[i]).Some?
                          && ParticipantProblems(ps) == [ParticipantProblem(ps[i]).value]
                          && forall j :: 0 <= j < i ==> ParticipantProblem(ps[j]).None?
  {
    if ps != [] && ParticipantProblem(ps[0]).None? {
      FirstParticipantReported(ps[1..]);
      if ParticipantProblems(ps[1..]) != [] {
        var i :| && 0 <= i < |ps[1..]| && ParticipantProblem(ps[1..][i]).Some?
                 && ParticipantProblems(ps[1..]) == [ParticipantProblem(ps[1..][i]).value]
                 && forall j :: 0 <= j < i ==> ParticipantProblem(ps[1..][j]).None?;
        assert ParticipantProblem(ps[i + 1]).Some?;
      }
      assert forall i :: 1 <= i < |ps| ==> ps[i] == ps[1..][i - 1];
    }
  }

  /** The field checks report nothing exactly when every field condition holds. */
  lemma FieldsAccepted(sc: Scenario)
    ensures FieldProblems(sc) == [] <==>
              && sc.startMonth.Some? && sc.endMonth.Some?
              && Index(sc.startMonth.value) <= Index(sc.endMonth.value)
              && (sc.conAmount > 0.0 ==> sc.conStart.Some? && sc.conEnd.Some?)
              && (sc.conStart.Some? && sc.conEnd.Some? ==> Index(sc.conStart.value) <= Index(sc.conEnd.value))
              && (sc.landValue > 0.0 ==> sc.landMonth.Some?)
              && 0.0 <= sc.landDeposit <= sc.landValue
              && (sc.otherAcqCosts > 0.0 ==> sc.otherAcqMonth.Some?)
              && 0.0 <= sc.vacancyPct <= 100.0
              && (sc.indexMonth == 0 || 1 <= sc.indexMonth <= 12)
  {
  }

  /** `validate` reports nothing exactly when the scenario is acceptable. */
  lemma ValidateAccepts(sc: Scenario)
    ensures Problems(sc) == [] <==> Acceptable(sc)
  {
    FieldsAccepted(sc);
    FirstParticipantReported(sc.participants);
    var ps := sc.participants;
    if forall i :: 0 <= i < |ps| ==> ParticipantProblem(ps[i]).None? {
      forall p | p in ps
        ensures (Gross(p) > 0.0 ==> p.start.Some?) && 0.0 <= p.targetPct <= 100.0
      {
        var i :| 0 <= i < |ps| && ps[i] == p;
      }
    }
  }

  /** An acceptable scenario has a window of at least one month, so the ledger has a row for
      every month from start to end. */
  lemma AcceptedWindow(sc: Scenario, phi: real -> real)
    requires PositiveDensity(phi)
    requires Problems(sc) == []
    ensures |Rows(sc, phi)| == MonthsDiff(sc.startMonth.value, sc.endMonth.value) + 1 >= 1
  {
    ValidateAccepts(sc);
    RowsFollowMonths(sc, phi);
  }
}
