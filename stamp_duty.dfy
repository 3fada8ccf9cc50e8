/** New South Wales transfer (stamp) duty on a property value (app.js:96-105): six brackets,
    each charging a marginal rate on the part of the value above its lower threshold on top of
    a fixed base. */
module StampDuty {
  import opened Wrappers

  /** `calcStampDutyNSW` as the source writes it, with the bases 9438 and 42362 for the top two
      brackets. */
  function StampDutyAsWritten(value: real): (duty: real)
    ensures duty >= 0.0
    ensures value <= 0.0 ==> duty == 0.0
  {
    var v := Max(0.0, value);
    if v == 0.0 then 0.0
    else if v <= 14000.0 then v * 0.0125
    else if v <= 31000.0 then 175.0 + (v - 14000.0) * 0.015
    else if v <= 83000.0 then 430.0 + (v - 31000.0) * 0.0175
    else if v <= 310000.0 then 1340.0 + (v - 83000.0) * 0.035
    else if v <= 1033000.0 then 9438.0 + (v - 310000.0) * 0.045
    else 42362.0 + (v - 1033000.0) * 0.055
  }

  /** The as-written schedule jumps where a bracket ends: one dollar above 310,000 costs more
      than 153 dollars of extra duty and one dollar above 1,033,000 more than 389, where no
      marginal rate exceeds 5.5 cents. Up to 310,000 it agrees with the progressive schedule;
      above 310,000 it charges exactly 153 more, and above 1,033,000 exactly 542 more. */
  lemma StampDutyAsWrittenJumps()
    ensures StampDutyAsWritten(310001.0) - StampDutyAsWritten(310000.0) > 153.0
    ensures StampDutyAsWritten(1033001.0) - StampDutyAsWritten(1033000.0) > 389.0
    ensures forall v :: v <= 310000.0 ==> StampDutyAsWritten(v) == StampDuty(v)
    ensures forall v :: 310000.0 < v <= 1033000.0 ==> StampDutyAsWritten(v) == StampDuty(v) + 153.0
    ensures forall v :: v > 1033000.0 ==> StampDutyAsWritten(v) == StampDuty(v) + 542.0
  {
  }

  /** The progressive schedule the brackets describe: each base is the duty at its bracket's
      lower threshold, so the bases of the top two brackets are 9285 and 41820. */
  function StampDuty(value: real): (duty: real)
    ensures duty >= 0.0
    ensures value <= 0.0 ==> duty == 0.0
  {
    var v := Max(0.0, value);
    if v == 0.0 then 0.0
    else if v <= 14000.0 then v * 0.0125
    else if v <= 31000.0 then 175.0 + (v - 14000.0) * 0.015
    else if v <= 83000.0 then 430.0 + (v - 31000.0) * 0.0175
    else if v <= 310000.0 then 1340.0 + (v - 83000.0) * 0.035
    else if v <= 1033000.0 then 9285.0 + (v - 310000.0) * 0.045
    else 41820.0 + (v - 1033000.0) * 0.055
  }

  /** The part of v that falls in the bracket [lo, hi]. */
  function Slice(v: real, lo: real, hi: real): (s: real)
    requires lo <= hi
    ensures 0.0 <= s <= hi - lo
  {
    Max(0.0, Min(v, hi) - lo)
  }

  /** Independent reference: every bracket's rate applied to the part of the value inside it. */
  function MarginalDuty(value: real): real
  {
    0.0125 * Slice(value, 0.0, 14000.0)
    + 0.015 * Slice(value, 14000.0, 31000.0)
    + 0.0175 * Slice(value, 31000.0, 83000.0)
    + 0.035 * Slice(value, 83000.0, 310000.0)
    + 0.045 * Slice(value, 310000.0, 1033000.0)
    + 0.055 * Max(0.0, value - 1033000.0)
  }

  /** The corrected schedule is the marginal-rate schedule. */
  lemma StampDutyIsMarginal(value: real)
    ensures StampDuty(value) == MarginalDuty(value)
  {
  }

  /** Consequently duty never falls as the value rises, and rises by at most the top marginal
      rate per dollar: the schedule is continuous. */
  lemma StampDutyProgressive(a: real, b: real)
    requires a <= b
    ensures 0.0 <= StampDuty(b) - StampDuty(a) <= 0.055 * (b - a)
  {
    StampDutyIsMarginal(a);
    StampDutyIsMarginal(b);
  }
}
