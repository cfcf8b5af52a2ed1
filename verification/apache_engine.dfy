/**
 * The APACHE II aggregator: physiology subtotal (with the creatinine score
 * doubled under acute renal failure), age subtotal, chronic-health subtotal,
 * their sum, and the logit of the mortality model
 * -3.517 + 0.146 * total (+ 0.603 after emergency surgery).
 */
module ApacheEngine {
  import opened ApacheTypes
  import opened Physiology

  const LogitIntercept: real := -3.517
  const LogitPerPoint: real := 0.146
  const EmergencySurgeryLogit: real := 0.603

  predicate IsWhole(x: real) {
    x == x.Floor as real
  }

  /** The five chronic-health flags in declaration order, as `Object.values` lists them. */
  function Flags(c: ApacheChronicHealth): seq<bool> {
    [c.liverCirrhosis, c.heartFailureClassIV, c.copd, c.dialysis, c.immunocompromised]
  }

  /** Some flag is set: `Object.values(chronicHealth).some(v => v === true)`.
      "Some value is true" is the disjunction of the five conditions. */
  function HasChronic(c: ApacheChronicHealth): (b: bool)
    ensures b <==> c.liverCirrhosis || c.heartFailureClassIV || c.copd || c.dialysis || c.immunocompromised
  {
    true in Flags(c)
  }

  /** The creatinine term of the physiology subtotal: the table score, doubled
      under acute renal failure. The flag adds exactly the base score once more,
      so the term is 0 exactly when the base score is 0 and at most 8. */
  function CreatinineScore(cr: real, acuteRenalFailure: bool): (r: int)
    ensures r - CreatininePoints(cr) == (if acuteRenalFailure then CreatininePoints(cr) else 0)
    ensures r == 0 <==> CreatininePoints(cr) == 0
    ensures 0 <= r <= (if acuteRenalFailure then 8 else 4)
  {
    var base := CreatininePoints(cr);
    if acuteRenalFailure then base * 2 else base
  }

  /** Acute Physiology Score: the twelve terms in the engine's order. */
  function ApsScore(d: ApacheInputData): (r: real)
    ensures GcsPoints(d.gcs) <= r <= GcsPoints(d.gcs) + 48.0
    ensures 3.0 <= d.gcs <= 15.0 ==> 0.0 <= r <= 60.0
    ensures IsWhole(d.gcs) ==> IsWhole(r)
  {
    var tables :=
      TempPoints(d.temperature)
      + MapPoints(d.meanArterialPressure)
      + HeartRatePoints(d.heartRate)
      + RespRatePoints(d.respiratoryRate)
      + OxygenationPoints(d.oxygenation)
      + PhPoints(d.arterialPH)
      + SodiumPoints(d.sodium)
      + PotassiumPoints(d.potassium)
      + CreatinineScore(d.creatinine, d.isAcuteRenalFailure)
      + HematocritPoints(d.hematocrit)
      + WbcPoints(d.wbc);
    WholeShift(tables, d.gcs);
    tables as real + GcsPoints(d.gcs)
  }

  /** Adding a whole number of points keeps a whole GCS term whole. */
  lemma WholeShift(n: int, gcs: real)
    ensures IsWhole(gcs) ==> IsWhole(n as real + GcsPoints(gcs))
  {
    if IsWhole(gcs) {
      var k := n + 15 - gcs.Floor;
      assert n as real + GcsPoints(gcs) == k as real;
    }
  }

  /** Every reading feeds the physiology subtotal through its own table and
      nothing else: replacing one reading by `v` moves the subtotal by exactly
      that table's change in points, and leaves it alone for the others. */
  lemma ApsScoreTracksEachReading(d: ApacheInputData, v: real)
    ensures ApsScore(d.(temperature := v)) - ApsScore(d)
            == (TempPoints(v) - TempPoints(d.temperature)) as real
    ensures ApsScore(d.(meanArterialPressure := v)) - ApsScore(d)
            == (MapPoints(v) - MapPoints(d.meanArterialPressure)) as real
    ensures ApsScore(d.(heartRate := v)) - ApsScore(d)
            == (HeartRatePoints(v) - HeartRatePoints(d.heartRate)) as real
    ensures ApsScore(d.(respiratoryRate := v)) - ApsScore(d)
            == (RespRatePoints(v) - RespRatePoints(d.respiratoryRate)) as real
    ensures ApsScore(d.(oxygenation := v)) - ApsScore(d)
            == (OxygenationPoints(v) - OxygenationPoints(d.oxygenation)) as real
    ensures ApsScore(d.(arterialPH := v)) - ApsScore(d)
            == (PhPoints(v) - PhPoints(d.arterialPH)) as real
    ensures ApsScore(d.(sodium := v)) - ApsScore(d)
            == (SodiumPoints(v) - SodiumPoints(d.sodium)) as real
    ensures ApsScore(d.(potassium := v)) - ApsScore(d)
            == (PotassiumPoints(v) - PotassiumPoints(d.potassium)) as real
    ensures ApsScore(d.(creatinine := v)) - ApsScore(d)
            == ((CreatininePoints(v) - CreatininePoints(d.creatinine))
                * (if d.isAcuteRenalFailure then 2 else 1)) as real
    ensures ApsScore(d.(hematocrit := v)) - ApsScore(d)
            == (HematocritPoints(v) - HematocritPoints(d.hematocrit)) as real
    ensures ApsScore(d.(wbc := v)) - ApsScore(d)
            == (WbcPoints(v) - WbcPoints(d.wbc)) as real
    ensures ApsScore(d.(gcs := v)) - ApsScore(d) == d.gcs - v
    ensures ApsScore(d.(age := v)) == ApsScore(d)
  {}

  /** The subtotal is the GCS term alone exactly when every table reading lies
      in its normal band, whatever the renal-failure flag. */
  lemma ApsScoreNormalExactly(d: ApacheInputData)
    ensures ApsScore(d) == GcsPoints(d.gcs) <==>
              && 36.0 <= d.temperature < 38.5
              && 70.0 <= d.meanArterialPressure < 110.0
              && 70.0 <= d.heartRate < 110.0
              && 12.0 <= d.respiratoryRate < 25.0
              && d.oxygenation > 70.0
              && 7.33 <= d.arterialPH < 7.5
              && 130.0 <= d.sodium < 150.0
              && 3.5 <= d.potassium < 5.5
              && 0.6 <= d.creatinine < 1.5
              && 30.0 <= d.hematocrit < 46.0
              && 3.0 <= d.wbc < 15.0
  {}

  /** Chronic-health points: none without a chronic condition; with one, 5
      after emergency surgery and 2 otherwise (non-operative patients fall in
      the 2-point bucket). */
  function ChronicHealthScore(c: ApacheChronicHealth, emergencySurgery: bool): (r: int)
    ensures r == 0 <==> !HasChronic(c)
    ensures r == 5 <==> HasChronic(c) && emergencySurgery
    ensures r == 2 <==> HasChronic(c) && !emergencySurgery
  {
    if HasChronic(c) then (if emergencySurgery then 5 else 2) else 0
  }

  /** Chronic-health points see the conditions only through "is any present". */
  lemma ChronicHealthOnlyCountsAny(c1: ApacheChronicHealth, c2: ApacheChronicHealth, emergencySurgery: bool)
    requires HasChronic(c1) == HasChronic(c2)
    ensures ChronicHealthScore(c1, emergencySurgery) == ChronicHealthScore(c2, emergencySurgery)
  {}

  /** Log-odds of hospital death; the diagnostic-category weight is not part of it. */
  function Logit(total: real, emergencySurgery: bool): (l: real)
    ensures emergencySurgery <==> l > -3.517 + 0.146 * total
    ensures 0.0 <= total <= 71.0 ==> -3.517 <= l <= 7.452
  {
    LogitIntercept + total * LogitPerPoint + (if emergencySurgery then EmergencySurgeryLogit else 0.0)
  }

  /** The engine entry point. */
  function Calculate(d: ApacheInputData): (r: ApacheResult)
    ensures r.totalScore == r.apsScore + r.ageScore + r.chronicHealthScore
    ensures r.apsScore == ApsScore(d)
    ensures r.ageScore == AgePoints(d.age) as real
    ensures r.chronicHealthScore == ChronicHealthScore(d.chronicHealth, d.isEmergencySurgery) as real
    ensures r.logit == Logit(r.totalScore, d.isEmergencySurgery)
    ensures 3.0 <= d.gcs <= 15.0 ==> 0.0 <= r.totalScore <= 71.0
    ensures IsWhole(d.gcs) ==> IsWhole(r.totalScore)
  {
    var aps := ApsScore(d);
    var age := AgePoints(d.age);
    var chronic := ChronicHealthScore(d.chronicHealth, d.isEmergencySurgery);
    var total := aps + age as real + chronic as real;
    assert IsWhole(d.gcs) ==> IsWhole(total) by {
      if IsWhole(d.gcs) {
        assert total == (aps.Floor + age + chronic) as real;
      }
    }
    ApacheResult(aps, age as real, chronic as real, total, Logit(total, d.isEmergencySurgery))
  }

  /** Flagging acute renal failure adds exactly the undoubled creatinine score
      to the physiology subtotal and to the total, and changes no other subtotal. */
  lemma RenalFailureDoubling(d: ApacheInputData)
    ensures var arf := Calculate(d.(isAcuteRenalFailure := true));
            var plain := Calculate(d.(isAcuteRenalFailure := false));
            && arf.apsScore - plain.apsScore == CreatininePoints(d.creatinine) as real
            && arf.totalScore - plain.totalScore == CreatininePoints(d.creatinine) as real
            && arf.ageScore == plain.ageScore
            && arf.chronicHealthScore == plain.chronicHealthScore
  {}

  /** The logit rises by 0.146 per point: strictly increasing in the total. */
  lemma LogitIncreasing(t1: real, t2: real, emergencySurgery: bool)
    requires t1 < t2
    ensures Logit(t1, emergencySurgery) < Logit(t2, emergencySurgery)
    ensures Logit(t2, emergencySurgery) - Logit(t1, emergencySurgery) == (t2 - t1) * 0.146
  {}

  /** At the same total, emergency surgery adds exactly 0.603 to the logit. */
  lemma EmergencySurgeryRaisesLogit(total: real)
    ensures Logit(total, true) > Logit(total, false)
    ensures Logit(total, true) - Logit(total, false) == 0.603
  {}

  /** The logit sees the patient only through the total and the surgery flag. */
  lemma LogitDependsOnTotalOnly(d1: ApacheInputData, d2: ApacheInputData)
    requires Calculate(d1).totalScore == Calculate(d2).totalScore
    requires d1.isEmergencySurgery == d2.isEmergencySurgery
    ensures Calculate(d1).logit == Calculate(d2).logit
  {}

  /** A patient with normal physiology, GCS 15, age 45, no surgery and no
      chronic condition. */
  const Baseline: ApacheInputData := ApacheInputData(
    36.6, 90.0, 80.0, 16.0, 95.0, 7.40, 140.0, 4.0, 1.0, 40.0, 10.0, 15.0, 45.0,
    false, false, ApacheChronicHealth(false, false, false, false, false))

  /** The baseline patient scores only the 2 age points. */
  lemma BaselineScenario()
    ensures Calculate(Baseline) == ApacheResult(0.0, 2.0, 0.0, 2.0, -3.225)
  {}

  /** Creatinine 2.0 scores 3; under acute renal failure it counts 6. That is 3
      more than the same patient without the flag, and 6 more than the baseline
      patient with creatinine 1.0. */
  lemma RenalFailureScenario()
    ensures var arf := Calculate(Baseline.(creatinine := 2.0, isAcuteRenalFailure := true));
            var plain := Calculate(Baseline.(creatinine := 2.0));
            && arf.apsScore == 6.0
            && arf.apsScore - plain.apsScore == 3.0
            && arf.apsScore - Calculate(Baseline).apsScore == 6.0
  {}
}
