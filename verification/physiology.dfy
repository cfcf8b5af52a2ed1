/**
 * The APACHE II point lookups (Knaus et al., Critical Care Medicine, 1985):
 * eleven acute-physiology tables, the Glasgow Coma Scale rule and the age table.
 *
 * Each table is written, as in the engine, as an ordered chain of inclusive
 * lower bounds (`>=`; strict `>` for PaO2 above 70) where the first bound
 * reached wins. Each chain comes with its ladder, the same table read through
 * `Thresholds.FirstMatch`, and a lemma that the two agree on every value.
 * Low and high extremes both score high, so the physiology curves are U-shaped.
 */
module Physiology {
  import opened Thresholds

  /** `f` never increases while the value rises towards `lo`. */
  ghost predicate FallsToward(f: real -> int, lo: real) {
    forall x, y | x <= y <= lo :: f(y) <= f(x)
  }

  /** `f` never decreases while the value rises from `hi`. */
  ghost predicate RisesFrom(f: real -> int, hi: real) {
    forall x, y | hi <= x <= y :: f(x) <= f(y)
  }

  /** Scores fall towards the normal band [lo, hi) and rise again beyond it. */
  ghost predicate UShaped(f: real -> int, lo: real, hi: real) {
    FallsToward(f, lo) && RisesFrom(f, hi)
  }

  /** Every chain lists its bounds from the highest down. */
  lemma LaddersDescending()
    ensures Descending(TempLadder)
    ensures Descending(MapLadder)
    ensures Descending(HeartRateLadder)
    ensures Descending(RespRateLadder)
    ensures Descending(OxygenationLadder)
    ensures Descending(PhLadder)
    ensures Descending(SodiumLadder)
    ensures Descending(PotassiumLadder)
    ensures Descending(CreatinineLadder)
    ensures Descending(HematocritLadder)
    ensures Descending(WbcLadder)
    ensures Descending(AgeLadder)
  {}

  // ---------------------------------------------------------------- temperature

  function TempPoints(t: real): (r: int)
    ensures 0 <= r <= 4
    ensures r == 0 <==> 36.0 <= t < 38.5
    ensures r == 4 <==> t >= 41.0 || t < 30.0
  {
    if t >= 41.0 then 4
    else if t >= 39.0 then 3
    else if t >= 38.5 then 1
    else if t >= 36.0 then 0
    else if t >= 34.0 then 1
    else if t >= 32.0 then 2
    else if t >= 30.0 then 3
    else 4
  }

  const TempLadder: seq<Rung> := [
    Rung(41.0, false, 4), Rung(39.0, false, 3), Rung(38.5, false, 1), Rung(36.0, false, 0),
    Rung(34.0, false, 1), Rung(32.0, false, 2), Rung(30.0, false, 3)]

  lemma TempAgreesWithLadder(t: real)
    ensures TempPoints(t) == FirstMatch(TempLadder, t, 4)
  {
    LaddersDescending();
    var band :=
      if t >= 41.0 then 0
      else if t >= 39.0 then 1
      else if t >= 38.5 then 2
      else if t >= 36.0 then 3
      else if t >= 34.0 then 4
      else if t >= 32.0 then 5
      else if t >= 30.0 then 6
      else 7;
    FirstMatchInBand(TempLadder, t, 4, band);
  }

  lemma TempIsUShaped()
    ensures UShaped(TempPoints, 36.0, 38.5)
  {}

  // ---------------------------------------------------------- arterial pressure

  function MapPoints(pressure: real): (r: int)
    ensures 0 <= r <= 4 && r != 1
    ensures r == 0 <==> 70.0 <= pressure < 110.0
    ensures r == 4 <==> pressure >= 160.0 || pressure < 50.0
  {
    if pressure >= 160.0 then 4
    else if pressure >= 130.0 then 3
    else if pressure >= 110.0 then 2
    else if pressure >= 70.0 then 0
    else if pressure >= 50.0 then 2
    else 4
  }

  const MapLadder: seq<Rung> := [
    Rung(160.0, false, 4), Rung(130.0, false, 3), Rung(110.0, false, 2), Rung(70.0, false, 0),
    Rung(50.0, false, 2)]

  lemma MapAgreesWithLadder(pressure: real)
    ensures MapPoints(pressure) == FirstMatch(MapLadder, pressure, 4)
  {
    LaddersDescending();
    var band :=
      if pressure >= 160.0 then 0
      else if pressure >= 130.0 then 1
      else if pressure >= 110.0 then 2
      else if pressure >= 70.0 then 3
      else if pressure >= 50.0 then 4
      else 5;
    FirstMatchInBand(MapLadder, pressure, 4, band);
  }

  lemma MapIsUShaped()
    ensures UShaped(MapPoints, 70.0, 110.0)
  {}

  // ----------------------------------------------------------------- heart rate

  function HeartRatePoints(hr: real): (r: int)
    ensures 0 <= r <= 4 && r != 1
    ensures r == 0 <==> 70.0 <= hr < 110.0
    ensures r == 4 <==> hr >= 180.0 || hr < 40.0
  {
    if hr >= 180.0 then 4
    else if hr >= 140.0 then 3
    else if hr >= 110.0 then 2
    else if hr >= 70.0 then 0
    else if hr >= 55.0 then 2
    else if hr >= 40.0 then 3
    else 4
  }

  const HeartRateLadder: seq<Rung> := [
    Rung(180.0, false, 4), Rung(140.0, false, 3), Rung(110.0, false, 2), Rung(70.0, false, 0),
    Rung(55.0, false, 2), Rung(40.0, false, 3)]

  lemma HeartRateAgreesWithLadder(hr: real)
    ensures HeartRatePoints(hr) == FirstMatch(HeartRateLadder, hr, 4)
  {
    LaddersDescending();
    var band :=
      if hr >= 180.0 then 0
      else if hr >= 140.0 then 1
      else if hr >= 110.0 then 2
      else if hr >= 70.0 then 3
      else if hr >= 55.0 then 4
      else if hr >= 40.0 then 5
      else 6;
    FirstMatchInBand(HeartRateLadder, hr, 4, band);
  }

  lemma HeartRateIsUShaped()
    ensures UShaped(HeartRatePoints, 70.0, 110.0)
  {}

  // ----------------------------------------------------------- respiratory rate

  function RespRatePoints(rr: real): (r: int)
    ensures 0 <= r <= 4
    ensures r == 0 <==> 12.0 <= rr < 25.0
    ensures r == 4 <==> rr >= 50.0 || rr < 6.0
  {
    if rr >= 50.0 then 4
    else if rr >= 35.0 then 3
    else if rr >= 25.0 then 1
    else if rr >= 12.0 then 0
    else if rr >= 10.0 then 1
    else if rr >= 6.0 then 2
    else 4
  }

  const RespRateLadder: seq<Rung> := [
    Rung(50.0, false, 4), Rung(35.0, false, 3), Rung(25.0, false, 1), Rung(12.0, false, 0),
    Rung(10.0, false, 1), Rung(6.0, false, 2)]

  lemma RespRateAgreesWithLadder(rr: real)
    ensures RespRatePoints(rr) == FirstMatch(RespRateLadder, rr, 4)
  {
    LaddersDescending();
    var band :=
      if rr >= 50.0 then 0
      else if rr >= 35.0 then 1
      else if rr >= 25.0 then 2
      else if rr >= 12.0 then 3
      else if rr >= 10.0 then 4
      else if rr >= 6.0 then 5
      else 6;
    FirstMatchInBand(RespRateLadder, rr, 4, band);
  }

  lemma RespRateIsUShaped()
    ensures UShaped(RespRatePoints, 12.0, 25.0)
  {}

  // --------------------------------------------------------------- oxygenation

  /** PaO2 only: the FiO2 >= 0.5 / A-aDO2 branch of the full rule is absent. */
  function OxygenationPoints(po2: real): (r: int)
    ensures 0 <= r <= 4 && r != 2
    ensures r == 0 <==> po2 > 70.0
    ensures r == 4 <==> po2 < 55.0
  {
    if po2 > 70.0 then 0
    else if po2 >= 61.0 then 1
    else if po2 >= 55.0 then 3
    else 4
  }

  const OxygenationLadder: seq<Rung> := [
    Rung(70.0, true, 0), Rung(61.0, false, 1), Rung(55.0, false, 3)]

  lemma OxygenationAgreesWithLadder(po2: real)
    ensures OxygenationPoints(po2) == FirstMatch(OxygenationLadder, po2, 4)
  {
    LaddersDescending();
    var band :=
      if po2 > 70.0 then 0
      else if po2 >= 61.0 then 1
      else if po2 >= 55.0 then 2
      else 3;
    FirstMatchInBand(OxygenationLadder, po2, 4, band);
  }

  /** Oxygenation scores only the low side: better oxygenation never scores more. */
  lemma OxygenationFalls()
    ensures forall x, y | x <= y :: OxygenationPoints(y) <= OxygenationPoints(x)
  {}

  // ------------------------------------------------------------------------ pH

  function PhPoints(ph: real): (r: int)
    ensures 0 <= r <= 4
    ensures r == 0 <==> 7.33 <= ph < 7.5
    ensures r == 4 <==> ph >= 7.7 || ph < 7.15
  {
    if ph >= 7.7 then 4
    else if ph >= 7.6 then 3
    else if ph >= 7.5 then 1
    else if ph >= 7.33 then 0
    else if ph >= 7.25 then 2
    else if ph >= 7.15 then 3
    else 4
  }

  const PhLadder: seq<Rung> := [
    Rung(7.7, false, 4), Rung(7.6, false, 3), Rung(7.5, false, 1), Rung(7.33, false, 0),
    Rung(7.25, false, 2), Rung(7.15, false, 3)]

  lemma PhAgreesWithLadder(ph: real)
    ensures PhPoints(ph) == FirstMatch(PhLadder, ph, 4)
  {
    LaddersDescending();
    var band :=
      if ph >= 7.7 then 0
      else if ph >= 7.6 then 1
      else if ph >= 7.5 then 2
      else if ph >= 7.33 then 3
      else if ph >= 7.25 then 4
      else if ph >= 7.15 then 5
      else 6;
    FirstMatchInBand(PhLadder, ph, 4, band);
  }

  lemma PhIsUShaped()
    ensures UShaped(PhPoints, 7.33, 7.5)
  {}

  // -------------------------------------------------------------------- sodium

  function SodiumPoints(na: real): (r: int)
    ensures 0 <= r <= 4
    ensures r == 0 <==> 130.0 <= na < 150.0
    ensures r == 4 <==> na >= 180.0 || na < 111.0
  {
    if na >= 180.0 then 4
    else if na >= 160.0 then 3
    else if na >= 155.0 then 2
    else if na >= 150.0 then 1
    else if na >= 130.0 then 0
    else if na >= 120.0 then 2
    else if na >= 111.0 then 3
    else 4
  }

  const SodiumLadder: seq<Rung> := [
    Rung(180.0, false, 4), Rung(160.0, false, 3), Rung(155.0, false, 2), Rung(150.0, false, 1),
    Rung(130.0, false, 0), Rung(120.0, false, 2), Rung(111.0, false, 3)]

  lemma SodiumAgreesWithLadder(na: real)
    ensures SodiumPoints(na) == FirstMatch(SodiumLadder, na, 4)
  {
    LaddersDescending();
    var band :=
      if na >= 180.0 then 0
      else if na >= 160.0 then 1
      else if na >= 155.0 then 2
      else if na >= 150.0 then 3
      else if na >= 130.0 then 4
      else if na >= 120.0 then 5
      else if na >= 111.0 then 6
      else 7;
    FirstMatchInBand(SodiumLadder, na, 4, band);
  }

  lemma SodiumIsUShaped()
    ensures UShaped(SodiumPoints, 130.0, 150.0)
  {}

  // ----------------------------------------------------------------- potassium

  function PotassiumPoints(k: real): (r: int)
    ensures 0 <= r <= 4
    ensures r == 0 <==> 3.5 <= k < 5.5
    ensures r == 4 <==> k >= 7.0 || k < 2.5
  {
    if k >= 7.0 then 4
    else if k >= 6.0 then 3
    else if k >= 5.5 then 1
    else if k >= 3.5 then 0
    else if k >= 3.0 then 1
    else if k >= 2.5 then 2
    else 4
  }

  const PotassiumLadder: seq<Rung> := [
    Rung(7.0, false, 4), Rung(6.0, false, 3), Rung(5.5, false, 1), Rung(3.5, false, 0),
    Rung(3.0, false, 1), Rung(2.5, false, 2)]

  lemma PotassiumAgreesWithLadder(k: real)
    ensures PotassiumPoints(k) == FirstMatch(PotassiumLadder, k, 4)
  {
    LaddersDescending();
    var band :=
      if k >= 7.0 then 0
      else if k >= 6.0 then 1
      else if k >= 5.5 then 2
      else if k >= 3.5 then 3
      else if k >= 3.0 then 4
      else if k >= 2.5 then 5
      else 6;
    FirstMatchInBand(PotassiumLadder, k, 4, band);
  }

  lemma PotassiumIsUShaped()
    ensures UShaped(PotassiumPoints, 3.5, 5.5)
  {}

  // ---------------------------------------------------------------- creatinine

  /** Creatinine in mg/dL; the low side tops out at 2 points. */
  function CreatininePoints(cr: real): (r: int)
    ensures 0 <= r <= 4 && r != 1
    ensures r == 0 <==> 0.6 <= cr < 1.5
    ensures r == 4 <==> cr >= 3.5
    ensures r == 2 <==> cr < 0.6 || 1.5 <= cr < 2.0
  {
    if cr >= 3.5 then 4
    else if cr >= 2.0 then 3
    else if cr >= 1.5 then 2
    else if cr >= 0.6 then 0
    else 2
  }

  const CreatinineLadder: seq<Rung> := [
    Rung(3.5, false, 4), Rung(2.0, false, 3), Rung(1.5, false, 2), Rung(0.6, false, 0)]

  lemma CreatinineAgreesWithLadder(cr: real)
    ensures CreatininePoints(cr) == FirstMatch(CreatinineLadder, cr, 2)
  {
    LaddersDescending();
    var band :=
      if cr >= 3.5 then 0
      else if cr >= 2.0 then 1
      else if cr >= 1.5 then 2
      else if cr >= 0.6 then 3
      else 4;
    FirstMatchInBand(CreatinineLadder, cr, 2, band);
  }

  lemma CreatinineIsUShaped()
    ensures UShaped(CreatininePoints, 0.6, 1.5)
  {}

  // ---------------------------------------------------------------- hematocrit

  function HematocritPoints(hct: real): (r: int)
    ensures 0 <= r <= 4 && r != 3
    ensures r == 0 <==> 30.0 <= hct < 46.0
    ensures r == 4 <==> hct >= 60.0 || hct < 20.0
  {
    if hct >= 60.0 then 4
    else if hct >= 50.0 then 2
    else if hct >= 46.0 then 1
    else if hct >= 30.0 then 0
    else if hct >= 20.0 then 2
    else 4
  }

  const HematocritLadder: seq<Rung> := [
    Rung(60.0, false, 4), Rung(50.0, false, 2), Rung(46.0, false, 1), Rung(30.0, false, 0),
    Rung(20.0, false, 2)]

  lemma HematocritAgreesWithLadder(hct: real)
    ensures HematocritPoints(hct) == FirstMatch(HematocritLadder, hct, 4)
  {
    LaddersDescending();
    var band :=
      if hct >= 60.0 then 0
      else if hct >= 50.0 then 1
      else if hct >= 46.0 then 2
      else if hct >= 30.0 then 3
      else if hct >= 20.0 then 4
      else 5;
    FirstMatchInBand(HematocritLadder, hct, 4, band);
  }

  lemma HematocritIsUShaped()
    ensures UShaped(HematocritPoints, 30.0, 46.0)
  {}

  // ----------------------------------------------------------- white cell count

  function WbcPoints(wbc: real): (r: int)
    ensures 0 <= r <= 4 && r != 3
    ensures r == 0 <==> 3.0 <= wbc < 15.0
    ensures r == 4 <==> wbc >= 40.0 || wbc < 1.0
  {
    if wbc >= 40.0 then 4
    else if wbc >= 20.0 then 2
    else if wbc >= 15.0 then 1
    else if wbc >= 3.0 then 0
    else if wbc >= 1.0 then 2
    else 4
  }

  const WbcLadder: seq<Rung> := [
    Rung(40.0, false, 4), Rung(20.0, false, 2), Rung(15.0, false, 1), Rung(3.0, false, 0),
    Rung(1.0, false, 2)]

  lemma WbcAgreesWithLadder(wbc: real)
    ensures WbcPoints(wbc) == FirstMatch(WbcLadder, wbc, 4)
  {
    LaddersDescending();
    var band :=
      if wbc >= 40.0 then 0
      else if wbc >= 20.0 then 1
      else if wbc >= 15.0 then 2
      else if wbc >= 3.0 then 3
      else if wbc >= 1.0 then 4
      else 5;
    FirstMatchInBand(WbcLadder, wbc, 4, band);
  }

  lemma WbcIsUShaped()
    ensures UShaped(WbcPoints, 3.0, 15.0)
  {}

  // ------------------------------------------------------- Glasgow Coma Scale

  /** No table: the points are the distance below a full score of 15. The
      engine accepts any number, so a fractional GCS gives fractional points. */
  function GcsPoints(gcs: real): (r: real)
    ensures 3.0 <= gcs <= 15.0 ==> 0.0 <= r <= 12.0
    ensures r == 0.0 <==> gcs == 15.0
    ensures r == 12.0 <==> gcs == 3.0
  {
    15.0 - gcs
  }

  /** A better coma score always gives strictly fewer points, one per GCS step. */
  lemma GcsStrictlyFalls(g1: real, g2: real)
    requires g1 < g2
    ensures GcsPoints(g2) < GcsPoints(g1)
    ensures GcsPoints(g1) - GcsPoints(g2) == g2 - g1
  {}

  // ------------------------------------------------------------------------ age

  function AgePoints(age: real): (r: int)
    ensures r == 0 || r == 2 || r == 3 || r == 5 || r == 6
    ensures r == 0 <==> age < 45.0
    ensures r == 6 <==> age >= 75.0
  {
    if age >= 75.0 then 6
    else if age >= 65.0 then 5
    else if age >= 55.0 then 3
    else if age >= 45.0 then 2
    else 0
  }

  const AgeLadder: seq<Rung> := [
    Rung(75.0, false, 6), Rung(65.0, false, 5), Rung(55.0, false, 3), Rung(45.0, false, 2)]

  lemma AgeAgreesWithLadder(age: real)
    ensures AgePoints(age) == FirstMatch(AgeLadder, age, 0)
  {
    LaddersDescending();
    var band :=
      if age >= 75.0 then 0
      else if age >= 65.0 then 1
      else if age >= 55.0 then 2
      else if age >= 45.0 then 3
      else 4;
    FirstMatchInBand(AgeLadder, age, 0, band);
  }

  /** Age points never decrease as the patient gets older. The proof reads the
      chain as its ladder and applies the general result for escalating ladders;
      Dafny also finds it from the chain directly. */
  lemma AgeMonotone(a1: real, a2: real)
    requires a1 <= a2
    ensures AgePoints(a1) <= AgePoints(a2)
  {
    AgeLadderEscalates();
    AgeAgreesWithLadder(a1);
    AgeAgreesWithLadder(a2);
    FirstMatchMonotone(AgeLadder, 0, a1, a2);
  }

  /** Older age bands never score less, and no band scores below the fallback. */
  lemma AgeLadderEscalates()
    ensures Escalating(AgeLadder, 0)
  {}

  // --------------------------------------------------------- boundary examples

  /** Inclusive lower bounds at the band edges. */
  lemma BoundaryExamples()
    ensures TempPoints(36.0) == 0 && TempPoints(38.5) == 1 && TempPoints(39.0) == 3
    ensures TempPoints(41.0) == 4 && TempPoints(29.9) == 4
    ensures MapPoints(70.0) == 0 && MapPoints(69.0) == 2 && MapPoints(50.0) == 2
    ensures MapPoints(110.0) == 2 && MapPoints(160.0) == 4
    ensures HeartRatePoints(70.0) == 0 && HeartRatePoints(69.0) == 2
    ensures OxygenationPoints(70.0) == 1 && OxygenationPoints(70.5) == 0
    ensures CreatininePoints(2.0) == 3
    ensures GcsPoints(15.0) == 0.0 && GcsPoints(3.0) == 12.0
    ensures AgePoints(45.0) == 2 && AgePoints(44.0) == 0
  {}
}
