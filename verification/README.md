# APACHE II scoring engine in Dafny

This project models the scoring engine of an APACHE II calculator. APACHE II
is the severity-of-illness score of Knaus et al. (Critical Care Medicine,
1985). The engine is `calculateApacheII` in `src/lib/apache-calc.ts`. It takes
one input record: twelve acute-physiology readings, age, an emergency-surgery
flag, an acute-renal-failure flag and five chronic-health conditions. It returns
three subtotals, their sum, and a mortality estimate derived from a logit.

- `thresholds.dfy` (module `Thresholds`): a generic reading of an ordered
  threshold chain as a "ladder" of rungs, where the first rung reached wins.
  It proves the first-match semantics, the band reading of a descending chain,
  and monotonicity of chains whose points escalate.
- `physiology.dfy` (module `Physiology`): the eleven table lookups, written as
  the engine writes them (ordered `>=` chains, with a strict `>` for PaO2
  above 70), plus the GCS rule `15 - gcs` and the age table. Each chain is
  proved equal to its ladder on every value. The U-shape of every two-sided
  table is proved: points fall towards the normal band and rise beyond it.
- `apache_types.dfy` (module `ApacheTypes`): the input and result records of
  `src/types/apache.ts` as immutable datatypes.
- `apache_engine.dfy` (module `ApacheEngine`): the aggregator. It covers the
  acute-renal-failure doubling of the creatinine score, the physiology subtotal,
  the 0/2/5 chronic-health rule, the sum invariant and the logit.

Every numeric input and every result field is a JavaScript `number`, modelled
as `real`. The table scores are `int`. The GCS field is not restricted to whole
numbers by the form. `15 - gcs` can therefore be fractional, so the physiology
subtotal and the total are `real`. `Calculate` proves they are whole whenever
`gcs` is.

Acute renal failure doubles the creatinine score, so setting the flag adds the
base score once more, not the doubled score. At creatinine 2.0 the base score
is 3 and the flagged term is 6: the flag adds 3 points over the same patient
without it. Against a baseline patient with creatinine 1.0 (score 0) and
otherwise normal readings, the patient with creatinine 2.0 and the flag scores
6 more. `RenalFailureScenario` proves both.

## Model

| member | source | states |
|---|---|---|
| Thresholds.FirstMatch | src/lib/apache-calc.ts:9-18 | An ordered chain scores the points of the first bound the value reaches, and the fallback when it reaches none. The result is always one of the listed points or the fallback. |
| Thresholds.FirstMatchInBand | src/lib/apache-calc.ts:9-113 | For a chain whose bounds strictly decrease, a value at or above bound i but below bound i-1 scores bound i's points. A value below the last bound scores the fallback. So first-match order equals half-open bands that are closed below. |
| Thresholds.FirstMatchMonotone | src/lib/apache-calc.ts:120-126 | If points never increase down the chain and the fallback is the least, the score never decreases as the value rises. |
| Physiology.LaddersDescending | src/lib/apache-calc.ts:9-126 | Every chain lists its bounds from highest to lowest. |
| Physiology.TempPoints | src/lib/apache-calc.ts:9-18 | Temperature scores 0..4. It is 0 exactly on [36, 38.5) and 4 exactly at 41 and above or below 30. |
| Physiology.TempAgreesWithLadder | src/lib/apache-calc.ts:9-18 | The temperature chain equals the table 41→4, 39→3, 38.5→1, 36→0, 34→1, 32→2, 30→3, else 4, read first-match. |
| Physiology.TempIsUShaped | src/lib/apache-calc.ts:9-18 | Temperature points never rise while approaching 36 from below, and never fall above 38.5. |
| Physiology.MapPoints | src/lib/apache-calc.ts:20-27 | Mean arterial pressure scores 0..4, never 1. It is 0 exactly on [70, 110) and 4 exactly at 160 and above or below 50. |
| Physiology.MapAgreesWithLadder | src/lib/apache-calc.ts:20-27 | The pressure chain equals the table 160→4, 130→3, 110→2, 70→0, 50→2, else 4. |
| Physiology.MapIsUShaped | src/lib/apache-calc.ts:20-27 | Pressure points fall towards 70 and rise from 110. |
| Physiology.HeartRatePoints | src/lib/apache-calc.ts:29-37 | Heart rate scores 0..4, never 1. It is 0 exactly on [70, 110) and 4 exactly at 180 and above or below 40. |
| Physiology.HeartRateAgreesWithLadder | src/lib/apache-calc.ts:29-37 | The heart-rate chain equals the table 180→4, 140→3, 110→2, 70→0, 55→2, 40→3, else 4. |
| Physiology.HeartRateIsUShaped | src/lib/apache-calc.ts:29-37 | Heart-rate points fall towards 70 and rise from 110. |
| Physiology.RespRatePoints | src/lib/apache-calc.ts:39-47 | Respiratory rate scores 0..4. It is 0 exactly on [12, 25) and 4 exactly at 50 and above or below 6. |
| Physiology.RespRateAgreesWithLadder | src/lib/apache-calc.ts:39-47 | The respiratory chain equals the table 50→4, 35→3, 25→1, 12→0, 10→1, 6→2, else 4. |
| Physiology.RespRateIsUShaped | src/lib/apache-calc.ts:39-47 | Respiratory points fall towards 12 and rise from 25. |
| Physiology.OxygenationPoints | src/lib/apache-calc.ts:49-55 | PaO2 scores 0..4, never 2. It is 0 exactly above 70 (strict) and 4 exactly below 55. |
| Physiology.OxygenationAgreesWithLadder | src/lib/apache-calc.ts:49-55 | The PaO2 chain equals the table >70→0, 61→1, 55→3, else 4. |
| Physiology.OxygenationFalls | src/lib/apache-calc.ts:49-55 | PaO2 points never rise as PaO2 rises: the table is one-sided. |
| Physiology.PhPoints | src/lib/apache-calc.ts:57-65 | pH scores 0..4. It is 0 exactly on [7.33, 7.5) and 4 exactly at 7.7 and above or below 7.15. |
| Physiology.PhAgreesWithLadder | src/lib/apache-calc.ts:57-65 | The pH chain equals the table 7.7→4, 7.6→3, 7.5→1, 7.33→0, 7.25→2, 7.15→3, else 4. |
| Physiology.PhIsUShaped | src/lib/apache-calc.ts:57-65 | pH points fall towards 7.33 and rise from 7.5. |
| Physiology.SodiumPoints | src/lib/apache-calc.ts:67-76 | Sodium scores 0..4. It is 0 exactly on [130, 150) and 4 exactly at 180 and above or below 111. |
| Physiology.SodiumAgreesWithLadder | src/lib/apache-calc.ts:67-76 | The sodium chain equals the table 180→4, 160→3, 155→2, 150→1, 130→0, 120→2, 111→3, else 4. |
| Physiology.SodiumIsUShaped | src/lib/apache-calc.ts:67-76 | Sodium points fall towards 130 and rise from 150. |
| Physiology.PotassiumPoints | src/lib/apache-calc.ts:78-86 | Potassium scores 0..4. It is 0 exactly on [3.5, 5.5) and 4 exactly at 7 and above or below 2.5. |
| Physiology.PotassiumAgreesWithLadder | src/lib/apache-calc.ts:78-86 | The potassium chain equals the table 7→4, 6→3, 5.5→1, 3.5→0, 3→1, 2.5→2, else 4. |
| Physiology.PotassiumIsUShaped | src/lib/apache-calc.ts:78-86 | Potassium points fall towards 3.5 and rise from 5.5. |
| Physiology.CreatininePoints | src/lib/apache-calc.ts:88-95 | Creatinine scores 0..4, never 1. It is 0 exactly on [0.6, 1.5), 4 exactly at 3.5 and above, and 2 exactly below 0.6 or on [1.5, 2): the low side never exceeds 2. |
| Physiology.CreatinineAgreesWithLadder | src/lib/apache-calc.ts:88-95 | The creatinine chain equals the table 3.5→4, 2→3, 1.5→2, 0.6→0, else 2. |
| Physiology.CreatinineIsUShaped | src/lib/apache-calc.ts:88-95 | Creatinine points fall towards 0.6 and rise from 1.5. |
| Physiology.HematocritPoints | src/lib/apache-calc.ts:97-104 | Hematocrit scores 0..4, never 3. It is 0 exactly on [30, 46) and 4 exactly at 60 and above or below 20. |
| Physiology.HematocritAgreesWithLadder | src/lib/apache-calc.ts:97-104 | The hematocrit chain equals the table 60→4, 50→2, 46→1, 30→0, 20→2, else 4. |
| Physiology.HematocritIsUShaped | src/lib/apache-calc.ts:97-104 | Hematocrit points fall towards 30 and rise from 46. |
| Physiology.WbcPoints | src/lib/apache-calc.ts:106-113 | White-cell count scores 0..4, never 3. It is 0 exactly on [3, 15) and 4 exactly at 40 and above or below 1. |
| Physiology.WbcAgreesWithLadder | src/lib/apache-calc.ts:106-113 | The white-cell chain equals the table 40→4, 20→2, 15→1, 3→0, 1→2, else 4. |
| Physiology.WbcIsUShaped | src/lib/apache-calc.ts:106-113 | White-cell points fall towards 3 and rise from 15. |
| Physiology.GcsPoints | src/lib/apache-calc.ts:115-118 | For GCS in [3, 15] the points lie in [0, 12]. They are 0 exactly at GCS 15 and 12 exactly at GCS 3. |
| Physiology.GcsStrictlyFalls | src/lib/apache-calc.ts:115-118 | A higher GCS gives strictly fewer points, exactly one point per GCS step. |
| Physiology.AgePoints | src/lib/apache-calc.ts:120-126 | Age scores one of 0, 2, 3, 5, 6. It is 0 exactly below 45 and 6 exactly from 75. |
| Physiology.AgeAgreesWithLadder | src/lib/apache-calc.ts:120-126 | The age chain equals the table 75→6, 65→5, 55→3, 45→2, else 0. |
| Physiology.AgeLadderEscalates | src/lib/apache-calc.ts:120-126 | Older age bands never score less, and every band scores at least the fallback 0. |
| Physiology.AgeMonotone | src/lib/apache-calc.ts:120-126 | Age points never decrease as age rises. |
| Physiology.BoundaryExamples | src/lib/apache-calc.ts:9-126 | Lower bounds are inclusive at band edges: temperature 36→0, 38.5→1, 39→3, 41→4; pressure 70→0, 69→2, 110→2, 160→4; heart rate 70→0, 69→2; PaO2 70→1; GCS 15→0, 3→12; age 45→2, 44→0. |
| ApacheEngine.HasChronic | src/lib/apache-calc.ts:159 | "Some value of the chronic-health record is true" holds exactly when one of the five conditions is present. |
| ApacheEngine.CreatinineScore | src/lib/apache-calc.ts:144-147 | The creatinine term exceeds the table score by exactly the table score under acute renal failure, and by nothing otherwise. It is 0 exactly when the table score is 0, and at most 8 with the flag and 4 without. |
| ApacheEngine.ApsScore | src/lib/apache-calc.ts:130-152 | The physiology subtotal is the GCS term plus between 0 and 48 table points. For GCS in [3, 15] it lies in [0, 60]. It is whole when GCS is whole. Its partners `ApsScoreTracksEachReading` and `ApsScoreNormalExactly` tie every reading to its own term. |
| ApacheEngine.ApsScoreTracksEachReading | src/lib/apache-calc.ts:133-152 | Replacing any one reading moves the subtotal by exactly that reading's change in table points. Creatinine counts twice under acute renal failure, and GCS moves the subtotal one-for-one in the opposite direction. Age does not enter the subtotal. |
| ApacheEngine.ApsScoreNormalExactly | src/lib/apache-calc.ts:133-152 | The subtotal equals the GCS term exactly when all eleven table readings lie in their zero bands, whatever the renal-failure flag. |
| ApacheEngine.ChronicHealthScore | src/lib/apache-calc.ts:158-169 | Chronic-health points are 0 exactly when no condition is present, whatever the surgery flag. They are 5 exactly with a condition and emergency surgery, and 2 exactly with a condition and no emergency surgery. |
| ApacheEngine.ChronicHealthOnlyCountsAny | src/lib/apache-calc.ts:158-169 | Two condition records with the same "any present" answer get the same chronic-health points. |
| ApacheEngine.Calculate | src/lib/apache-calc.ts:129-176 | The total is the sum of the three subtotals. The record carries the subtotals unchanged and the logit of that total. For GCS in [3, 15] the total lies in [0, 71], and it is whole when GCS is whole. |
| ApacheEngine.RenalFailureDoubling | src/lib/apache-calc.ts:142-148 | Two inputs that differ only in the acute-renal-failure flag differ in physiology subtotal and in total by exactly the undoubled creatinine score. Their age and chronic-health subtotals are equal. |
| ApacheEngine.Logit | src/lib/apache-calc.ts:176 | The logit lies above the line -3.517 + 0.146 * total exactly after emergency surgery. For totals in [0, 71] it lies in [-3.517, 7.452]. Its partners `LogitIncreasing` and `EmergencySurgeryRaisesLogit` state the slope and the surgery bonus. |
| ApacheEngine.LogitIncreasing | src/lib/apache-calc.ts:176 | For a fixed surgery flag the logit is strictly increasing in the total, by 0.146 per point. |
| ApacheEngine.EmergencySurgeryRaisesLogit | src/lib/apache-calc.ts:176 | At the same total, emergency surgery raises the logit by exactly 0.603. |
| ApacheEngine.LogitDependsOnTotalOnly | src/lib/apache-calc.ts:171-176 | Two patients with the same total and the same surgery flag get the same logit. |
| ApacheEngine.BaselineScenario | src/lib/apache-calc.ts:129-176 | The baseline patient has all-normal physiology, GCS 15, age 45, no surgery and no condition. It scores APS 0, age 2, chronic 0, total 2 and logit -3.225. |
| ApacheEngine.RenalFailureScenario | src/lib/apache-calc.ts:142-148 | At creatinine 2.0 acute renal failure gives an APS of 6. That is 3 above the same patient without the flag and 6 above the baseline patient. |

## Left out

- Calculate: returns the real-valued `logit` in place of `mortalityRisk`. The engine computes `100 * exp(logit) / (1 + exp(logit))`, rounds it with `toFixed(1)` and re-parses it with `parseFloat` (src/lib/apache-calc.ts:179, 186). These are floating-point transcendental and formatting operations. After the one-decimal rounding the percentage is only non-decreasing in the total, so the strict-increase and emergency-surgery claims are proved for the logit.
- IEEE-754 double arithmetic: inputs and thresholds are exact reals. NaN, infinities and the binary rounding of literals such as 7.33 or 0.146 are not modelled.
- Field validation (src/lib/validation.ts): it uses a schema library whose code is not part of this model. Its GCS bounds [3, 15] appear only as the antecedent of the bound claims. Every operation is otherwise total, as the engine is.
- The form, page state and rendering (src/app/page.tsx, src/components/ui/FormInput.tsx). This includes the static score-to-risk table that the page displays and the engine does not compute.
- The reference panel (src/components/ReferenceInfo.tsx): static markup. Its creatinine table is in µmol/L and does not match the engine's mg/dL thresholds.
- The FiO2 >= 0.5 / A-aDO2 oxygenation branch and diagnostic-category weights: the engine has neither (src/lib/apache-calc.ts:49, 175).
- The separate non-operative chronic-health category (5 points in full APACHE II): the engine folds it into the 2-point bucket, and the model keeps that behaviour.
