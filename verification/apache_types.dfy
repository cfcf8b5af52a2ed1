/**
 * The input and result records of the APACHE II engine. Every numeric field
 * is a JavaScript `number` in the engine and is modelled as `real`: the engine
 * rounds nothing before it computes the logit.
 */
module ApacheTypes {

  /** The five chronic-health conditions; only "is at least one present" matters. */
  datatype ApacheChronicHealth = ApacheChronicHealth(
    liverCirrhosis: bool,
    heartFailureClassIV: bool,
    copd: bool,
    dialysis: bool,
    immunocompromised: bool)

  /** Acute physiology readings, age, the two admission flags and the chronic conditions. */
  datatype ApacheInputData = ApacheInputData(
    temperature: real,           // degrees Celsius
    meanArterialPressure: real,  // mmHg
    heartRate: real,             // beats per minute
    respiratoryRate: real,       // breaths per minute
    oxygenation: real,           // PaO2, mmHg
    arterialPH: real,
    sodium: real,                // mmol/L
    potassium: real,             // mmol/L
    creatinine: real,            // mg/dL
    hematocrit: real,            // percent
    wbc: real,                   // thousands per cubic millimetre
    gcs: real,                   // Glasgow Coma Scale, 3..15 on a valid form
    age: real,                   // years
    isEmergencySurgery: bool,
    isAcuteRenalFailure: bool,
    chronicHealth: ApacheChronicHealth)

  /** The three subtotals, their sum, and the log-odds of hospital death from
      which the engine derives its mortality percentage. */
  datatype ApacheResult = ApacheResult(
    apsScore: real,
    ageScore: real,
    chronicHealthScore: real,
    totalScore: real,
    logit: real)
}
