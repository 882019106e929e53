/**
 * The payload-tray weight sensor (weight/weight.c): load detection, the
 * conversion of the measured voltage to grams, and the classification of a
 * weight change against the weight of one dose. The voltage the code reads
 * with `measureVoltage()` is a parameter here. Floating point is modelled
 * with exact reals.
 */
module Weight {

  /** AREF: the ADC reference voltage. */
  const Aref: real := 5.0
  /** Weight_MAXN: the sensor's full-scale force in newtons. */
  const WeightMaxN: real := 10.0
  /** Weight_MINV: the no-load voltage threshold. */
  const WeightMinV: real := 0.0
  const Gravity: real := 9.81
  /** The dose tolerance: a decrease up to 110% of a dose is one dose. */
  const DoseTolerance: real := 1.1

  datatype LoadState = LoadPresent | LoadNotPresent | LoadError

  datatype WeightChange = NoChange | SmallChange | LargeChange

  /** `max_weight`: the full-scale force expressed in grams. */
  const MaxWeight: real := WeightMaxN * 1000.0 / Gravity

  /** `Weight_DetermineWeight`: grams for a measured voltage. */
  function DetermineWeight(voltage: real): (grams: real)
    ensures voltage == 0.0 ==> grams == 0.0
    ensures voltage >= 0.0 <==> grams >= 0.0
  {
    (voltage / Aref) * MaxWeight
  }

  /** The scale is linear: proportional voltages give proportional weights,
      and the reference voltage gives the full-scale weight. */
  lemma DetermineWeightLinear(v: real, k: real)
    ensures DetermineWeight(k * v) == k * DetermineWeight(v)
    ensures DetermineWeight(Aref) == WeightMaxN * 1000.0 / Gravity
  {
  }

  /** More voltage never means less weight. */
  lemma DetermineWeightMonotone(v1: real, v2: real)
    requires v1 <= v2
    ensures DetermineWeight(v1) <= DetermineWeight(v2)
  {
    assert DetermineWeight(v2) - DetermineWeight(v1) == ((v2 - v1) / Aref) * MaxWeight;
  }

  /** `Weight_CheckForLoad`: a load is present exactly when the voltage is
      above the no-load threshold; the error state is never reported. */
  function CheckForLoad(voltage: real): (s: LoadState)
    ensures s != LoadError
    ensures s == LoadPresent <==> voltage > WeightMinV
  {
    if voltage > WeightMinV then LoadPresent else LoadNotPresent
  }

  /** A higher voltage never turns a present load into an absent one. */
  lemma CheckForLoadMonotone(v1: real, v2: real)
    requires v1 <= v2 && CheckForLoad(v1) == LoadPresent
    ensures CheckForLoad(v2) == LoadPresent
  {
  }

  /** The classification of `Weight_CheckForWeightChange` for a newly
      measured weight: an increase is no change, a decrease of up to 110% of
      a dose is one dose, a larger decrease is more than one dose. */
  function ClassifyChange(oldWeight: real, doseWeight: real, newWeight: real): (c: WeightChange)
    ensures c == NoChange <==> newWeight > oldWeight
    ensures c == SmallChange <==>
              newWeight <= oldWeight && oldWeight - newWeight <= DoseTolerance * doseWeight
    ensures c == LargeChange <==>
              newWeight <= oldWeight && oldWeight - newWeight > DoseTolerance * doseWeight
  {
    var difference := oldWeight - newWeight;
    if difference < 0.0 then NoChange
    else if difference <= doseWeight * DoseTolerance then SmallChange
    else LargeChange
  }

  /** `Weight_CheckForWeightChange`: the new weight is the one measured now. */
  function CheckForWeightChange(oldWeight: real, doseWeight: real, voltage: real): (c: WeightChange)
    ensures c == NoChange <==> DetermineWeight(voltage) > oldWeight
    ensures c == LargeChange <==>
              oldWeight - DetermineWeight(voltage) > DoseTolerance * doseWeight
              && DetermineWeight(voltage) <= oldWeight
  {
    ClassifyChange(oldWeight, doseWeight, DetermineWeight(voltage))
  }

  function Severity(c: WeightChange): nat
  {
    match c
    case NoChange => 0
    case SmallChange => 1
    case LargeChange => 2
  }

  /** A larger decrease never gets a milder class. */
  lemma ClassifyChangeMonotone(oldWeight: real, doseWeight: real, newWeight1: real, newWeight2: real)
    requires newWeight2 <= newWeight1
    ensures Severity(ClassifyChange(oldWeight, doseWeight, newWeight1)) <=
            Severity(ClassifyChange(oldWeight, doseWeight, newWeight2))
  {
  }

  /** With 50 g on the tray and a 5 g dose: 46 g is one dose, 44.5 g is
      exactly the tolerance and still one dose, 30 g is more than a dose, and
      55 g (the weight went up) counts as no change. */
  lemma ClassifyChangeExamples()
    ensures ClassifyChange(50.0, 5.0, 46.0) == SmallChange
    ensures ClassifyChange(50.0, 5.0, 44.5) == SmallChange
    ensures ClassifyChange(50.0, 5.0, 44.4) == LargeChange
    ensures ClassifyChange(50.0, 5.0, 30.0) == LargeChange
    ensures ClassifyChange(50.0, 5.0, 55.0) == NoChange
  {
  }
}
