/**
 * The two closed-form temperature formulas: the predicted overnight minimum
 * (midday temperature, dew point and the looked-up K) and the "actual"
 * minimum of the McKenzie method (midday temperature, dew point and a given K).
 * Both are exact over `real`.
 */
module Predictor {
  import opened Results
  import opened KLookup

  /**
   * Predicted overnight minimum: 0.316 T + 0.548 D - 1.24 + K, or `None` when
   * K is undefined for the wind speed and cloud cover.
   */
  function MinTemp(middayTemp: real, dewPoint: real, windSpeed: real, cloudCover: real): (r: Option<real>)
    ensures r.Some? <==> GetK(windSpeed, cloudCover).Some?
    ensures r.Some? <==> windSpeed <= 51.0
    ensures r.Some? ==> 0.316 * middayTemp + 0.548 * dewPoint - 3.44 <= r.value
    ensures r.Some? ==> r.value <= 0.316 * middayTemp + 0.548 * dewPoint + 2.26
  {
    match GetK(windSpeed, cloudCover)
    case None => None
    case Some(k) => Some(0.316 * middayTemp + 0.548 * dewPoint - 1.24 + k)
  }

  /** "Actual" minimum: the mean of midday temperature and dew point, less K. */
  function ActualMinTemp(middayTemp: real, dewPoint: real, k: real): (r: real)
    ensures (if middayTemp <= dewPoint then middayTemp else dewPoint) - k <= r
    ensures r <= (if middayTemp <= dewPoint then dewPoint else middayTemp) - k
  {
    0.5 * (middayTemp + dewPoint) - k
  }

  /** The predicted minimum moves one for one with K: a larger K gives a larger prediction. */
  lemma MinTempShiftsWithK(middayTemp: real, dewPoint: real, w1: real, c1: real, w2: real, c2: real)
    requires w1 <= 51.0 && w2 <= 51.0
    ensures MinTemp(middayTemp, dewPoint, w2, c2).value - MinTemp(middayTemp, dewPoint, w1, c1).value
         == GetK(w2, c2).value - GetK(w1, c1).value
  {
  }

  /**
   * With the same K fed to both formulas, the prediction error has a closed
   * form: 0.048 D - 0.184 T - 1.24 + 2 K.
   */
  lemma PredictionMinusActual(middayTemp: real, dewPoint: real, windSpeed: real, cloudCover: real)
    requires windSpeed <= 51.0
    ensures var k := GetK(windSpeed, cloudCover).value;
      MinTemp(middayTemp, dewPoint, windSpeed, cloudCover).value - ActualMinTemp(middayTemp, dewPoint, k)
      == 0.048 * dewPoint - 0.184 * middayTemp - 1.24 + 2.0 * k
  {
  }

  /** The prediction does not decrease when midday temperature or dew point rises. */
  lemma MinTempMonotone(t1: real, d1: real, t2: real, d2: real, windSpeed: real, cloudCover: real)
    requires t1 <= t2 && d1 <= d2 && windSpeed <= 51.0
    ensures MinTemp(t1, d1, windSpeed, cloudCover).value <= MinTemp(t2, d2, windSpeed, cloudCover).value
  {
  }

  /** Sample evaluations of both formulas. */
  lemma FormulaExamples()
    ensures MinTemp(20.0, 10.0, 10.0, 2.0) == Some(0.316 * 20.0 + 0.548 * 10.0 - 1.24 - 2.2)
    ensures MinTemp(20.0, 10.0, 10.0, 2.0) == Some(8.36)
    ensures MinTemp(20.0, 10.0, 60.0, 2.0) == None
    ensures ActualMinTemp(20.0, 10.0, -2.2) == 17.2
  {
  }
}
