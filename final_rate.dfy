/** The final-rate formula of `calculateFreightRate`: the base rate adjusted
    by the weighted index through the sensitivity coefficient, times the
    seasonal factor, rounded to a whole amount and clamped at zero. */
module Formula {

  /** The multiplier the weighted index contributes: 1 + (wi − 1) · s. With a
      positive sensitivity it is above, at or below 1 exactly when the index
      is; a negative sensitivity reverses the direction. */
  function IndexAdjustment(weightedIndex: real, sensitivityCoeff: real): (a: real)
    ensures weightedIndex == 1.0 || sensitivityCoeff == 0.0 ==> a == 1.0
    ensures sensitivityCoeff > 0.0 ==> (a > 1.0 <==> weightedIndex > 1.0) && (a < 1.0 <==> weightedIndex < 1.0)
    ensures sensitivityCoeff < 0.0 ==> (a > 1.0 <==> weightedIndex < 1.0) && (a < 1.0 <==> weightedIndex > 1.0)
  {
    1.0 + (weightedIndex - 1.0) * sensitivityCoeff
  }

  /** The unrounded rate, multiplied left to right as written. */
  function RawRate(baseRate: real, weightedIndex: real, sensitivityCoeff: real, seasonalFactor: real): real
  {
    baseRate * IndexAdjustment(weightedIndex, sensitivityCoeff) * seasonalFactor
  }

  /** `Math.round` on a finite number: the nearest integer, a half rounded
      towards positive infinity. */
  function Round(x: real): (r: int)
    ensures r as real - 0.5 <= x < r as real + 0.5
  {
    (x + 0.5).Floor
  }

  /** `Math.max(0, Math.round(raw))`: a non-negative whole amount, zero exactly
      when the raw rate rounds to zero or below, otherwise the nearest
      integer to the raw rate. */
  function FinalRate(baseRate: real, weightedIndex: real, sensitivityCoeff: real, seasonalFactor: real): (r: int)
    ensures r >= 0
    ensures r == 0 <==> RawRate(baseRate, weightedIndex, sensitivityCoeff, seasonalFactor) < 0.5
    ensures r > 0 ==> r as real - 0.5 <= RawRate(baseRate, weightedIndex, sensitivityCoeff, seasonalFactor) < r as real + 0.5
  {
    var rounded := Round(RawRate(baseRate, weightedIndex, sensitivityCoeff, seasonalFactor));
    if rounded > 0 then rounded else 0
  }

  /** Rounding never reverses an order. */
  lemma RoundMonotone(x: real, y: real)
    requires x <= y
    ensures Round(x) <= Round(y)
  {
  }

  lemma MulMonotone(c: real, x: real, y: real)
    requires c >= 0.0 && x <= y
    ensures c * x <= c * y
  {
  }

  /** The raw rate is the base and seasonal factor times the adjustment. */
  lemma RawRateFactors(baseRate: real, weightedIndex: real, sensitivityCoeff: real, seasonalFactor: real)
    ensures RawRate(baseRate, weightedIndex, sensitivityCoeff, seasonalFactor)
            == (baseRate * seasonalFactor) * IndexAdjustment(weightedIndex, sensitivityCoeff)
  {
  }

  /** A neutral index, or a zero sensitivity, leaves the base rate times the
      seasonal factor, rounded and clamped. */
  lemma NeutralIndexKeepsSeasonalBase(baseRate: real, weightedIndex: real, sensitivityCoeff: real, seasonalFactor: real)
    requires weightedIndex == 1.0 || sensitivityCoeff == 0.0
    ensures FinalRate(baseRate, weightedIndex, sensitivityCoeff, seasonalFactor)
            == (if Round(baseRate * seasonalFactor) > 0 then Round(baseRate * seasonalFactor) else 0)
  {
    RawRateFactors(baseRate, weightedIndex, sensitivityCoeff, seasonalFactor);
  }

  /** For a non-negative base · season, raising the sensitivity never lowers
      the final rate when the index is above 1 and never raises it when the
      index is below 1. Because of the rounding the change need not be
      strict (see `RoundingMasksSensitivity`). */
  lemma FinalRateMonotoneInSensitivity(baseRate: real, weightedIndex: real, s1: real, s2: real, seasonalFactor: real)
    requires baseRate * seasonalFactor >= 0.0 && s1 <= s2
    ensures weightedIndex >= 1.0 ==>
              FinalRate(baseRate, weightedIndex, s1, seasonalFactor) <= FinalRate(baseRate, weightedIndex, s2, seasonalFactor)
    ensures weightedIndex <= 1.0 ==>
              FinalRate(baseRate, weightedIndex, s1, seasonalFactor) >= FinalRate(baseRate, weightedIndex, s2, seasonalFactor)
  {
    var c := baseRate * seasonalFactor;
    var a1, a2 := IndexAdjustment(weightedIndex, s1), IndexAdjustment(weightedIndex, s2);
    RawRateFactors(baseRate, weightedIndex, s1, seasonalFactor);
    RawRateFactors(baseRate, weightedIndex, s2, seasonalFactor);
    var r1, r2 := RawRate(baseRate, weightedIndex, s1, seasonalFactor), RawRate(baseRate, weightedIndex, s2, seasonalFactor);
    if weightedIndex >= 1.0 {
      MulMonotone(weightedIndex - 1.0, s1, s2);
      MulMonotone(c, a1, a2);
      RoundMonotone(r1, r2);
    }
    if weightedIndex <= 1.0 {
      MulMonotone(1.0 - weightedIndex, s1, s2);
      MulMonotone(c, a2, a1);
      RoundMonotone(r2, r1);
    }
  }

  /** A larger sensitivity need not give a larger rate: base 2500, index
      131/120 and factor 1 give 2615 at sensitivity 0.5 and at 0.5001. */
  lemma RoundingMasksSensitivity()
    ensures FinalRate(2500.0, 131.0 / 120.0, 0.5, 1.0) == 2615
    ensures FinalRate(2500.0, 131.0 / 120.0, 0.5001, 1.0) == 2615
  {
    assert RawRate(2500.0, 131.0 / 120.0, 0.5, 1.0) == 2500.0 * (1.0 + (11.0 / 120.0) * 0.5);
    assert RawRate(2500.0, 131.0 / 120.0, 0.5001, 1.0) == 2500.0 * (1.0 + (11.0 / 120.0) * 0.5001);
  }
}
