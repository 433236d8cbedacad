/** The recommendation engine: seven calorie targets, each the TDEE scaled by a fixed factor. */
module Adjustments {
  import opened Types
  import opened Rounding

  const WeightLossMild: real := 0.85
  const WeightLossModerate: real := 0.75
  const WeightLossAggressive: real := 0.65
  const WeightGainMild: real := 1.1
  const WeightGainModerate: real := 1.2
  const WeightGainAggressive: real := 1.3

  /** Every target is the integer nearest TDEE times its factor; maintenance is the TDEE itself. */
  function CalculateRecommendations(tdee: int): (r: Recommendations)
    ensures r.maintain == tdee
    ensures Near(r.mildLoss, tdee, WeightLossMild) && Near(r.moderateLoss, tdee, WeightLossModerate)
    ensures Near(r.aggressiveLoss, tdee, WeightLossAggressive)
    ensures Near(r.mildGain, tdee, WeightGainMild) && Near(r.moderateGain, tdee, WeightGainModerate)
    ensures Near(r.aggressiveGain, tdee, WeightGainAggressive)
  {
    Recommendations(
      maintain := Round(tdee as real),
      mildLoss := Round(tdee as real * WeightLossMild),
      moderateLoss := Round(tdee as real * WeightLossModerate),
      aggressiveLoss := Round(tdee as real * WeightLossAggressive),
      mildGain := Round(tdee as real * WeightGainMild),
      moderateGain := Round(tdee as real * WeightGainModerate),
      aggressiveGain := Round(tdee as real * WeightGainAggressive))
  }

  /** `target` is within half a calorie of tdee * factor (ties taken upward). */
  predicate Near(target: int, tdee: int, factor: real) {
    target as real - 0.5 <= tdee as real * factor < target as real + 0.5
  }

  /** The targets in increasing order, from the steepest deficit to the steepest surplus. */
  predicate Ordered(r: Recommendations) {
    r.aggressiveLoss <= r.moderateLoss <= r.mildLoss <= r.maintain
      <= r.mildGain <= r.moderateGain <= r.aggressiveGain
  }

  /** For a non-negative TDEE the targets are ordered by their factors. */
  lemma RecommendationsOrdered(tdee: int)
    requires tdee >= 0
    ensures Ordered(CalculateRecommendations(tdee))
  {
    var t := tdee as real;
    RoundMonotone(t * WeightLossAggressive, t * WeightLossModerate);
    RoundMonotone(t * WeightLossModerate, t * WeightLossMild);
    RoundMonotone(t * WeightLossMild, t);
    RoundMonotone(t, t * WeightGainMild);
    RoundMonotone(t * WeightGainMild, t * WeightGainModerate);
    RoundMonotone(t * WeightGainModerate, t * WeightGainAggressive);
  }

  /** A higher TDEE never lowers any target. */
  lemma RecommendationsMonotone(x: int, y: int)
    requires x <= y
    ensures var a, b := CalculateRecommendations(x), CalculateRecommendations(y);
      && a.maintain <= b.maintain && a.mildLoss <= b.mildLoss && a.moderateLoss <= b.moderateLoss
      && a.aggressiveLoss <= b.aggressiveLoss && a.mildGain <= b.mildGain
      && a.moderateGain <= b.moderateGain && a.aggressiveGain <= b.aggressiveGain
  {
    var s, t := x as real, y as real;
    RoundMonotone(s * WeightLossMild, t * WeightLossMild);
    RoundMonotone(s * WeightLossModerate, t * WeightLossModerate);
    RoundMonotone(s * WeightLossAggressive, t * WeightLossAggressive);
    RoundMonotone(s * WeightGainMild, t * WeightGainMild);
    RoundMonotone(s * WeightGainModerate, t * WeightGainModerate);
    RoundMonotone(s * WeightGainAggressive, t * WeightGainAggressive);
  }

  /** The reference TDEE of 2000. */
  lemma RecommendationsExample()
    ensures CalculateRecommendations(2000) == Recommendations(2000, 1700, 1500, 1300, 2200, 2400, 2600)
  {
  }
}
