/** The full calculation: BMR, then TDEE, then the seven targets, then the summary. */
module Calculations {
  import opened Wrappers
  import opened Types
  import opened Rounding
  import opened Bmr
  import opened Activity
  import opened Adjustments
  import opened Summary

  /** Fills in the summary of a result whose summary field is still a placeholder. The text is
      generated from the placeholder result, yet it is exactly the summary of the finished one. */
  function WithSummary(u: UserData, draft: CalculationResult, fmt: Render): (r: CalculationResult)
    ensures r.bmr == draft.bmr && r.tdee == draft.tdee && r.recommendations == draft.recommendations
    ensures r.summary == GenerateSummary(u, r, fmt)
  {
    var result := draft.(summary := GenerateSummary(u, draft, fmt));
    DependsOnlyOnCited(u, draft, result, fmt);
    result
  }

  /** Chains the stages; a TDEE failure would propagate, but a profile's level is always in the
      table, so the calculation always succeeds. */
  function CalculateCalories(u: UserData, fmt: Render): (r: Result<CalculationResult, string>)
    ensures r.Success?
    ensures r.value.bmr == CalculateBMR(u)
    ensures CalculateTDEE(r.value.bmr, u.activityLevel.Key()) == Success(r.value.tdee)
    ensures r.value.recommendations == CalculateRecommendations(r.value.tdee)
    ensures r.value.recommendations.maintain == r.value.tdee
  {
    var bmr := CalculateBMR(u);
    TdeeOfLevel(bmr, u.activityLevel);
    match CalculateTDEE(bmr, u.activityLevel.Key())
    case Failure(e) => Failure(e)
    case Success(tdee) =>
      Success(WithSummary(u, CalculationResult(bmr, tdee, CalculateRecommendations(tdee), ""), fmt))
  }

  /** The returned summary describes the returned figures. */
  lemma SummaryDescribesResult(u: UserData, fmt: Render)
    ensures CalculateCalories(u, fmt).value.summary == GenerateSummary(u, CalculateCalories(u, fmt).value, fmt)
  {
  }

  /** The goal selects only the summary's closing clause: profiles that differ only in their goal
      get the same BMR, TDEE and all seven targets. */
  lemma GoalOnlyShapesSummary(u: UserData, goal: Goal, fmt: Render)
    ensures var a, b := CalculateCalories(u, fmt).value, CalculateCalories(u.(goal := goal), fmt).value;
      a.bmr == b.bmr && a.tdee == b.tdee && a.recommendations == b.recommendations
  {
    IgnoresNonBiometrics(u, u.name, u.activityLevel, goal);
  }
}
