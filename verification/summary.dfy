/** The personalised summary sentence. */
module Summary {
  import opened Wrappers
  import opened Types
  import opened Activity
  import opened Text

  /** Number-to-text conversions the summary relies on: plain integer text for the age, numeric
      text for height and weight, and locale-formatted text for calorie figures. */
  datatype Render = Render(count: int -> string, quantity: real -> string, calories: int -> string)

  /** The name to greet by: the profile's name, or "there" when it is empty. */
  function DisplayName(name: string): (n: string)
    ensures |n| > 0
    ensures name != [] ==> n == name
  {
    if name == [] then "there" else name
  }

  /** The lower-cased label of the profile's activity level, or "undefined" when the table has
      no row for it. */
  function Lifestyle(level: ActivityLevel): string {
    match FindLevel(ActivityLevels, level.Key())
    case Some(i) => ToLower(ActivityLevels[i].labelText)
    case None => "undefined"
  }

  /** The recommendation figures the closing clause cites for a goal. */
  function Cited(goal: Goal, r: Recommendations): seq<int> {
    match goal
    case LoseWeight => [r.mildLoss, r.moderateLoss]
    case GainWeight => [r.mildGain, r.moderateGain]
    case MaintainWeight => [r.maintain]
  }

  function Closing(goal: Goal, r: Recommendations, fmt: Render): string {
    match goal
    case LoseWeight =>
      "To lose weight safely, aim for " + fmt.calories(r.mildLoss) + "-" + fmt.calories(r.moderateLoss) + " calories per day."
    case GainWeight =>
      "To gain weight, aim for " + fmt.calories(r.mildGain) + "-" + fmt.calories(r.moderateGain) + " calories per day."
    case MaintainWeight =>
      "To maintain your current weight, aim for " + fmt.calories(r.maintain) + " calories per day."
  }

  /** The greeting, addressed to the display name. */
  function Salutation(name: string): string {
    "Hi " + DisplayName(name) + "! "
  }

  function Profile(u: UserData, fmt: Render): string {
    "Based on your profile (" + fmt.count(u.age) + " years old, "
      + fmt.quantity(u.height) + u.heightUnit.Tag() + ", " + fmt.quantity(u.weight) + u.weightUnit.Tag() + "), "
  }

  /** `t` occurs in `s` at position `i`. */
  predicate OccursAt(s: string, t: string, i: int) {
    0 <= i && i + |t| <= |s| && s[i..i + |t|] == t
  }

  /** `t` occurs somewhere in `s`. */
  predicate Contains(s: string, t: string) {
    exists i | 0 <= i <= |s| :: OccursAt(s, t, i)
  }

  lemma ContainsSuffix(a: string, t: string)
    ensures Contains(a + t, t)
  {
    assert OccursAt(a + t, t, |a|);
  }

  lemma ContainsPrefix(t: string, b: string)
    ensures Contains(t + b, t)
  {
    assert OccursAt(t + b, t, 0);
  }

  lemma ContainsSelf(t: string)
    ensures Contains(t, t)
  {
    assert OccursAt(t, t, 0);
  }

  lemma ContainsAppend(s: string, b: string, t: string)
    requires Contains(s, t)
    ensures Contains(s + b, t)
  {
    var i :| 0 <= i <= |s| && OccursAt(s, t, i);
    assert (s + b)[i..i + |t|] == s[i..i + |t|];
    assert OccursAt(s + b, t, i);
  }

  /** Text around an occurrence keeps it an occurrence. */
  lemma ContainsExtend(a: string, s: string, b: string, t: string)
    requires Contains(s, t)
    ensures Contains(a + s + b, t)
  {
    var i :| 0 <= i <= |s| && OccursAt(s, t, i);
    assert (a + s + b)[|a| + i..|a| + i + |t|] == s[i..i + |t|];
    assert OccursAt(a + s + b, t, |a| + i);
  }

  lemma ContainsTransitive(s: string, t: string, w: string)
    requires Contains(s, t) && Contains(t, w)
    ensures Contains(s, w)
  {
    var i :| 0 <= i <= |s| && OccursAt(s, t, i);
    var j :| 0 <= j <= |t| && OccursAt(t, w, j);
    forall k | 0 <= k < |w|
      ensures s[i + j..i + j + |w|][k] == w[k]
    {
      assert w[k] == t[j + k] == s[i..i + |t|][j + k];
    }
    assert OccursAt(s, w, i + j);
  }

  /** The sentence reporting the BMR; it cites the BMR. */
  function BmrSentence(bmr: int, fmt: Render): (r: string)
    ensures Contains(r, fmt.calories(bmr))
  {
    var x := fmt.calories(bmr);
    ContainsSelf(x);
    ContainsExtend("your Basal Metabolic Rate (BMR) is ", x, " calories per day. ", x);
    "your Basal Metabolic Rate (BMR) is " + x + " calories per day. "
  }

  /** The sentence reporting the lifestyle and the TDEE; it cites both. */
  function TdeeSentence(lifestyle: string, tdee: int, fmt: Render): (r: string)
    ensures Contains(r, lifestyle) && Contains(r, fmt.calories(tdee))
  {
    var head, x := "With your " + lifestyle, fmt.calories(tdee);
    var middle := " lifestyle, your Total Daily Energy Expenditure (TDEE) is ";
    ContainsSuffix("With your ", lifestyle);
    ContainsAppend(head, middle, lifestyle);
    ContainsAppend(head + middle, x, lifestyle);
    ContainsAppend(head + middle + x, " calories. ", lifestyle);
    ContainsSelf(x);
    ContainsExtend(head + middle, x, " calories. ", x);
    head + middle + x + " calories. "
  }

  function Figures(u: UserData, result: CalculationResult, fmt: Render): string {
    BmrSentence(result.bmr, fmt) + TdeeSentence(Lifestyle(u.activityLevel), result.tdee, fmt)
  }

  predicate EndsWith(s: string, suffix: string) {
    |suffix| <= |s| && s[|s| - |suffix|..] == suffix
  }

  /** The pieces of `head + middle + tail`: it starts with `head` and ends with `tail`. */
  lemma Framed(head: string, middle: string, tail: string)
    ensures head <= head + middle + tail
    ensures EndsWith(head + middle + tail, tail)
  {
    assert (head + middle + tail)[..|head|] == head;
    assert (head + middle + tail)[|head + middle|..] == tail;
  }

  /** The summary: greeting and profile, BMR and TDEE, then the clause for the profile's goal; it
      opens with the greeting and the profile, reports the figures and closes with the goal's clause. */
  function GenerateSummary(u: UserData, result: CalculationResult, fmt: Render): (s: string)
    ensures Salutation(u.name) <= s
    ensures Salutation(u.name) + Profile(u, fmt) <= s
    ensures EndsWith(s, Closing(u.goal, result.recommendations, fmt))
    ensures Contains(s, Figures(u, result, fmt))
  {
    var g, p, f, c := Salutation(u.name), Profile(u, fmt), Figures(u, result, fmt), Closing(u.goal, result.recommendations, fmt);
    Framed(g, p + f, c);
    assert (g + (p + f) + c)[..|g + p|] == g + p;
    ContainsSuffix(p, f);
    ContainsExtend(g, p + f, c, f);
    g + (p + f) + c
  }

  /** The summary reports the BMR, the lower-cased lifestyle label and the TDEE. */
  lemma ReportsBmrAndTdee(u: UserData, result: CalculationResult, fmt: Render)
    ensures var s := GenerateSummary(u, result, fmt);
      && Contains(s, BmrSentence(result.bmr, fmt))
      && Contains(s, TdeeSentence(Lifestyle(u.activityLevel), result.tdee, fmt))
      && Contains(s, fmt.calories(result.bmr))
      && Contains(s, Lifestyle(u.activityLevel))
      && Contains(s, fmt.calories(result.tdee))
  {
    var s, f := GenerateSummary(u, result, fmt), Figures(u, result, fmt);
    var b, t := BmrSentence(result.bmr, fmt), TdeeSentence(Lifestyle(u.activityLevel), result.tdee, fmt);
    ContainsPrefix(b, t);
    ContainsTransitive(s, f, b);
    ContainsSuffix(b, t);
    ContainsTransitive(s, f, t);
    ContainsTransitive(s, b, fmt.calories(result.bmr));
    ContainsTransitive(s, t, Lifestyle(u.activityLevel));
    ContainsTransitive(s, t, fmt.calories(result.tdee));
  }

  /** The greeting uses the profile's name, falling back to "there" when the name is empty. */
  lemma GreetsByName(u: UserData, result: CalculationResult, fmt: Render)
    ensures u.name != [] ==> "Hi " + u.name + "! " <= GenerateSummary(u, result, fmt)
    ensures u.name == [] ==> "Hi " + "there" + "! " <= GenerateSummary(u, result, fmt)
  {
  }

  /** The closing clause cites the goal's figures: the mild-to-moderate deficit range to lose, the
      mild-to-moderate surplus range to gain, maintenance otherwise. */
  lemma ClosesWithGoalClause(u: UserData, result: CalculationResult, fmt: Render)
    ensures var s, r := GenerateSummary(u, result, fmt), result.recommendations;
      && (u.goal == LoseWeight ==> EndsWith(s,
            "To lose weight safely, aim for " + fmt.calories(r.mildLoss) + "-" + fmt.calories(r.moderateLoss) + " calories per day."))
      && (u.goal == GainWeight ==> EndsWith(s,
            "To gain weight, aim for " + fmt.calories(r.mildGain) + "-" + fmt.calories(r.moderateGain) + " calories per day."))
      && (u.goal == MaintainWeight ==> EndsWith(s,
            "To maintain your current weight, aim for " + fmt.calories(r.maintain) + " calories per day."))
  {
    var s := GenerateSummary(u, result, fmt);
    var c := Closing(u.goal, result.recommendations, fmt);
    assert EndsWith(s, c);
  }

  /** The summary reads only the BMR, the TDEE and the figures its goal cites: results that agree on
      those give the same text, whatever their other targets or summary field hold. */
  lemma DependsOnlyOnCited(u: UserData, r1: CalculationResult, r2: CalculationResult, fmt: Render)
    requires r1.bmr == r2.bmr && r1.tdee == r2.tdee
    requires Cited(u.goal, r1.recommendations) == Cited(u.goal, r2.recommendations)
    ensures GenerateSummary(u, r1, fmt) == GenerateSummary(u, r2, fmt)
  {
    var c1, c2 := Cited(u.goal, r1.recommendations), Cited(u.goal, r2.recommendations);
    match u.goal
    case LoseWeight => assert c1[0] == c2[0] && c1[1] == c2[1];
    case GainWeight => assert c1[0] == c2[0] && c1[1] == c2[1];
    case MaintainWeight => assert c1[0] == c2[0];
  }

  /** Every level in the table is described by its own row's label, lower-cased. */
  lemma LifestyleIsLoweredLabel(l: ActivityLevel)
    ensures Lifestyle(l) == ToLower(ActivityLevels[l.Ordinal()].labelText)
  {
    FindsExactlyTheLevels(l.Key());
    TableIsComplete();
  }
}
