# Calorie calculator core, modelled in Dafny

This project models the calculation core of a calorie calculator web app. The core does six things:

- converts heights between inches and centimetres and weights between pounds and kilograms;
- computes the Basal Metabolic Rate (BMR) with the Mifflin-St Jeor formula, averaging the male and female equations for the "other" gender;
- scales the BMR by the multiplier of one of five activity levels to get the Total Daily Energy Expenditure (TDEE);
- derives seven daily calorie targets from the TDEE, from aggressive loss to aggressive gain;
- writes a personalised summary sentence;
- validates the raw form input with seven independent range checks.

Modules, one per file, follow the source's structure:

| module | file | models |
|---|---|---|
| `Wrappers` | wrappers.dfy | `Option` and `Result` (the thrown error becomes a `Failure`) |
| `Types` | types.dfy | the profile, the enums, the result record |
| `Rounding` | rounding.dfy | `Math.round` |
| `Units` | units.dfy | the four unit converters |
| `Bmr` | bmr.dfy | `calculateBMR` |
| `Activity` | activity.dfy | `ACTIVITY_LEVELS` and `calculateTDEE` |
| `Adjustments` | recommendations.dfy | the six adjustment factors and `calculateRecommendations` |
| `Text` | text.dfy | `toLowerCase` on the activity labels |
| `Summary` | summary.dfy | `generateSummary` |
| `Calculations` | calculations.dfy | `calculateCalories` |
| `Validation` | validation.dfy | `validateUserData` |

Modelling choices:

- **Numbers.** JavaScript numbers are modelled as exact `real`s, and ages and calorie figures as `int`s.
- **Rounding.** `Math.round(x)` is `(x + 0.5).Floor`, which rounds halves toward +∞. This is not round-half-away-from-zero: `Rounding.RoundTiesUp` proves `Round(-2.5) == -2`.
- **TDEE input.** `calculateTDEE` keeps its string parameter, so an unknown key reaches the `Invalid activity level` failure, as in the source.
- **Number formatting.** Number-to-text conversion (template interpolation and `toLocaleString`) is a `Render` parameter of the summary.
- **Validator.** It is modelled as a fold over the ordered list of seven checks (`Validation.Check`). Each failing check contributes its own message, and none stops the others.

One observation about the source: the male and female BMR equations differ by exactly 166, an even number. So for "other", rounding the mean gives the same result as averaging the two rounded values. `Bmr.OtherIsMeanOfRounded` proves this, which is why the test's comment "(1649 + 1483) / 2 = 1566" agrees with the code.

## Model

| member | source | states |
|---|---|---|
| Rounding.Round | src/utils/calculations.ts:96 | the rounded value lies within half a unit of its argument, with halves going up |
| Rounding.RoundUnique | src/utils/calculations.ts:96 | any integer within [x - 0.5, x + 0.5) is the rounding of x |
| Rounding.RoundMonotone | src/utils/calculations.ts:96 | rounding never reverses the order of two values |
| Rounding.RoundShift | src/utils/calculations.ts:96 | rounding commutes with adding an integer |
| Rounding.RoundTiesUp | src/utils/calculations.ts:96 | a half is rounded toward +∞, so -2.5 becomes -2 and not -3 |
| Units.InchesToCm | src/utils/calculations.ts:48-50 | a length is positive in centimetres exactly when it is positive in inches |
| Units.CmToInches | src/utils/calculations.ts:55-57 | a length is positive in inches exactly when it is positive in centimetres |
| Units.LbsToKg | src/utils/calculations.ts:62-64 | a weight is positive in kilograms exactly when it is positive in pounds |
| Units.KgToLbs | src/utils/calculations.ts:69-71 | a weight is positive in pounds exactly when it is positive in kilograms |
| Units.LengthRoundTrip | src/utils/calculations.ts:48-57 | inches→cm→inches and cm→inches→cm both return the input exactly |
| Units.WeightRoundTripIsApproximate | src/utils/calculations.ts:62-71 | the two weight factors are not reciprocal: a round trip in either order multiplies by 0.99999799504, so it returns the input only for 0 and loses under 3 parts per million otherwise |
| Units.ConvertersMonotone | src/utils/calculations.ts:48-71 | every converter is strictly increasing |
| Units.ConverterExamples | src/tests/calculations.test.ts:15-33 | the eight reference conversions (70 in ≈ 177.8 cm, …, 80 kg ≈ 176.4 lbs) hold to within 0.05 |
| Bmr.CalculateBMR | src/utils/calculations.ts:78-97 | the BMR is the exact Mifflin-St Jeor value of the metric-normalised profile, rounded to the nearest integer |
| Bmr.GenderGap | src/utils/calculations.ts:85-94 | the male equation exceeds the female one by exactly 166; "other" is the male value minus 83 |
| Bmr.OtherIsMeanOfRounded | src/utils/calculations.ts:89-96 | for "other", twice the BMR equals the sum of the male and female BMRs of the same profile |
| Bmr.Metric | src/utils/calculations.ts:80-81 | normalising a profile yields centimetres and kilograms, keeps every other field, and leaves the normalised height and weight unchanged (normalising is idempotent on the values the formula reads) |
| Bmr.UnitsOnlyNormalise | src/utils/calculations.ts:80-81 | a profile gives the same BMR as its metric conversion; imperial input is converted with 2.54 and 0.453592 |
| Bmr.IgnoresNonBiometrics | src/utils/calculations.ts:78-97 | name, activity level and goal do not affect the BMR |
| Bmr.Monotone | src/utils/calculations.ts:86-93 | for the same gender and units, more weight, more height or a lower age never lowers the BMR |
| Bmr.BmrExamples | src/tests/calculations.test.ts:49-81 | reference profile: 1649 male, 1483 female, 1566 other; the imperial profile lands strictly between 1500 and 1700 |
| Types.KeyInjective | src/types/index.ts:15-20 | distinct activity levels have distinct string keys |
| Activity.FindLevel | src/utils/calculations.ts:103 | it returns the index of the first row with the key, and None exactly when no row has it |
| Activity.TableIsComplete | src/utils/calculations.ts:4-35 | the table has five rows, ordered by activity, each carrying its own level's multiplier |
| Activity.FindsExactlyTheLevels | src/utils/calculations.ts:103 | searching by a level's key finds that level's row; any other key finds nothing |
| Activity.CalculateTDEE | src/utils/calculations.ts:102-109 | the key of a level gives the BMR times that level's multiplier, rounded; any other string fails with "Invalid activity level" |
| Activity.TdeeOfLevel | src/utils/calculations.ts:102-109 | every activity level succeeds with its own multiplier |
| Activity.TdeeMonotoneInLevel | src/utils/calculations.ts:4-35 | for a non-negative BMR, a more active level never gives a lower TDEE |
| Activity.TdeeMonotoneInBmr | src/utils/calculations.ts:108 | a higher BMR never gives a lower TDEE at the same level |
| Activity.TdeeExamples | src/tests/calculations.test.ts:85-93 | a BMR of 1500 gives 1800, 2063, 2325, 2588 and 2850 across the five levels |
| Activity.TdeeRejectsUnknownKey | src/tests/calculations.test.ts:95-97 | the key "invalid" fails with "Invalid activity level" |
| Adjustments.CalculateRecommendations | src/utils/calculations.ts:114-124 | maintenance equals the TDEE; each other target is the TDEE scaled by its factor (0.85, 0.75, 0.65, 1.1, 1.2, 1.3), within half a calorie |
| Adjustments.RecommendationsOrdered | src/utils/calculations.ts:38-43 | for a non-negative TDEE: aggressive ≤ moderate ≤ mild loss ≤ maintain ≤ mild ≤ moderate ≤ aggressive gain |
| Adjustments.RecommendationsMonotone | src/utils/calculations.ts:114-124 | a higher TDEE never lowers any of the seven targets |
| Adjustments.RecommendationsExample | src/tests/calculations.test.ts:101-118 | a TDEE of 2000 gives 2000, 1700, 1500, 1300, 2200, 2400, 2600 |
| Text.LowerChar | src/utils/calculations.ts:135 | an upper-case ASCII letter maps to its lower-case letter; any other character is unchanged |
| Text.ToLower | src/utils/calculations.ts:135 | lower-casing keeps the length and lower-cases character by character |
| Text.ToLowerIdempotent | src/utils/calculations.ts:135 | a lower-cased string has no upper-case letters, and lower-casing it again changes nothing |
| Summary.DisplayName | src/utils/calculations.ts:130 | the name to greet by is never empty, and is the profile's name whenever that is non-empty |
| Summary.BmrSentence | src/utils/calculations.ts:134 | the BMR sentence cites the formatted BMR |
| Summary.TdeeSentence | src/utils/calculations.ts:135 | the TDEE sentence cites the lifestyle text and the formatted TDEE |
| Summary.Framed | src/utils/calculations.ts:133-145 | a string built from pieces starts with its first piece and ends with its last |
| Summary.GenerateSummary | src/utils/calculations.ts:129-149 | the summary opens with the greeting followed by the profile clause (age, height and weight with their unit tags), contains the BMR and TDEE sentences, and closes with the clause for the profile's goal |
| Summary.ReportsBmrAndTdee | src/utils/calculations.ts:133-135 | the summary contains the BMR sentence and the TDEE sentence, and so the formatted BMR, the lifestyle text (the level's lower-cased label, by Summary.LifestyleIsLoweredLabel) and the formatted TDEE |
| Summary.GreetsByName | src/utils/calculations.ts:130-133 | the summary starts with "Hi <name>! ", or "Hi there! " for an empty name |
| Summary.ClosesWithGoalClause | src/utils/calculations.ts:137-146 | losing cites the mild-to-moderate loss range, gaining cites the mild-to-moderate gain range, and maintaining cites the maintenance figure |
| Summary.DependsOnlyOnCited | src/utils/calculations.ts:133-146 | two results with the same BMR, TDEE and goal-cited figures give the same summary |
| Summary.LifestyleIsLoweredLabel | src/utils/calculations.ts:131-135 | every level is described by its own row's label, lower-cased |
| Calculations.WithSummary | src/utils/calculations.ts:159-166 | filling in the summary keeps the figures, and the summary describes the completed result |
| Calculations.CalculateCalories | src/utils/calculations.ts:154-169 | the pipeline never fails for a typed profile; its BMR, TDEE and targets are the outputs of the three stages, chained; maintenance equals the TDEE |
| Calculations.SummaryDescribesResult | src/utils/calculations.ts:159-166 | the result's summary is the summary of that same result |
| Calculations.GoalOnlyShapesSummary | src/utils/calculations.ts:154-169 | changing the goal changes neither the BMR, the TDEE nor the targets |
| Validation.Failed | src/utils/calculations.ts:177-203 | running a list of checks reports at most one entry per check |
| Validation.Messages | src/utils/calculations.ts:178-202 | the k-th message is the message of the k-th failed check |
| Validation.ValidateUserData | src/utils/calculations.ts:174-206 | each of the seven messages is reported exactly when its condition holds on the raw input |
| Validation.FailedCons | src/utils/calculations.ts:177-203 | a check run ahead of the others contributes its result in front of theirs |
| Validation.FailedChecksUnrolled | src/utils/calculations.ts:177-203 | the report is the seven checks' contributions, in source order |
| Validation.FailedMembers | src/utils/calculations.ts:177-203 | a check is reported exactly when it is run and fails; no failure stops the later checks |
| Validation.FailedKeepsOrder | src/utils/calculations.ts:177-203 | the failed checks keep their running order |
| Validation.MessageInjective | src/utils/calculations.ts:178-202 | distinct checks have distinct messages |
| Validation.ReportsEveryFailedCheck | src/utils/calculations.ts:177-203 | a check's message is in the report exactly when the check fails |
| Validation.ReportsInCheckOrder | src/utils/calculations.ts:174-206 | messages come out in check order, one per failed check |
| Validation.ValidIffPlausible | src/utils/calculations.ts:174-206 | the report is empty exactly when the age is in [13, 120], and height and weight are positive and within the limit for their own unit (120 in or 300 cm; 1000 lbs or 450 kg) |
| Validation.OneFailurePerField | src/utils/calculations.ts:181-203 | two different checks on the same field never fail together |
| Validation.FailedOnlyFailing | src/utils/calculations.ts:177-203 | every reported check failed |
| Validation.AtMostOnePerField | src/utils/calculations.ts:177-203 | the reported checks concern pairwise different fields |
| Validation.FourFieldsRepeat | src/utils/calculations.ts:177-203 | among any four fields, two coincide, since only age, height and weight are checked |
| Validation.AtMostThreeMessages | src/utils/calculations.ts:174-206 | validation reports at most three messages |
| Validation.ValidationExamples | src/tests/calculations.test.ts:134-185 | the reference profile passes, and each of the eight variants fails its own check and no other |
| Validation.ValidationReportsAll | src/utils/calculations.ts:177-203 | a profile that is too old, has a non-positive height and an excessive kilogram weight gets all three reports, in check order |

## Left out

- The React components, the PDF generator, clipboard and sharing are outside the calculation core.
- The number-to-text conversions are not modelled. This covers `${n}` interpolation and `toLocaleString` in the summary. They depend on the locale and the JavaScript runtime, so the summary takes them as the `Render` parameter.
- IEEE-754 double arithmetic is not modelled. Reals are exact, so results that depend on floating-point error are not modelled (e.g. 1.725 has no exact double, so 1500 × 1.725 reaches 2587.5 only through floating-point rounding, while the model computes it exactly).
- The activity table's `description` column is not modelled. Nothing in the core reads it.
- The optional `targetWeight` and `targetTimeline` fields are not modelled. Nothing in the core reads them.
- Age is an `int`. The source accepts any number, so a fractional age is not modelled.
- Text.ToLower: covers ASCII letters only, not full Unicode case mapping. The activity labels are ASCII.
- Calculations.CalculateCalories: the profile's activity level is an enum, so the invalid-level failure cannot happen at this level. The failure is modelled at `Activity.CalculateTDEE`, which takes the raw string.
- Summary.Lifestyle's "undefined" branch has no statement about it. That branch corresponds to `activityLevel?.label` when the lookup fails, and the branch cannot be reached with the enum.
- The whole-pipeline example and a concrete lower-cased label example are not stated as lemmas. Their string literals are too long for the verifier to unfold at reasonable cost. The general lemmas above cover them.
