/** Basal metabolic rate by the Mifflin-St Jeor equation (Mifflin et al., 1990). */
module Bmr {
  import opened Types
  import opened Rounding
  import opened Units

  /** Weight in kilograms, converting from pounds when the profile is in pounds. */
  function WeightKg(u: UserData): real {
    if u.weightUnit == Lbs then LbsToKg(u.weight) else u.weight
  }

  /** Height in centimetres, converting from inches when the profile is in inches. */
  function HeightCm(u: UserData): real {
    if u.heightUnit == Inches then InchesToCm(u.height) else u.height
  }

  /** The shared linear part of the equation: 10 kg + 6.25 cm - 5 years. */
  function Base(u: UserData): real {
    10.0 * WeightKg(u) + 6.25 * HeightCm(u) - 5.0 * u.age as real
  }

  function MaleBmr(u: UserData): real {
    Base(u) + 5.0
  }

  function FemaleBmr(u: UserData): real {
    Base(u) - 161.0
  }

  /** The equation's value for the profile's gender; for "other", the mean of the two
      sex-specific values. */
  function ExactBmr(u: UserData): real {
    match u.gender
    case Male => MaleBmr(u)
    case Female => FemaleBmr(u)
    case Other => (MaleBmr(u) + FemaleBmr(u)) / 2.0
  }

  /** The rounded BMR: the integer nearest the equation's value, rounding once, after averaging. */
  function CalculateBMR(u: UserData): (bmr: int)
    ensures bmr as real - 0.5 <= ExactBmr(u) < bmr as real + 0.5
  {
    Round(ExactBmr(u))
  }

  /** The two sex-specific values are exactly 166 apart, and "other" lies halfway: male minus 83. */
  lemma GenderGap(u: UserData)
    ensures MaleBmr(u) - FemaleBmr(u) == 166.0
    ensures u.gender == Other ==> ExactBmr(u) == MaleBmr(u) - 83.0
  {
  }

  /** Because the gap is even, rounding before or after averaging gives the same "other" value:
      it is the mean of the rounded male and female results. */
  lemma OtherIsMeanOfRounded(u: UserData)
    requires u.gender == Other
    ensures CalculateBMR(u) == Round(MaleBmr(u) - 83.0)
    ensures 2 * CalculateBMR(u) == CalculateBMR(u.(gender := Male)) + CalculateBMR(u.(gender := Female))
  {
    var m := MaleBmr(u);
    assert MaleBmr(u.(gender := Male)) == m && MaleBmr(u.(gender := Female)) == m;
    RoundShift(m, -83);
    RoundShift(m, -166);
  }

  /** The profile restated in centimetres and kilograms. */
  function Metric(u: UserData): (m: UserData)
    ensures m.heightUnit == Cm && m.weightUnit == Kg
    ensures m.(height := u.height, heightUnit := u.heightUnit, weight := u.weight, weightUnit := u.weightUnit) == u
    ensures HeightCm(m) == HeightCm(u) && WeightKg(m) == WeightKg(u)
  {
    u.(height := HeightCm(u), heightUnit := Cm, weight := WeightKg(u), weightUnit := Kg)
  }

  /** Units matter only through normalisation: an imperial profile has the BMR of its metric
      restatement with height times 2.54 and weight times 0.453592. */
  lemma UnitsOnlyNormalise(u: UserData)
    ensures CalculateBMR(u) == CalculateBMR(Metric(u))
    ensures u.heightUnit == Inches && u.weightUnit == Lbs ==>
      CalculateBMR(u) == CalculateBMR(u.(height := u.height * 2.54, heightUnit := Cm,
                                         weight := u.weight * 0.453592, weightUnit := Kg))
  {
  }

  /** The BMR does not read the name, the activity level or the goal. */
  lemma IgnoresNonBiometrics(u: UserData, name: string, level: ActivityLevel, goal: Goal)
    ensures CalculateBMR(u) == CalculateBMR(u.(name := name, activityLevel := level, goal := goal))
  {
  }

  /** More weight or more height never lowers the BMR; more age never raises it. */
  lemma Monotone(u: UserData, v: UserData)
    requires u.gender == v.gender && u.heightUnit == v.heightUnit && u.weightUnit == v.weightUnit
    requires u.weight <= v.weight && u.height <= v.height && u.age >= v.age
    ensures CalculateBMR(u) <= CalculateBMR(v)
  {
    RoundMonotone(ExactBmr(u), ExactBmr(v));
  }

  /** The reference profile (30 years, 175 cm, 70 kg) for each gender, and its imperial variant. */
  lemma BmrExamples()
    ensures CalculateBMR(UserData("Test User", 30, Male, 175.0, 70.0, Cm, Kg, ModeratelyActive, MaintainWeight)) == 1649
    ensures CalculateBMR(UserData("Test User", 30, Female, 175.0, 70.0, Cm, Kg, ModeratelyActive, MaintainWeight)) == 1483
    ensures CalculateBMR(UserData("Test User", 30, Other, 175.0, 70.0, Cm, Kg, ModeratelyActive, MaintainWeight)) == 1566
    ensures 1500 < CalculateBMR(UserData("Test User", 30, Male, 69.0, 154.0, Inches, Lbs, ModeratelyActive, MaintainWeight)) < 1700
  {
  }
}
