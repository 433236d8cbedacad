/** The entities of the calculator: the user's profile and the computed result. */
module Types {

  datatype Gender = Male | Female | Other

  datatype HeightUnit = Cm | Inches {
    /** The unit's tag as the profile carries it (and as the summary prints it). */
    function Tag(): string {
      match this
      case Cm => "cm"
      case Inches => "inches"
    }
  }

  datatype WeightUnit = Kg | Lbs {
    function Tag(): string {
      match this
      case Kg => "kg"
      case Lbs => "lbs"
    }
  }

  datatype ActivityLevel = Sedentary | LightlyActive | ModeratelyActive | VeryActive | ExtraActive {
    /** The level's key, the string the activity table is searched by. */
    function Key(): string {
      match this
      case Sedentary => "sedentary"
      case LightlyActive => "lightly_active"
      case ModeratelyActive => "moderately_active"
      case VeryActive => "very_active"
      case ExtraActive => "extra_active"
    }

    /** Position of the level from the least to the most active. */
    function Ordinal(): nat {
      match this
      case Sedentary => 0
      case LightlyActive => 1
      case ModeratelyActive => 2
      case VeryActive => 3
      case ExtraActive => 4
    }
  }

  datatype Goal = LoseWeight | MaintainWeight | GainWeight

  /** A profile as entered by the user, in the units the user chose. */
  datatype UserData = UserData(
    name: string,
    age: int,
    gender: Gender,
    height: real,
    weight: real,
    heightUnit: HeightUnit,
    weightUnit: WeightUnit,
    activityLevel: ActivityLevel,
    goal: Goal)

  /** Daily calorie targets, one per goal intensity. */
  datatype Recommendations = Recommendations(
    maintain: int,
    mildLoss: int,
    moderateLoss: int,
    aggressiveLoss: int,
    mildGain: int,
    moderateGain: int,
    aggressiveGain: int)

  datatype CalculationResult = CalculationResult(
    bmr: int,
    tdee: int,
    recommendations: Recommendations,
    summary: string)

  /** Distinct levels have distinct keys, so a lookup by key identifies one level. */
  lemma KeyInjective(a: ActivityLevel, b: ActivityLevel)
    requires a.Key() == b.Key()
    ensures a == b
  {
    assert |a.Key()| == |b.Key()|;
  }
}
