/** The activity table and the TDEE scaler. */
module Activity {
  import opened Wrappers
  import opened Types
  import opened Rounding

  /** One row of the activity table: the level, its display label and its TDEE multiplier. */
  datatype ActivityLevelOption = ActivityLevelOption(level: ActivityLevel, labelText: string, multiplier: real)

  /** The closed five-row table, from the least to the most active level. */
  const ActivityLevels: seq<ActivityLevelOption> := [
    ActivityLevelOption(Sedentary, "Sedentary", 1.2),
    ActivityLevelOption(LightlyActive, "Lightly Active", 1.375),
    ActivityLevelOption(ModeratelyActive, "Moderately Active", 1.55),
    ActivityLevelOption(VeryActive, "Very Active", 1.725),
    ActivityLevelOption(ExtraActive, "Extra Active", 1.9)
  ]

  const InvalidActivityLevel := "Invalid activity level"

  /** Each level's multiplier, stated level by level. */
  function Multiplier(l: ActivityLevel): real {
    match l
    case Sedentary => 1.2
    case LightlyActive => 1.375
    case ModeratelyActive => 1.55
    case VeryActive => 1.725
    case ExtraActive => 1.9
  }

  /** The index of the first row whose key is `key`, or None when no row has it. */
  function FindLevel(table: seq<ActivityLevelOption>, key: string): (r: Option<nat>)
    ensures r.Some? ==> r.value < |table| && table[r.value].level.Key() == key
    ensures r.Some? ==> forall j | 0 <= j < r.value :: table[j].level.Key() != key
    ensures r.None? <==> forall j | 0 <= j < |table| :: table[j].level.Key() != key
  {
    if table == [] then None
    else if table[0].level.Key() == key then Some(0)
    else match FindLevel(table[1..], key)
      case None => None
      case Some(i) => Some(i + 1)
  }

  /** Row i of the table holds the level of ordinal i, with that level's multiplier. */
  lemma TableIsComplete()
    ensures |ActivityLevels| == 5
    ensures forall i | 0 <= i < |ActivityLevels| :: ActivityLevels[i].level.Ordinal() == i
    ensures forall i | 0 <= i < |ActivityLevels| :: ActivityLevels[i].multiplier == Multiplier(ActivityLevels[i].level)
  {
  }

  /** Searching the table by a level's key finds that level's row; any other key finds nothing. */
  lemma FindsExactlyTheLevels(key: string)
    ensures forall l: ActivityLevel | l.Key() == key :: FindLevel(ActivityLevels, key) == Some(l.Ordinal())
    ensures (forall l: ActivityLevel :: l.Key() != key) ==> FindLevel(ActivityLevels, key) == None
  {
    TableIsComplete();
    forall l: ActivityLevel | l.Key() == key
      ensures FindLevel(ActivityLevels, key) == Some(l.Ordinal())
    {
      var o := l.Ordinal();
      assert ActivityLevels[o].level == l by {
        match l
        case Sedentary =>
        case LightlyActive =>
        case ModeratelyActive =>
        case VeryActive =>
        case ExtraActive =>
      }
      var r := FindLevel(ActivityLevels, key);
      assert r.Some?;
      KeyInjective(ActivityLevels[r.value].level, l);
    }
  }

  /** TDEE: the BMR scaled by the multiplier of the level whose key is given, rounded. An unknown key
      is an error, never a default. */
  function CalculateTDEE(bmr: int, activityLevel: string): (r: Result<int, string>)
    ensures forall l: ActivityLevel | l.Key() == activityLevel ::
      r == Success(Round(bmr as real * Multiplier(l)))
    ensures (forall l: ActivityLevel :: l.Key() != activityLevel) ==> r == Failure(InvalidActivityLevel)
  {
    FindsExactlyTheLevels(activityLevel);
    TableIsComplete();
    match FindLevel(ActivityLevels, activityLevel)
    case None => Failure(InvalidActivityLevel)
    case Some(i) => Success(Round(bmr as real * ActivityLevels[i].multiplier))
  }

  /** The TDEE of a level in the table always succeeds. */
  lemma TdeeOfLevel(bmr: int, l: ActivityLevel)
    ensures CalculateTDEE(bmr, l.Key()) == Success(Round(bmr as real * Multiplier(l)))
  {
  }

  /** For a non-negative BMR, a more active level never gives a lower TDEE. */
  lemma TdeeMonotoneInLevel(bmr: int, a: ActivityLevel, b: ActivityLevel)
    requires bmr >= 0 && a.Ordinal() <= b.Ordinal()
    ensures CalculateTDEE(bmr, a.Key()).Success? && CalculateTDEE(bmr, b.Key()).Success?
    ensures CalculateTDEE(bmr, a.Key()).value <= CalculateTDEE(bmr, b.Key()).value
  {
    TdeeOfLevel(bmr, a);
    TdeeOfLevel(bmr, b);
    assert Multiplier(a) <= Multiplier(b);
    RoundMonotone(bmr as real * Multiplier(a), bmr as real * Multiplier(b));
  }

  /** A higher BMR never gives a lower TDEE at the same level. */
  lemma TdeeMonotoneInBmr(x: int, y: int, l: ActivityLevel)
    requires x <= y
    ensures CalculateTDEE(x, l.Key()).Success? && CalculateTDEE(y, l.Key()).Success?
    ensures CalculateTDEE(x, l.Key()).value <= CalculateTDEE(y, l.Key()).value
  {
    TdeeOfLevel(x, l);
    TdeeOfLevel(y, l);
    RoundMonotone(x as real * Multiplier(l), y as real * Multiplier(l));
  }

  /** A BMR of 1500 at each level: 1800, 2063, 2325, 2588 and 2850. */
  lemma TdeeExamples(l: ActivityLevel)
    ensures CalculateTDEE(1500, l.Key()) == Success(
      match l
      case Sedentary => 1800
      case LightlyActive => 2063
      case ModeratelyActive => 2325
      case VeryActive => 2588
      case ExtraActive => 2850)
  {
    TdeeOfLevel(1500, l);
    match l
    case Sedentary => RoundUnique(1800.0, 1800);
    case LightlyActive => RoundUnique(2062.5, 2063);
    case ModeratelyActive => RoundUnique(2325.0, 2325);
    case VeryActive => RoundUnique(2587.5, 2588);
    case ExtraActive => RoundUnique(2850.0, 2850);
  }

  /** A key outside the table fails with the invalid-level error, whatever the BMR. */
  lemma TdeeRejectsUnknownKey(bmr: int)
    ensures CalculateTDEE(bmr, "invalid") == Failure(InvalidActivityLevel)
  {
    assert forall l: ActivityLevel :: |l.Key()| != |"invalid"|;
  }
}
