/** The input validator: seven independent range checks on the raw, user-entered profile. */
module Validation {
  import opened Types

  datatype Field = AgeField | HeightField | WeightField

  const TooHigh := " seems too high. Please check your input."

  /** The seven checks. Each one that fails contributes its message. */
  datatype Check =
    | AgeOutOfRange
    | HeightNotPositive
    | WeightNotPositive
    | HeightTooHighInches
    | HeightTooHighCm
    | WeightTooHighLbs
    | WeightTooHighKg
  {
    /** The check's condition on the raw profile, in the profile's own units. */
    predicate Fails(u: UserData) {
      match this
      case AgeOutOfRange => u.age < 13 || u.age > 120
      case HeightNotPositive => u.height <= 0.0
      case WeightNotPositive => u.weight <= 0.0
      case HeightTooHighInches => u.heightUnit == Inches && u.height > 120.0
      case HeightTooHighCm => u.heightUnit == Cm && u.height > 300.0
      case WeightTooHighLbs => u.weightUnit == Lbs && u.weight > 1000.0
      case WeightTooHighKg => u.weightUnit == Kg && u.weight > 450.0
    }

    function Message(): string {
      match this
      case AgeOutOfRange => "Age must be between 13 and 120 years"
      case HeightNotPositive => "Height must be greater than 0"
      case WeightNotPositive => "Weight must be greater than 0"
      case HeightTooHighInches => "Height in inches" + TooHigh
      case HeightTooHighCm => "Height in cm" + TooHigh
      case WeightTooHighLbs => "Weight in lbs" + TooHigh
      case WeightTooHighKg => "Weight in kg" + TooHigh
    }

    /** The profile field the check is about. */
    function Field(): Field {
      match this
      case AgeOutOfRange => AgeField
      case HeightNotPositive | HeightTooHighInches | HeightTooHighCm => HeightField
      case WeightNotPositive | WeightTooHighLbs | WeightTooHighKg => WeightField
    }

    /** Position of the check in the order the checks run. */
    function Rank(): nat {
      match this
      case AgeOutOfRange => 0
      case HeightNotPositive => 1
      case WeightNotPositive => 2
      case HeightTooHighInches => 3
      case HeightTooHighCm => 4
      case WeightTooHighLbs => 5
      case WeightTooHighKg => 6
    }
  }

  /** The checks in the order they run. */
  const CheckOrder: seq<Check> := [AgeOutOfRange, HeightNotPositive, WeightNotPositive,
                                   HeightTooHighInches, HeightTooHighCm, WeightTooHighLbs, WeightTooHighKg]

  /** What one check adds to the report: itself if it fails, nothing otherwise. */
  function Contribution(c: Check, u: UserData): seq<Check> {
    if c.Fails(u) then [c] else []
  }

  /** Runs every check of `checks` in turn, keeping those that fail; no check stops the others. */
  function Failed(checks: seq<Check>, u: UserData): (failed: seq<Check>)
    ensures |failed| <= |checks|
  {
    if checks == [] then []
    else Contribution(checks[0], u) + Failed(checks[1..], u)
  }

  /** The checks the profile fails, in the order the checks run. */
  function FailedChecks(u: UserData): seq<Check> {
    Failed(CheckOrder, u)
  }

  function Messages(checks: seq<Check>): (ms: seq<string>)
    ensures |ms| == |checks|
    ensures forall k | 0 <= k < |checks| :: ms[k] == checks[k].Message()
  {
    if checks == [] then [] else [checks[0].Message()] + Messages(checks[1..])
  }

  /** The error messages of the failed checks, in check order; empty when the profile passes. */
  function ValidateUserData(u: UserData): (errors: seq<string>)
    ensures forall c: Check :: c.Message() in errors <==> c.Fails(u)
  {
    var errors := Messages(FailedChecks(u));
    forall c: Check
      ensures c.Message() in errors <==> c.Fails(u)
    {
      ReportsEveryFailedCheck(u, c);
    }
    errors
  }

  lemma FailedCons(c: Check, rest: seq<Check>, u: UserData)
    ensures Failed([c] + rest, u) == Contribution(c, u) + Failed(rest, u)
  {
    assert ([c] + rest)[1..] == rest;
  }

  /** The report is the seven checks' contributions, one after the other. */
  lemma FailedChecksUnrolled(u: UserData)
    ensures FailedChecks(u) == Contribution(AgeOutOfRange, u) + (Contribution(HeightNotPositive, u)
      + (Contribution(WeightNotPositive, u) + (Contribution(HeightTooHighInches, u) + (Contribution(HeightTooHighCm, u)
      + (Contribution(WeightTooHighLbs, u) + Contribution(WeightTooHighKg, u))))))
  {
    var t6 := [WeightTooHighKg];
    FailedCons(WeightTooHighKg, [], u);
    var t5 := [WeightTooHighLbs] + t6;
    FailedCons(WeightTooHighLbs, t6, u);
    var t4 := [HeightTooHighCm] + t5;
    FailedCons(HeightTooHighCm, t5, u);
    var t3 := [HeightTooHighInches] + t4;
    FailedCons(HeightTooHighInches, t4, u);
    var t2 := [WeightNotPositive] + t3;
    FailedCons(WeightNotPositive, t3, u);
    var t1 := [HeightNotPositive] + t2;
    FailedCons(HeightNotPositive, t2, u);
    var t0 := [AgeOutOfRange] + t1;
    FailedCons(AgeOutOfRange, t1, u);
    assert t6 + [] == t6;
    assert CheckOrder == t0;
  }

  /** A check is reported exactly when it is among the checks run and it fails. */
  lemma {:induction false} FailedMembers(checks: seq<Check>, u: UserData, c: Check)
    ensures c in Failed(checks, u) <==> c in checks && c.Fails(u)
  {
    if checks != [] {
      FailedMembers(checks[1..], u, c);
      assert checks == [checks[0]] + checks[1..];
    }
  }

  predicate InCheckOrder(checks: seq<Check>) {
    forall i, j | 0 <= i < j < |checks| :: checks[i].Rank() < checks[j].Rank()
  }

  /** Keeping the failed checks keeps their relative order. */
  lemma {:induction false} FailedKeepsOrder(checks: seq<Check>, u: UserData)
    requires InCheckOrder(checks)
    ensures InCheckOrder(Failed(checks, u))
    ensures forall k | 0 <= k < |Failed(checks, u)| :: Failed(checks, u)[k] in checks
  {
    if checks != [] {
      var rest := Failed(checks[1..], u);
      FailedKeepsOrder(checks[1..], u);
      assert forall k | 0 <= k < |rest| :: checks[0].Rank() < rest[k].Rank() by {
        forall k | 0 <= k < |rest|
          ensures checks[0].Rank() < rest[k].Rank()
        {
          var m :| 0 < m < |checks| && checks[m] == rest[k];
        }
      }
    }
  }

  /** Distinct checks have distinct messages. */
  lemma MessageInjective(a: Check, b: Check)
    requires a.Message() == b.Message()
    ensures a == b
  {
    assert a.Message()[0] == b.Message()[0];
  }

  /** Each message appears exactly when its check fails: validation never stops at the first
      failure. */
  lemma ReportsEveryFailedCheck(u: UserData, c: Check)
    ensures c.Message() in Messages(FailedChecks(u)) <==> c.Fails(u)
  {
    var failed := FailedChecks(u);
    var errors := Messages(failed);
    FailedMembers(CheckOrder, u, c);
    if c.Message() in errors {
      var k :| 0 <= k < |errors| && errors[k] == c.Message();
      MessageInjective(failed[k], c);
    }
    if c in failed {
      var k :| 0 <= k < |failed| && failed[k] == c;
      assert errors[k] == c.Message();
    }
  }

  /** The messages come out in the order the checks run, each at most once. */
  lemma ReportsInCheckOrder(u: UserData)
    ensures InCheckOrder(FailedChecks(u))
    ensures |ValidateUserData(u)| == |FailedChecks(u)|
    ensures forall k | 0 <= k < |FailedChecks(u)| :: ValidateUserData(u)[k] == FailedChecks(u)[k].Message()
  {
    FailedKeepsOrder(CheckOrder, u);
  }

  /** The profile is plausible: age in [13, 120], and height and weight positive and under the
      ceiling of their own unit. */
  predicate Plausible(u: UserData) {
    && 13 <= u.age <= 120
    && 0.0 < u.height <= (if u.heightUnit == Inches then 120.0 else 300.0)
    && 0.0 < u.weight <= (if u.weightUnit == Lbs then 1000.0 else 450.0)
  }

  /** Validation accepts exactly the plausible profiles. */
  lemma ValidIffPlausible(u: UserData)
    ensures ValidateUserData(u) == [] <==> Plausible(u)
  {
    var failed := FailedChecks(u);
    forall c: Check
      ensures c in failed <==> c.Fails(u)
    {
      FailedMembers(CheckOrder, u, c);
    }
    if failed != [] {
      assert failed[0] in failed;
    } else {
      assert !AgeOutOfRange.Fails(u) && !HeightNotPositive.Fails(u) && !WeightNotPositive.Fails(u);
      assert !HeightTooHighInches.Fails(u) && !HeightTooHighCm.Fails(u);
      assert !WeightTooHighLbs.Fails(u) && !WeightTooHighKg.Fails(u);
    }
  }

  /** Two different checks on one field never fail together: "not positive" excludes "too high",
      and only the profile's own unit has a ceiling. */
  lemma OneFailurePerField(u: UserData, a: Check, b: Check)
    requires a != b && a.Field() == b.Field()
    ensures !(a.Fails(u) && b.Fails(u))
  {
  }

  /** Every reported check failed. */
  lemma {:induction false} FailedOnlyFailing(checks: seq<Check>, u: UserData)
    ensures forall k | 0 <= k < |Failed(checks, u)| :: Failed(checks, u)[k].Fails(u)
  {
    if checks != [] {
      FailedOnlyFailing(checks[1..], u);
    }
  }

  /** Hence the reported checks concern pairwise different fields. */
  lemma AtMostOnePerField(u: UserData)
    ensures forall i, j | 0 <= i < j < |FailedChecks(u)| :: FailedChecks(u)[i].Field() != FailedChecks(u)[j].Field()
  {
    var failed := FailedChecks(u);
    FailedKeepsOrder(CheckOrder, u);
    FailedOnlyFailing(CheckOrder, u);
    forall i, j | 0 <= i < j < |failed|
      ensures failed[i].Field() != failed[j].Field()
    {
      var a, b := failed[i], failed[j];
      assert a.Rank() < b.Rank();
      if a.Field() == b.Field() {
        OneFailurePerField(u, a, b);
      }
    }
  }

  /** There are only three fields: among any four, two coincide. */
  lemma FourFieldsRepeat(a: Field, b: Field, c: Field, d: Field)
    ensures a == b || a == c || a == d || b == c || b == d || c == d
  {
  }

  /** With three fields, at most three messages are ever reported. */
  lemma AtMostThreeMessages(u: UserData)
    ensures |ValidateUserData(u)| <= 3
  {
    var failed := FailedChecks(u);
    AtMostOnePerField(u);
    if |failed| > 3 {
      FourFieldsRepeat(failed[0].Field(), failed[1].Field(), failed[2].Field(), failed[3].Field());
    }
  }

  /** The reference profile (25 years, 170 cm, 70 kg) passes, and each variation fails its own
      check only. */
  lemma ValidationExamples(u: UserData)
    requires u.age == 25 && u.height == 170.0 && u.weight == 70.0 && u.heightUnit == Cm && u.weightUnit == Kg
    ensures FailedChecks(u) == []
    ensures FailedChecks(u.(age := 10)) == [AgeOutOfRange]
    ensures FailedChecks(u.(age := 150)) == [AgeOutOfRange]
    ensures FailedChecks(u.(height := -10.0)) == [HeightNotPositive]
    ensures FailedChecks(u.(weight := -10.0)) == [WeightNotPositive]
    ensures FailedChecks(u.(height := 150.0, heightUnit := Inches)) == [HeightTooHighInches]
    ensures FailedChecks(u.(height := 400.0)) == [HeightTooHighCm]
    ensures FailedChecks(u.(weight := 1500.0, weightUnit := Lbs)) == [WeightTooHighLbs]
    ensures FailedChecks(u.(weight := 500.0)) == [WeightTooHighKg]
  {
    assert FailedChecks(u) == [] by {
      FailedChecksUnrolled(u);
    }
    assert FailedChecks(u.(age := 10)) == [AgeOutOfRange] by {
      FailedChecksUnrolled(u.(age := 10));
    }
    assert FailedChecks(u.(age := 150)) == [AgeOutOfRange] by {
      FailedChecksUnrolled(u.(age := 150));
    }
    assert FailedChecks(u.(height := -10.0)) == [HeightNotPositive] by {
      FailedChecksUnrolled(u.(height := -10.0));
    }
    assert FailedChecks(u.(weight := -10.0)) == [WeightNotPositive] by {
      FailedChecksUnrolled(u.(weight := -10.0));
    }
    assert FailedChecks(u.(height := 150.0, heightUnit := Inches)) == [HeightTooHighInches] by {
      FailedChecksUnrolled(u.(height := 150.0, heightUnit := Inches));
    }
    assert FailedChecks(u.(height := 400.0)) == [HeightTooHighCm] by {
      FailedChecksUnrolled(u.(height := 400.0));
    }
    assert FailedChecks(u.(weight := 1500.0, weightUnit := Lbs)) == [WeightTooHighLbs] by {
      FailedChecksUnrolled(u.(weight := 1500.0, weightUnit := Lbs));
    }
    assert FailedChecks(u.(weight := 500.0)) == [WeightTooHighKg] by {
      FailedChecksUnrolled(u.(weight := 500.0));
    }
  }

  /** A profile failing three checks reports all three, in check order. */
  lemma ValidationReportsAll(u: UserData)
    requires u.age == 150 && u.height == -1.0 && u.weight == 2000.0 && u.heightUnit == Inches && u.weightUnit == Kg
    ensures FailedChecks(u) == [AgeOutOfRange, HeightNotPositive, WeightTooHighKg]
  {
    FailedChecksUnrolled(u);
  }
}
