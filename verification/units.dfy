/** The four unit converters: exact multiplications and divisions by fixed constants. */
module Units {

  const CmPerInch: real := 2.54
  const KgPerLb: real := 0.453592
  const LbsPerKg: real := 2.20462

  function InchesToCm(inches: real): (cm: real)
    ensures (cm > 0.0) == (inches > 0.0)
  {
    inches * CmPerInch
  }

  function CmToInches(cm: real): (inches: real)
    ensures (inches > 0.0) == (cm > 0.0)
  {
    cm / CmPerInch
  }

  function LbsToKg(lbs: real): (kg: real)
    ensures (kg > 0.0) == (lbs > 0.0)
  {
    lbs * KgPerLb
  }

  function KgToLbs(kg: real): (lbs: real)
    ensures (lbs > 0.0) == (kg > 0.0)
  {
    kg * LbsPerKg
  }

  /** The length converters are exact inverses of each other, in both directions. */
  lemma LengthRoundTrip(x: real)
    ensures CmToInches(InchesToCm(x)) == x
    ensures InchesToCm(CmToInches(x)) == x
  {
  }

  /** The weight constants are not reciprocal: a pounds round trip scales by 0.99999799504, so it is
      the identity only at zero, and it loses less than three millionths of the value. */
  lemma WeightRoundTripIsApproximate(x: real)
    ensures KgToLbs(LbsToKg(x)) == x * 0.99999799504
    ensures LbsToKg(KgToLbs(x)) == x * 0.99999799504
    ensures KgToLbs(LbsToKg(x)) == x <==> x == 0.0
    ensures x >= 0.0 ==> x - x * 0.000003 <= KgToLbs(LbsToKg(x)) <= x
  {
  }

  /** Every converter is strictly increasing. */
  lemma ConvertersMonotone(x: real, y: real)
    requires x < y
    ensures InchesToCm(x) < InchesToCm(y) && CmToInches(x) < CmToInches(y)
    ensures LbsToKg(x) < LbsToKg(y) && KgToLbs(x) < KgToLbs(y)
  {
  }

  /** The converters' reference values, each within 0.05 of the expected figure. */
  lemma ConverterExamples()
    ensures -0.05 < InchesToCm(70.0) - 177.8 < 0.05 && -0.05 < InchesToCm(60.0) - 152.4 < 0.05
    ensures -0.05 < CmToInches(170.0) - 66.9 < 0.05 && -0.05 < CmToInches(180.0) - 70.9 < 0.05
    ensures -0.05 < LbsToKg(150.0) - 68.0 < 0.05 && -0.05 < LbsToKg(200.0) - 90.7 < 0.05
    ensures -0.05 < KgToLbs(70.0) - 154.3 < 0.05 && -0.05 < KgToLbs(80.0) - 176.4 < 0.05
  {
  }
}
