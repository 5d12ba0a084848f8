/** The self-reliance target calculator
    (src/components/NMEOPTargetAnalysis.tsx): from a target year, a target
    self-reliance percentage and the current yield gap, back-solve the
    annual yield improvement, tariff, subsidy and investment. */
module NmeoTargetAnalysis {
  import opened JsMath

  datatype BackSolve = BackSolve(
    requiredTariff: real,
    requiredSubsidy: real,
    annualYieldImprovement: real,
    investmentNeeded: real)

  /** The base year of the calculation. */
  const BaseYear: int := 2025

  /** The unrounded back-solve. The source divides by `targetYear - 2025`
      without a guard, so the base year itself is excluded. The tariff always
      lies in [8, 20], the subsidy is 250 per point of annual improvement and,
      because the years cancel, the investment is 180 per point of total gap
      reduction. */
  function Solve(targetYear: int, targetSelfReliance: int, currentYieldGap: real): (r: BackSolve)
    requires targetYear != BaseYear
    ensures 8.0 <= r.requiredTariff <= 20.0
    ensures r.requiredSubsidy == 250.0 * r.annualYieldImprovement
    ensures r.investmentNeeded == 180.0 * (currentYieldGap - (100 - targetSelfReliance) as real)
    ensures r.annualYieldImprovement * (targetYear - BaseYear) as real == currentYieldGap - (100 - targetSelfReliance) as real
  {
    var yearsToTarget := (targetYear - BaseYear) as real;
    var targetGap := (100 - targetSelfReliance) as real;
    var gapReduction := currentYieldGap - targetGap;
    var annualYieldImprovement := gapReduction / yearsToTarget;
    var requiredTariff := Max(8.0, Min(20.0, 10.0 + annualYieldImprovement * 0.5));
    var requiredSubsidy := annualYieldImprovement * 250.0;
    var investmentNeeded := yearsToTarget * annualYieldImprovement * 180.0;
    BackSolve(requiredTariff, requiredSubsidy, annualYieldImprovement, investmentNeeded)
  }

  /** The results as stored: tariff and improvement to one decimal place,
      subsidy and investment to whole millions. */
  datatype Results = Results(
    requiredTariff: real,
    requiredSubsidy: int,
    annualYieldImprovement: real,
    investmentNeeded: int)

  function Rounded(b: BackSolve): (r: Results)
    requires 8.0 <= b.requiredTariff <= 20.0
    ensures 8.0 <= r.requiredTariff <= 20.0
  {
    Round1Monotone(8.0, b.requiredTariff);
    Round1Monotone(b.requiredTariff, 20.0);
    assert Round(80.0) == 80 && Round(200.0) == 200;
    Results(Round1(b.requiredTariff), Round(b.requiredSubsidy),
            Round1(b.annualYieldImprovement), Round(b.investmentNeeded))
  }

  /** Target year 2030, 70% self-reliance and a current gap of 58: an
      improvement of 5.6 points a year, tariff 12.8, subsidy 1400 and
      investment 5040. */
  lemma WorkedExample()
    ensures Solve(2030, 70, 58.0) == BackSolve(12.8, 1400.0, 5.6, 5040.0)
    ensures Rounded(Solve(2030, 70, 58.0)) == Results(12.8, 1400, 5.6, 5040)
  {
    assert Round(128.0) == 128 && Round(56.0) == 56;
    assert Round(1400.0) == 1400 && Round(5040.0) == 5040;
  }

  /** A target gap above the current gap (with the target year ahead) gives a
      negative improvement and a negative subsidy, and a tariff below 10 that
      reaches the floor of 8 once the improvement is -4 or less. */
  lemma OvershootTarget(targetYear: int, targetSelfReliance: int, currentYieldGap: real)
    requires targetYear > BaseYear
    requires (100 - targetSelfReliance) as real > currentYieldGap
    ensures var r := Solve(targetYear, targetSelfReliance, currentYieldGap);
            r.annualYieldImprovement < 0.0 && r.requiredSubsidy < 0.0 && r.requiredTariff < 10.0 &&
            (r.annualYieldImprovement <= -4.0 ==> r.requiredTariff == 8.0)
  {
    var years := (targetYear - BaseYear) as real;
    var reduction := currentYieldGap - (100 - targetSelfReliance) as real;
    var r := Solve(targetYear, targetSelfReliance, currentYieldGap);
    assert r.annualYieldImprovement == reduction / years;
    DivNegative(reduction, years);
  }

  lemma DivNegative(a: real, b: real)
    requires a < 0.0 && b > 0.0
    ensures a / b < 0.0
  {
    var q := a / b;
    assert q * b == a;
  }

  /** The calculator's state: the two input texts, the `calculated` flag and
      the last results. */
  class Calculator {
    var targetYear: string
    var targetSelfReliance: string
    var calculated: bool
    var results: Results

    constructor ()
      ensures targetYear == "2030" && targetSelfReliance == "70"
      ensures !calculated && results == Results(0.0, 0, 0.0, 0)
    {
      targetYear, targetSelfReliance := "2030", "70";
      calculated := false;
      results := Results(0.0, 0, 0.0, 0);
    }

    method EditTargetYear(text: string)
      modifies this`targetYear
      ensures targetYear == text
    {
      targetYear := text;
    }

    method EditTargetSelfReliance(text: string)
      modifies this`targetSelfReliance
      ensures targetSelfReliance == text
    {
      targetSelfReliance := text;
    }

    /** `handleCalculate`, given what `parseInt` makes of the two texts:
        stores the rounded back-solve and marks the panel calculated. */
    method Calculate(parsedYear: int, parsedSelfReliance: int, currentYieldGap: real)
      requires parsedYear != BaseYear
      modifies this`calculated, this`results
      ensures calculated
      ensures results == Rounded(Solve(parsedYear, parsedSelfReliance, currentYieldGap))
      ensures 8.0 <= results.requiredTariff <= 20.0
    {
      var solved := Solve(parsedYear, parsedSelfReliance, currentYieldGap);
      results := Rounded(solved);
      calculated := true;
    }
  }
}
