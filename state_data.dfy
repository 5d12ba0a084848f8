/** The per-state reference table and the affordability impact of a domestic
    price increase (src/data/stateData.ts). */
module StateData {
  import opened JsMath

  datatype StateRecord = StateRecord(
    name: string,
    code: string,
    perCapitaIncome: real,     // INR per month
    palmOilConsumption: real,  // kg per capita per year
    population: real)          // millions

  /** `indianStates`: the fifteen rows, in table order. */
  const IndianStates: seq<StateRecord> := [
    StateRecord("Maharashtra", "MH", 18500.0, 12.5, 124.0),
    StateRecord("Uttar Pradesh", "UP", 9800.0, 10.2, 231.0),
    StateRecord("Tamil Nadu", "TN", 16200.0, 14.8, 77.0),
    StateRecord("Karnataka", "KA", 15800.0, 13.2, 68.0),
    StateRecord("West Bengal", "WB", 11500.0, 15.6, 100.0),
    StateRecord("Gujarat", "GJ", 17200.0, 11.8, 70.0),
    StateRecord("Rajasthan", "RJ", 10500.0, 9.5, 81.0),
    StateRecord("Andhra Pradesh", "AP", 13800.0, 13.9, 54.0),
    StateRecord("Telangana", "TG", 16500.0, 12.8, 39.0),
    StateRecord("Kerala", "KL", 15900.0, 16.2, 35.0),
    StateRecord("Bihar", "BR", 7200.0, 8.5, 128.0),
    StateRecord("Madhya Pradesh", "MP", 10200.0, 9.8, 85.0),
    StateRecord("Punjab", "PB", 14800.0, 11.5, 30.0),
    StateRecord("Haryana", "HR", 19200.0, 10.8, 29.0),
    StateRecord("Odisha", "OR", 9500.0, 10.5, 47.0)
  ]

  /** The divisions of the impact formula are defined for a row. */
  predicate WellFormed(s: StateRecord)
  {
    s.perCapitaIncome > 0.0 && s.palmOilConsumption > 0.0
  }

  /** The table has fifteen well-formed rows with pairwise-distinct codes. */
  lemma TableShape()
    ensures |IndianStates| == 15
    ensures forall i :: 0 <= i < |IndianStates| ==> WellFormed(IndianStates[i])
    ensures forall i, j :: 0 <= i < j < |IndianStates| ==> IndianStates[i].code != IndianStates[j].code
  {
  }

  /** Base expenditure share times the price factor, minus the base share,
      over the base share: the shares cancel and only the price increase is
      left. */
  lemma ShareCancels(consumption: real, income: real, priceIncrease: real)
    requires consumption > 0.0 && income > 0.0
    ensures var base := consumption * 120.0 / (income * 12.0) * 100.0;
            var now := consumption * 120.0 * (1.0 + priceIncrease / 100.0) / (income * 12.0) * 100.0;
            base > 0.0 && (now - base) / base * 100.0 == priceIncrease
  {
    var k := consumption * 120.0 / (income * 12.0) * 100.0;
    assert k > 0.0;
    var now := consumption * 120.0 * (1.0 + priceIncrease / 100.0) / (income * 12.0) * 100.0;
    assert now == k * (1.0 + priceIncrease / 100.0);
    assert now - k == k * (priceIncrease / 100.0);
  }

  /** `calculateAffordabilityImpact`: the percentage rise in the share of
      income spent on edible oil, capped at 100 and not floored. Because the
      base share cancels, it is `min(100, priceIncrease)` for every state. */
  function AffordabilityImpact(s: StateRecord, priceIncrease: real): (impact: real)
    requires WellFormed(s)
    ensures impact <= 100.0
    ensures impact == Min(100.0, priceIncrease)
  {
    var annualOilExpenditure := s.palmOilConsumption * 120.0;
    var annualIncome := s.perCapitaIncome * 12.0;
    ShareCancels(s.palmOilConsumption, s.perCapitaIncome, priceIncrease);
    var basePercentage := annualOilExpenditure / annualIncome * 100.0;
    var newExpenditure := s.palmOilConsumption * 120.0 * (1.0 + priceIncrease / 100.0);
    var newPercentage := newExpenditure / annualIncome * 100.0;
    Min(100.0, (newPercentage - basePercentage) / basePercentage * 100.0)
  }

  /** The impact does not depend on the state at all. */
  lemma ImpactIsStateIndependent(s1: StateRecord, s2: StateRecord, priceIncrease: real)
    requires WellFormed(s1) && WellFormed(s2)
    ensures AffordabilityImpact(s1, priceIncrease) == AffordabilityImpact(s2, priceIncrease)
  {
  }

  /** No price change means no impact; a price fall gives a negative impact,
      since there is no lower clamp. */
  lemma ImpactSign(s: StateRecord, priceIncrease: real)
    requires WellFormed(s)
    ensures priceIncrease == 0.0 ==> AffordabilityImpact(s, priceIncrease) == 0.0
    ensures priceIncrease < 0.0 ==> AffordabilityImpact(s, priceIncrease) < 0.0
  {
  }
}
