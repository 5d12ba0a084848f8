/** The headline cards (src/components/DashboardOverview.tsx): the simulator's
    three formulas rounded to one decimal place, the import bill in billions
    to two places, two scores computed from the rounded figures (and shown
    rounded to whole numbers) and an overall risk band from the volatility
    index. */
module DashboardOverview {
  import opened JsMath
  import PolicySimulator

  datatype Risk = Low | Moderate | High

  datatype Metrics = Metrics(
    domesticPriceIncrease: real,
    farmerIncomeIncrease: real,
    importReduction: real,
    importBill: real,
    consumerScore: real,
    farmerScore: real,
    shownConsumerScore: int,
    shownFarmerScore: int,
    overallRisk: Risk)

  /** The risk band: above 60 high, above 30 moderate, otherwise low. */
  function OverallRisk(volatilityIndex: real): (r: Risk)
    ensures r == High <==> volatilityIndex > 60.0
    ensures r == Low <==> volatilityIndex <= 30.0
  {
    if volatilityIndex > 60.0 then High
    else if volatilityIndex > 30.0 then Moderate
    else Low
  }

  /** The card figures. The import reduction never shows more than 15, the
      consumer score never less than 0 and the farmer score never more than
      100, both before and after the quick-stats row rounds them to whole
      numbers, and the risk follows the volatility bands. */
  function Dashboard(tariff: real, globalPrice: real, yieldGap: real, volatilityIndex: real): (m: Metrics)
    ensures m.importReduction <= 15.0
    ensures m.consumerScore >= 0.0 && m.farmerScore <= 100.0
    ensures m.shownConsumerScore >= 0 && m.shownFarmerScore <= 100
    ensures m.shownConsumerScore == Round(m.consumerScore) && m.shownFarmerScore == Round(m.farmerScore)
    ensures m.overallRisk == OverallRisk(volatilityIndex)
  {
    var domesticPriceIncrease := Fixed1(tariff * 0.8 + (globalPrice - 1000.0) / 20.0);
    var farmerIncomeIncrease := Fixed1(tariff * 1.5);
    var rawReduction := Min(15.0, tariff / 2.0 + (100.0 - yieldGap) / 10.0);
    var importReduction := Fixed1(rawReduction);
    var importBill := Fixed2(globalPrice * 13.0 * (yieldGap / 100.0) / 1000.0);
    Fixed1Monotone(rawReduction, 15.0);
    assert Fixed1(15.0) == 15.0 by { RoundOfInt(150); }
    var consumerScore := Max(0.0, 100.0 - domesticPriceIncrease * 2.0);
    var farmerScore := Min(100.0, 50.0 + farmerIncomeIncrease);
    RoundMonotone(0.0, consumerScore);
    RoundMonotone(farmerScore, 100.0);
    RoundOfInt(0);
    RoundOfInt(100);
    Metrics(domesticPriceIncrease, farmerIncomeIncrease, importReduction, importBill,
            consumerScore, farmerScore, Round(consumerScore), Round(farmerScore),
            OverallRisk(volatilityIndex))
  }

  /** Each figure is the simulator's formula to within half a unit of its
      last shown decimal, and the two scores are computed from the figures
      as shown, not from the exact values. */
  lemma FiguresFollowSimulator(tariff: real, globalPrice: real, yieldGap: real, volatilityIndex: real)
    ensures var m := Dashboard(tariff, globalPrice, yieldGap, volatilityIndex);
      && -0.05 <= m.domesticPriceIncrease - PolicySimulator.DomesticPriceIncrease(tariff, globalPrice) <= 0.05
      && -0.05 <= m.farmerIncomeIncrease - PolicySimulator.FarmerIncomeIncrease(tariff) <= 0.05
      && -0.05 <= m.importReduction - PolicySimulator.ImportReduction(tariff, yieldGap) <= 0.05
      && -0.005 <= m.importBill - globalPrice * 13.0 * yieldGap / 100000.0 <= 0.005
      && m.consumerScore == Max(0.0, 100.0 - 2.0 * m.domesticPriceIncrease)
      && m.farmerScore == Min(100.0, 50.0 + m.farmerIncomeIncrease)
  {
  }

  /** The volatility index moves the risk band and nothing else. */
  lemma VolatilityOnlyMovesRisk(tariff: real, globalPrice: real, yieldGap: real, v1: real, v2: real)
    ensures Dashboard(tariff, globalPrice, yieldGap, v1).(overallRisk := OverallRisk(v2))
         == Dashboard(tariff, globalPrice, yieldGap, v2)
  {
  }

  /** The dashboard's bands are open on the left (`> 30`, `> 60`) while the
      slider label's are closed (`< 30`, `>= 60`): the two disagree about
      the low or the high band exactly at volatility 30 and 60. */
  lemma RiskDisagreesWithSliderLabel(volatilityIndex: real)
    ensures var risk := OverallRisk(volatilityIndex);
            var shown := PolicySimulator.VolatilityLabel(volatilityIndex);
      ((risk == Low) != (shown == PolicySimulator.LowInstability) ||
       (risk == High) != (shown == PolicySimulator.HighUncertainty))
      <==> volatilityIndex == 30.0 || volatilityIndex == 60.0
  {
  }

  /** The shown scores are computed from the one-decimal figures, so they
      stay within one point of the simulator's scores. */
  lemma ShownScoresNearSimulator(tariff: real, globalPrice: real, yieldGap: real, volatilityIndex: real)
    ensures var m := Dashboard(tariff, globalPrice, yieldGap, volatilityIndex);
            var s := PolicySimulator.Scores(tariff, globalPrice, yieldGap);
      -1 <= m.shownConsumerScore - s.consumer <= 1 && -1 <= m.shownFarmerScore - s.farmer <= 1
  {
    var m := Dashboard(tariff, globalPrice, yieldGap, volatilityIndex);
    var exactConsumer := Max(0.0, 100.0 - PolicySimulator.DomesticPriceIncrease(tariff, globalPrice) * 2.0);
    var exactFarmer := Min(100.0, 50.0 + PolicySimulator.FarmerIncomeIncrease(tariff));
    FiguresFollowSimulator(tariff, globalPrice, yieldGap, volatilityIndex);
    assert -0.1 <= m.consumerScore - exactConsumer <= 0.1;
    assert -0.05 <= m.farmerScore - exactFarmer <= 0.05;
    RoundWithinTenth(m.farmerScore, exactFarmer);
    RoundWithinTenth(m.consumerScore, exactConsumer);
  }

  /** Values at most 0.1 apart round at most one apart. */
  lemma RoundWithinTenth(x: real, y: real)
    requires -0.1 <= x - y <= 0.1
    ensures -1 <= Round(x) - Round(y) <= 1
  {
  }

  /** The default scenario (tariff 12, price 1180, gap 58, volatility 50):
      +18.6%, +18.0%, 10.2% less imports, a bill of 8.90 billion, consumer
      score 62.8 shown as 63, farmer score 68 and moderate risk. */
  lemma DefaultCards()
    ensures Dashboard(12.0, 1180.0, 58.0, 50.0) == Metrics(18.6, 18.0, 10.2, 8.9, 62.8, 68.0, 63, 68, Moderate)
  {
    assert Round(186.0) == 186 && Round(180.0) == 180 && Round(102.0) == 102;
    assert Round(889.72) == 890;
    assert Round(62.8) == 63;
    RoundOfInt(68);
  }

  /** The shown scores can still differ from the simulator's by one point,
      because the figures are rounded before the scores are formed: tariff
      12.3 shows a farmer score of 69 where the simulator scores 68, and
      tariff 0 at price 1365 shows a consumer score of 63 where the simulator
      scores 64. */
  lemma ShownScoresCanDifferFromSimulator(yieldGap: real, volatilityIndex: real)
    ensures Dashboard(12.3, 1180.0, yieldGap, volatilityIndex).shownFarmerScore == 69
    ensures PolicySimulator.Scores(12.3, 1180.0, yieldGap).farmer == 68
    ensures Dashboard(0.0, 1365.0, yieldGap, volatilityIndex).shownConsumerScore == 63
    ensures PolicySimulator.Scores(0.0, 1365.0, yieldGap).consumer == 64
  {
    assert Round(184.5) == 185;
    assert Round(68.5) == 69;
    assert Round(68.45) == 68;
    assert Round(182.5) == 183;
    assert Round(63.4) == 63;
    assert Round(63.5) == 64;
  }
}
