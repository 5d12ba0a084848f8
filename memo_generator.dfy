/** The executive memo generator (src/utils/memoGenerator.ts): influence
    weights, a risk level, the impact figures the paragraphs quote, and a
    rule-ordered list of recommendations. The paragraph and summary texts are
    fixed templates over these figures and are not modelled. */
module MemoGenerator {
  import opened JsMath

  datatype RiskLevel = Low | Moderate | High

  /** The five recommendation texts, in the order their rules are tried. */
  datatype Recommendation =
    | ConsumerSubsidies    // global price above 1200
    | MonitorPds           // tariff above 10
    | AccelerateNmeo       // yield gap above 50
    | IncreaseRnd          // yield gap above 50
    | TariffInsufficient   // tariff below 8 and yield gap above 55

  const RuleOrder: seq<Recommendation> :=
    [ConsumerSubsidies, MonitorPds, AccelerateNmeo, IncreaseRnd, TariffInsufficient]

  datatype MemoParameters = MemoParameters(tariff: real, globalPrice: real, yieldGap: real)

  /** The figures the three paragraphs substitute into their templates. */
  datatype ImpactFigures = ImpactFigures(
    domesticPriceIncrease: real,
    farmerRevenueIncrease: real,
    importReduction: real,
    importBillMillions: real)

  /** The rounded influence weights of `xaiRationale`. */
  datatype XaiRationale = XaiRationale(tariffInfluence: int, priceInfluence: int, gapInfluence: int)

  datatype Memo = Memo(
    parameters: MemoParameters,
    figures: ImpactFigures,
    xaiRationale: XaiRationale,
    recommendations: seq<Recommendation>,
    riskLevel: RiskLevel)

  // ---------------------------------------------------------------- influences

  function TariffInfluence(tariff: real): (w: real)
    ensures w <= 40.0
    ensures tariff <= 20.0 ==> w == 20.0 + tariff
  {
    Min(40.0, 20.0 + (tariff / 20.0) * 20.0)
  }

  function PriceInfluence(globalPrice: real): (w: real)
    ensures w <= 45.0
    ensures globalPrice <= 1500.0 ==> w == 25.0 + (globalPrice - 1000.0) / 25.0
  {
    Min(45.0, 25.0 + ((globalPrice - 1000.0) / 500.0) * 20.0)
  }

  /** The remainder of 100 after the two capped influences: never below 15,
      so never negative. */
  function GapInfluence(tariff: real, globalPrice: real): (w: real)
    ensures w >= 15.0
  {
    100.0 - TariffInfluence(tariff) - PriceInfluence(globalPrice)
  }

  /** The three unrounded influences always sum to exactly 100. */
  lemma InfluencesSumTo100(tariff: real, globalPrice: real)
    ensures TariffInfluence(tariff) + PriceInfluence(globalPrice) + GapInfluence(tariff, globalPrice) == 100.0
  {
  }

  /** After `Math.round` the displayed weights sum to 99, 100 or 101. */
  lemma RoundedWeightsNear100(tariff: real, globalPrice: real)
    ensures var x := Rationale(tariff, globalPrice);
            99 <= x.tariffInfluence + x.priceInfluence + x.gapInfluence <= 101
    ensures Rationale(tariff, globalPrice).gapInfluence >= 15
  {
    InfluencesSumTo100(tariff, globalPrice);
    RoundBounds(GapInfluence(tariff, globalPrice), 15, 15 + (GapInfluence(tariff, globalPrice) - 15.0).Floor + 1);
  }

  /** A tariff of 0.5 and a price of 1012.5 show weights 21, 26 and 54. */
  lemma RoundedWeightsCanSumTo101()
    ensures Rationale(0.5, 1012.5) == XaiRationale(21, 26, 54)
  {
    assert TariffInfluence(0.5) == 20.5;
    assert PriceInfluence(1012.5) == 25.5;
    assert GapInfluence(0.5, 1012.5) == 54.0;
    RoundOfInt(54);
  }

  /** The weights as `xaiRationale` reports them, each rounded with
      `Math.round`: the tariff weight at most 40, the price weight at most 45
      and the gap weight at least 15. */
  function Rationale(tariff: real, globalPrice: real): (x: XaiRationale)
    ensures x.tariffInfluence <= 40 && x.priceInfluence <= 45 && x.gapInfluence >= 15
  {
    RoundMonotone(TariffInfluence(tariff), 40.0);
    RoundMonotone(PriceInfluence(globalPrice), 45.0);
    RoundMonotone(15.0, GapInfluence(tariff, globalPrice));
    RoundOfInt(40);
    RoundOfInt(45);
    RoundOfInt(15);
    XaiRationale(Round(TariffInfluence(tariff)), Round(PriceInfluence(globalPrice)),
                 Round(GapInfluence(tariff, globalPrice)))
  }

  // ---------------------------------------------------------------- risk

  /** The risk level: high exactly when the price is above 1300 and the
      tariff above 15; low exactly when the price is below 1100 and the
      tariff below 10; moderate otherwise. */
  function RiskOf(tariff: real, globalPrice: real): (r: RiskLevel)
    ensures r == High <==> globalPrice > 1300.0 && tariff > 15.0
    ensures r == Low <==> globalPrice < 1100.0 && tariff < 10.0
  {
    if globalPrice > 1300.0 && tariff > 15.0 then High
    else if globalPrice < 1100.0 && tariff < 10.0 then Low
    else Moderate
  }

  /** The risk classification as the source computes it: a variable set to
      moderate and then overwritten by the first condition that holds. */
  method ClassifyRisk(tariff: real, globalPrice: real) returns (riskLevel: RiskLevel)
    ensures riskLevel == RiskOf(tariff, globalPrice)
  {
    riskLevel := Moderate;
    if globalPrice > 1300.0 && tariff > 15.0 {
      riskLevel := High;
    } else if globalPrice < 1100.0 && tariff < 10.0 {
      riskLevel := Low;
    }
  }

  // ---------------------------------------------------------------- impact figures

  /** The memo's domestic price increase `((t/100) + (p-1000)/2000) * 100`,
      which is `t + (p - 1000) / 20`: coefficient 1 on the tariff. */
  function MemoPriceIncrease(tariff: real, globalPrice: real): (d: real)
    ensures d == tariff + (globalPrice - 1000.0) / 20.0
  {
    ((tariff / 100.0) + (globalPrice - 1000.0) / 2000.0) * 100.0
  }

  function MemoImportReduction(tariff: real, yieldGap: real): (r: real)
    ensures r <= 15.0
    ensures yieldGap <= 100.0 && tariff >= 0.0 ==> r >= 0.0
  {
    Min(15.0, tariff / 2.0 + (100.0 - yieldGap) / 10.0)
  }

  /** The memo's figures: the price increase with coefficient 1 on the
      tariff, the farmer revenue at 1.5 per tariff point, the import
      reduction capped at 15 and the bill for 13 million tons in millions. */
  function Figures(tariff: real, globalPrice: real, yieldGap: real): (f: ImpactFigures)
    ensures f.domesticPriceIncrease == tariff + (globalPrice - 1000.0) / 20.0
    ensures f.farmerRevenueIncrease == 1.5 * tariff
    ensures f.importReduction <= 15.0
    ensures f.importBillMillions == 13.0 * globalPrice * yieldGap / 100.0
  {
    ImpactFigures(
      MemoPriceIncrease(tariff, globalPrice),
      tariff * 1.5,
      MemoImportReduction(tariff, yieldGap),
      globalPrice * 13.0 * (yieldGap / 100.0))
  }

  // ---------------------------------------------------------------- recommendations

  predicate Fires(r: Recommendation, tariff: real, globalPrice: real, yieldGap: real)
  {
    match r
    case ConsumerSubsidies => globalPrice > 1200.0
    case MonitorPds => tariff > 10.0
    case AccelerateNmeo => yieldGap > 50.0
    case IncreaseRnd => yieldGap > 50.0
    case TariffInsufficient => tariff < 8.0 && yieldGap > 55.0
  }

  /** The rules of `rules` that fire, in the order of `rules`. */
  function Select(rules: seq<Recommendation>, tariff: real, globalPrice: real, yieldGap: real): (r: seq<Recommendation>)
    ensures |r| <= |rules|
    ensures forall i :: 0 <= i < |r| ==> Fires(r[i], tariff, globalPrice, yieldGap)
  {
    if rules == [] then []
    else if Fires(rules[0], tariff, globalPrice, yieldGap) then [rules[0]] + Select(rules[1..], tariff, globalPrice, yieldGap)
    else Select(rules[1..], tariff, globalPrice, yieldGap)
  }

  /** The reference definition of the list: every rule that fires, in rule order. */
  function Recommendations(tariff: real, globalPrice: real, yieldGap: real): (r: seq<Recommendation>)
    ensures |r| <= 5
    ensures forall i :: 0 <= i < |r| ==> Fires(r[i], tariff, globalPrice, yieldGap)
  {
    Select(RuleOrder, tariff, globalPrice, yieldGap)
  }

  function RuleIndex(r: Recommendation): nat
  {
    match r
    case ConsumerSubsidies => 0
    case MonitorPds => 1
    case AccelerateNmeo => 2
    case IncreaseRnd => 3
    case TariffInsufficient => 4
  }

  function Indicator(b: bool): nat { if b then 1 else 0 }

  lemma {:induction false} SelectMembership(rules: seq<Recommendation>, r: Recommendation, tariff: real, globalPrice: real, yieldGap: real)
    ensures r in Select(rules, tariff, globalPrice, yieldGap) <==> r in rules && Fires(r, tariff, globalPrice, yieldGap)
  {
    if rules != [] {
      SelectMembership(rules[1..], r, tariff, globalPrice, yieldGap);
      assert rules == [rules[0]] + rules[1..];
    }
  }

  /** Rule indices strictly increase along the list. */
  predicate InRuleOrder(s: seq<Recommendation>)
  {
    forall i, j :: 0 <= i < j < |s| ==> RuleIndex(s[i]) < RuleIndex(s[j])
  }

  /** A list in rule order stays in rule order under Select. */
  lemma {:induction false} SelectKeepsOrder(rules: seq<Recommendation>, tariff: real, globalPrice: real, yieldGap: real)
    requires InRuleOrder(rules)
    ensures InRuleOrder(Select(rules, tariff, globalPrice, yieldGap))
  {
    if rules != [] {
      var rest := rules[1..];
      assert InRuleOrder(rest) by {
        forall i, j | 0 <= i < j < |rest| ensures RuleIndex(rest[i]) < RuleIndex(rest[j]) {
          assert rest[i] == rules[i + 1] && rest[j] == rules[j + 1];
        }
      }
      SelectKeepsOrder(rest, tariff, globalPrice, yieldGap);
      var t := Select(rest, tariff, globalPrice, yieldGap);
      forall x | x in t ensures RuleIndex(rules[0]) < RuleIndex(x) {
        SelectMembership(rest, x, tariff, globalPrice, yieldGap);
        var k :| 0 <= k < |rest| && rest[k] == x;
        assert rules[k + 1] == x;
      }
      if Fires(rules[0], tariff, globalPrice, yieldGap) {
        var s := [rules[0]] + t;
        forall i, j | 0 <= i < j < |s| ensures RuleIndex(s[i]) < RuleIndex(s[j]) {
          assert s[j] == t[j - 1];
          if i == 0 {
            assert t[j - 1] in t;
          } else {
            assert s[i] == t[i - 1];
          }
        }
      }
    }
  }

  /** A recommendation is in the list exactly when its rule fires; the list
      is in rule order with no repeats, and its length is
      [p>1200] + [t>10] + 2*[g>50] + [t<8 and g>55], at most five. */
  lemma RecommendationsCharacterised(tariff: real, globalPrice: real, yieldGap: real)
    ensures forall r :: r in Recommendations(tariff, globalPrice, yieldGap) <==> Fires(r, tariff, globalPrice, yieldGap)
    ensures InRuleOrder(Recommendations(tariff, globalPrice, yieldGap))
    ensures |Recommendations(tariff, globalPrice, yieldGap)| ==
      Indicator(globalPrice > 1200.0) + Indicator(tariff > 10.0) + 2 * Indicator(yieldGap > 50.0)
      + Indicator(tariff < 8.0 && yieldGap > 55.0)
    ensures |Recommendations(tariff, globalPrice, yieldGap)| <= 5
  {
    forall r ensures r in Recommendations(tariff, globalPrice, yieldGap) <==> Fires(r, tariff, globalPrice, yieldGap) {
      SelectMembership(RuleOrder, r, tariff, globalPrice, yieldGap);
    }
    SelectKeepsOrder(RuleOrder, tariff, globalPrice, yieldGap);
    UnfoldRecommendations(tariff, globalPrice, yieldGap);
  }

  /** Whenever the insufficiency warning is present it is the last entry, and
      the two yield-improvement notes come immediately before it. */
  lemma WarningFollowsYieldNotes(tariff: real, globalPrice: real, yieldGap: real)
    requires TariffInsufficient in Recommendations(tariff, globalPrice, yieldGap)
    ensures var s := Recommendations(tariff, globalPrice, yieldGap);
            |s| >= 3 && s[|s| - 1] == TariffInsufficient &&
            s[|s| - 2] == IncreaseRnd && s[|s| - 3] == AccelerateNmeo
  {
    SelectMembership(RuleOrder, TariffInsufficient, tariff, globalPrice, yieldGap);
    UnfoldRecommendations(tariff, globalPrice, yieldGap);
  }

  /** The list as the source builds it: start empty and push, rule by rule. */
  method BuildRecommendations(tariff: real, globalPrice: real, yieldGap: real) returns (recommendations: seq<Recommendation>)
    ensures recommendations == Recommendations(tariff, globalPrice, yieldGap)
  {
    recommendations := [];
    if globalPrice > 1200.0 {
      recommendations := recommendations + [ConsumerSubsidies];
    }
    if tariff > 10.0 {
      recommendations := recommendations + [MonitorPds];
    }
    if yieldGap > 50.0 {
      recommendations := recommendations + [AccelerateNmeo];
      recommendations := recommendations + [IncreaseRnd];
    }
    if tariff < 8.0 && yieldGap > 55.0 {
      recommendations := recommendations + [TariffInsufficient];
    }
    UnfoldRecommendations(tariff, globalPrice, yieldGap);
  }

  /** The reference list written out rule by rule. */
  lemma UnfoldRecommendations(tariff: real, globalPrice: real, yieldGap: real)
    ensures Recommendations(tariff, globalPrice, yieldGap) ==
      (if globalPrice > 1200.0 then [ConsumerSubsidies] else []) +
      (if tariff > 10.0 then [MonitorPds] else []) +
      (if yieldGap > 50.0 then [AccelerateNmeo, IncreaseRnd] else []) +
      (if tariff < 8.0 && yieldGap > 55.0 then [TariffInsufficient] else [])
  {
    var s4 := Select(RuleOrder[4..], tariff, globalPrice, yieldGap);
    assert RuleOrder[4..] == [TariffInsufficient] && RuleOrder[4..][1..] == [];
    assert Select(RuleOrder[4..][1..], tariff, globalPrice, yieldGap) == [];
    assert s4 == (if tariff < 8.0 && yieldGap > 55.0 then [TariffInsufficient] else []);
    var s3 := Select(RuleOrder[3..], tariff, globalPrice, yieldGap);
    assert RuleOrder[3..][0] == IncreaseRnd && RuleOrder[3..][1..] == RuleOrder[4..];
    assert s3 == (if yieldGap > 50.0 then [IncreaseRnd] else []) + s4;
    var s2 := Select(RuleOrder[2..], tariff, globalPrice, yieldGap);
    assert RuleOrder[2..][0] == AccelerateNmeo && RuleOrder[2..][1..] == RuleOrder[3..];
    assert s2 == (if yieldGap > 50.0 then [AccelerateNmeo] else []) + s3;
    var s1 := Select(RuleOrder[1..], tariff, globalPrice, yieldGap);
    assert RuleOrder[1..][0] == MonitorPds && RuleOrder[1..][1..] == RuleOrder[2..];
    assert s1 == (if tariff > 10.0 then [MonitorPds] else []) + s2;
    assert RuleOrder[0] == ConsumerSubsidies;
    assert Recommendations(tariff, globalPrice, yieldGap) == (if globalPrice > 1200.0 then [ConsumerSubsidies] else []) + s1;
  }

  // ---------------------------------------------------------------- the memo

  /** The memo `generateMemo` returns, as a value: the parameters echoed,
      the gap weight at least 15, at most five recommendations, each of a
      rule that fires, and a high risk exactly for a price above 1300 with a
      tariff above 15. */
  function MemoOf(tariff: real, globalPrice: real, yieldGap: real): (m: Memo)
    ensures m.parameters == MemoParameters(tariff, globalPrice, yieldGap)
    ensures m.xaiRationale.gapInfluence >= 15
    ensures |m.recommendations| <= 5
    ensures forall i :: 0 <= i < |m.recommendations| ==> Fires(m.recommendations[i], tariff, globalPrice, yieldGap)
    ensures m.riskLevel == High <==> globalPrice > 1300.0 && tariff > 15.0
  {
    Memo(MemoParameters(tariff, globalPrice, yieldGap),
         Figures(tariff, globalPrice, yieldGap),
         Rationale(tariff, globalPrice),
         Recommendations(tariff, globalPrice, yieldGap),
         RiskOf(tariff, globalPrice))
  }

  /** `generateMemo`: the parameters are echoed unchanged, each weight is the
      rounded influence, the risk level follows its two conditions and the
      recommendations are the fired rules in rule order. */
  method GenerateMemo(tariff: real, globalPrice: real, yieldGap: real) returns (memo: Memo)
    ensures memo == MemoOf(tariff, globalPrice, yieldGap)
    ensures memo.parameters == MemoParameters(tariff, globalPrice, yieldGap)
    ensures memo.xaiRationale.gapInfluence >= 15
  {
    var tariffInfluence := TariffInfluence(tariff);
    var priceInfluence := PriceInfluence(globalPrice);
    var gapInfluence := 100.0 - tariffInfluence - priceInfluence;
    var riskLevel := ClassifyRisk(tariff, globalPrice);
    var figures := Figures(tariff, globalPrice, yieldGap);
    var recommendations := BuildRecommendations(tariff, globalPrice, yieldGap);
    RoundedWeightsNear100(tariff, globalPrice);
    memo := Memo(MemoParameters(tariff, globalPrice, yieldGap),
                 figures,
                 XaiRationale(Round(tariffInfluence), Round(priceInfluence), Round(gapInfluence)),
                 recommendations,
                 riskLevel);
  }

  /** The three worked risk scenarios. */
  lemma RiskExamples()
    ensures RiskOf(18.0, 1350.0) == High
    ensures RiskOf(6.0, 1050.0) == Low
    ensures RiskOf(12.0, 1180.0) == Moderate
  {
  }
}
