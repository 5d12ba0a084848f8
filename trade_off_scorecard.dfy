/** The trade-off scorecard (src/components/TradeOffScorecard.tsx): the
    overall score as the rounded mean of the three dimension scores, the
    colour band of a score and the sentence under each dimension. */
module TradeOffScorecard {
  import opened JsMath

  function Least(a: int, b: int, c: int): int
  {
    if a <= b && a <= c then a else if b <= c then b else c
  }

  function Greatest(a: int, b: int, c: int): int
  {
    if a >= b && a >= c then a else if b >= c then b else c
  }

  /** `Math.round((consumerWelfare + farmerUpliftment + fiscalStability) / 3)`:
      never below the least of the three scores nor above the greatest. */
  function OverallScore(consumerWelfare: int, farmerUpliftment: int, fiscalStability: int): (r: int)
    ensures Least(consumerWelfare, farmerUpliftment, fiscalStability) <= r
    ensures r <= Greatest(consumerWelfare, farmerUpliftment, fiscalStability)
  {
    var mean := (consumerWelfare + farmerUpliftment + fiscalStability) as real / 3.0;
    RoundBounds(mean, Least(consumerWelfare, farmerUpliftment, fiscalStability),
                Greatest(consumerWelfare, farmerUpliftment, fiscalStability));
    Round(mean)
  }

  /** Three scores on the 0-100 scale give an overall score on that scale. */
  lemma OverallScoreInRange(consumerWelfare: int, farmerUpliftment: int, fiscalStability: int)
    requires 0 <= consumerWelfare <= 100 && 0 <= farmerUpliftment <= 100 && 0 <= fiscalStability <= 100
    ensures 0 <= OverallScore(consumerWelfare, farmerUpliftment, fiscalStability) <= 100
  {
  }

  /** Equal scores give that score back. */
  lemma OverallOfEqualScores(score: int)
    ensures OverallScore(score, score, score) == score
  {
  }

  /** The default scenario's scores 63, 68 and 71 give an overall 67. */
  lemma DefaultOverall()
    ensures OverallScore(63, 68, 71) == 67
  {
    assert Round(202.0 / 3.0) == 67;
  }

  datatype ScoreColours = ScoreColours(bg: string, text: string, border: string)

  /** `getScoreColor`: green from 70, yellow from 50, red below. */
  function GetScoreColor(score: int): (c: ScoreColours)
    ensures c.bg == "bg-green-500" <==> score >= 70
    ensures c.bg == "bg-yellow-500" <==> 50 <= score < 70
    ensures c.bg == "bg-red-500" <==> score < 50
  {
    DistinctNames();
    if score >= 70 then ScoreColours("bg-green-500", "text-green-700", "border-green-200")
    else if score >= 50 then ScoreColours("bg-yellow-500", "text-yellow-700", "border-yellow-200")
    else ScoreColours("bg-red-500", "text-red-700", "border-red-200")
  }

  lemma DistinctNames()
    ensures "bg-green-500"[3] == 'g' && "bg-yellow-500"[3] == 'y' && "bg-red-500"[3] == 'r'
  {
  }

  function ConsumerDescription(consumerWelfare: int): string
  {
    if consumerWelfare >= 70 then "Minimal price impact on consumers"
    else if consumerWelfare >= 50 then "Moderate affordability concerns"
    else "Significant consumer price burden"
  }

  function FarmerDescription(farmerUpliftment: int): string
  {
    if farmerUpliftment >= 70 then "Strong incentive for domestic production"
    else if farmerUpliftment >= 50 then "Moderate farmer support"
    else "Insufficient farmer income protection"
  }

  function FiscalDescription(fiscalStability: int): string
  {
    if fiscalStability >= 70 then "Reduced import bill and forex outflow"
    else if fiscalStability >= 50 then "Moderate impact on trade balance"
    else "High import dependency persists"
  }

  /** Each dimension's sentence uses the colour thresholds: two scores get
      the same sentence exactly when they get the same colours. */
  lemma DescriptionsFollowColours(a: int, b: int)
    ensures ConsumerDescription(a) == ConsumerDescription(b) <==> GetScoreColor(a) == GetScoreColor(b)
    ensures FarmerDescription(a) == FarmerDescription(b) <==> GetScoreColor(a) == GetScoreColor(b)
    ensures FiscalDescription(a) == FiscalDescription(b) <==> GetScoreColor(a) == GetScoreColor(b)
  {
    DistinctSentences();
  }

  lemma DistinctSentences()
    ensures "Minimal price impact on consumers"[1] == 'i' && "Moderate affordability concerns"[1] == 'o'
    ensures "Significant consumer price burden"[0] == 'S' && "Moderate affordability concerns"[0] == 'M'
    ensures "Strong incentive for domestic production"[0] == 'S' && "Moderate farmer support"[0] == 'M'
    ensures "Insufficient farmer income protection"[0] == 'I'
    ensures "Reduced import bill and forex outflow"[0] == 'R' && "Moderate impact on trade balance"[0] == 'M'
    ensures "High import dependency persists"[0] == 'H'
  {
  }
}
