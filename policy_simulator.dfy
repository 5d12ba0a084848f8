/** The parameter-entry controller (src/components/PolicySimulator.tsx):
    the four policy parameters with their text-field mirrors, the scores and
    agents recomputed from them, and the busy-flagged memo generation. */
module PolicySimulator {
  import opened JsMath
  import opened AgentModels
  import opened MemoGenerator
  import ScenarioManager

  // ---------------------------------------------------------------- score formulas

  /** The projected domestic price increase, in percent: never negative for
      a duty at or above the $1000/t reference price, and 0.8 points per
      tariff point at that price. */
  function DomesticPriceIncrease(tariff: real, globalPrice: real): (d: real)
    ensures tariff >= 0.0 && globalPrice >= 1000.0 ==> d >= 0.0
    ensures globalPrice == 1000.0 ==> d == 0.8 * tariff
    ensures globalPrice < 1000.0 - 16.0 * tariff ==> d < 0.0
  {
    tariff * 0.8 + (globalPrice - 1000.0) / 20.0
  }

  /** The projected farmer income increase, in percent: it has the sign of
      the tariff, and it lifts the farmer score to its cap of 100 only from a
      tariff of 33 1/3 percent, above the slider's 30. */
  function FarmerIncomeIncrease(tariff: real): (r: real)
    ensures r >= 0.0 <==> tariff >= 0.0
    ensures 50.0 + r >= 100.0 <==> tariff >= 100.0 / 3.0
  {
    tariff * 1.5
  }

  function ImportReduction(tariff: real, yieldGap: real): (r: real)
    ensures r <= 15.0
    ensures tariff >= 0.0 && yieldGap <= 100.0 ==> r >= 0.0
  {
    Min(15.0, tariff / 2.0 + (100.0 - yieldGap) / 10.0)
  }

  datatype ScoreTriple = ScoreTriple(consumer: int, farmer: int, fiscal: int)

  /** The scoring effect: three rounded scores. The farmer and fiscal scores
      are capped at 100 and the consumer score floored at 0; the consumer
      score has no upper cap. */
  function Scores(tariff: real, globalPrice: real, yieldGap: real): (s: ScoreTriple)
    ensures s.consumer >= 0 && s.farmer <= 100 && s.fiscal <= 100
  {
    var consumerScore := Max(0.0, 100.0 - DomesticPriceIncrease(tariff, globalPrice) * 2.0);
    var farmerScore := Min(100.0, 50.0 + FarmerIncomeIncrease(tariff));
    var fiscalScore := Min(100.0, 40.0 + ImportReduction(tariff, yieldGap) * 3.0);
    RoundMonotone(0.0, consumerScore);
    RoundMonotone(farmerScore, 100.0);
    RoundMonotone(fiscalScore, 100.0);
    RoundOfInt(0);
    RoundOfInt(100);
    ScoreTriple(Round(consumerScore), Round(farmerScore), Round(fiscalScore))
  }

  /** Within the slider ranges the farmer score lies in [50, 100] and the
      fiscal score in [40, 100]. */
  lemma ScoresOnSliderRange(tariff: real, globalPrice: real, yieldGap: real)
    requires 0.0 <= tariff <= 30.0 && 800.0 <= globalPrice <= 1500.0 && 30.0 <= yieldGap <= 70.0
    ensures 50 <= Scores(tariff, globalPrice, yieldGap).farmer <= 100
    ensures 40 <= Scores(tariff, globalPrice, yieldGap).fiscal <= 100
  {
    RoundBounds(Min(100.0, 50.0 + FarmerIncomeIncrease(tariff)), 50, 100);
    RoundBounds(Min(100.0, 40.0 + ImportReduction(tariff, yieldGap) * 3.0), 40, 100);
  }

  /** The consumer score is not capped at 100: tariff 0 and price 800 give a
      price change of -10 and a consumer score of 120. */
  lemma ConsumerScoreCanExceed100(yieldGap: real)
    ensures DomesticPriceIncrease(0.0, 800.0) == -10.0
    ensures Scores(0.0, 800.0, yieldGap).consumer == 120
  {
    RoundOfInt(120);
  }

  /** The default scenario: tariff 12, price 1180, yield gap 58. */
  lemma DefaultScenario()
    ensures DomesticPriceIncrease(12.0, 1180.0) == 18.6
    ensures FarmerIncomeIncrease(12.0) == 18.0
    ensures ImportReduction(12.0, 58.0) == 10.2
    ensures Scores(12.0, 1180.0, 58.0) == ScoreTriple(63, 68, 71)
  {
    assert Round(62.8) == 63;
    assert Round(70.6) == 71;
    RoundOfInt(68);
  }

  /** The consumer agent's price impact is the simulator's domestic price
      increase. */
  lemma AgentPriceImpactMatches(tariff: real, globalPrice: real)
    ensures PriceImpact(tariff, globalPrice) == DomesticPriceIncrease(tariff, globalPrice)
  {
  }

  /** The memo uses coefficient 1 on the tariff where the dashboard uses 0.8:
      the two figures differ by a fifth of the tariff and agree only at
      tariff 0. */
  lemma MemoPriceCoefficientDiffers(tariff: real, globalPrice: real)
    ensures MemoPriceIncrease(tariff, globalPrice) - DomesticPriceIncrease(tariff, globalPrice) == 0.2 * tariff
    ensures MemoPriceIncrease(tariff, globalPrice) == DomesticPriceIncrease(tariff, globalPrice) <==> tariff == 0.0
  {
  }

  /** The text under the volatility slider. */
  datatype VolatilityText = LowInstability | ModerateFluctuations | HighUncertainty

  function VolatilityLabel(volatilityIndex: real): (t: VolatilityText)
    ensures t == LowInstability <==> volatilityIndex < 30.0
    ensures t == HighUncertainty <==> volatilityIndex >= 60.0
  {
    if volatilityIndex < 30.0 then LowInstability
    else if volatilityIndex < 60.0 then ModerateFluctuations
    else HighUncertainty
  }

  // ---------------------------------------------------------------- text fields

  /** The contents of a parameter's text field: either the rendering of a
      number (`x.toString()`) or text the user typed, which carries what
      `parseFloat` and `parseInt` make of it (None for NaN). */
  datatype Text =
    | Rendered(value: real)
    | Typed(chars: string, asFloat: Option<real>, asInt: Option<int>)

  /** `parseInt` on a rendered number keeps its integer part. */
  function Trunc(x: real): int
  {
    if x >= 0.0 then x.Floor else -((-x).Floor)
  }

  function ParseFloat(t: Text): Option<real>
  {
    match t
    case Rendered(v) => Some(v)
    case Typed(_, f, _) => f
  }

  function ParseInt(t: Text): Option<int>
  {
    match t
    case Rendered(v) => Some(Trunc(v))
    case Typed(_, _, n) => n
  }

  predicate IsIntegral(x: real) { x == x.Floor as real }

  /** The blur rule for a parsed value: a number is clamped to [lo, hi] and
      committed to both the parameter and its text; NaN leaves the parameter
      as it was and restores its text. */
  function Commit(current: real, parsed: Option<real>, lo: real, hi: real): (r: (real, Text))
    requires lo <= hi
    ensures r.1 == Rendered(r.0)
    ensures parsed.None? ==> r.0 == current
    ensures parsed.Some? ==> lo <= r.0 <= hi
    ensures parsed.Some? && lo <= parsed.value <= hi ==> r.0 == parsed.value
  {
    match parsed
    case Some(v) => var c := Clamp(v, lo, hi); (c, Rendered(c))
    case None => (current, Rendered(current))
  }

  /** `parseFloat` blur (the tariff field). */
  function BlurFloat(current: real, input: Text, lo: real, hi: real): (real, Text)
    requires lo <= hi
  {
    Commit(current, ParseFloat(input), lo, hi)
  }

  /** `parseInt` blur (price, yield gap and volatility fields). */
  function BlurInt(current: real, input: Text, lo: int, hi: int): (real, Text)
    requires lo <= hi
  {
    Commit(current, match ParseInt(input) case Some(n) => Some(n as real) case None => None, lo as real, hi as real)
  }

  /** Blurring the tariff field twice is blurring it once, when the value
      kept on a parse failure is itself in range. */
  lemma BlurFloatIdempotent(current: real, input: Text, lo: real, hi: real)
    requires lo <= hi
    requires ParseFloat(input).None? ==> lo <= current <= hi
    ensures var r := BlurFloat(current, input, lo, hi);
            BlurFloat(r.0, r.1, lo, hi) == r
  {
  }

  /** The same for the integer fields: a committed value is an integer in
      range, and `parseInt` of its rendering gives it back. */
  lemma BlurIntIdempotent(current: real, input: Text, lo: int, hi: int)
    requires lo <= hi
    requires ParseInt(input).None? ==> lo as real <= current <= hi as real && IsIntegral(current)
    ensures var r := BlurInt(current, input, lo, hi);
            BlurInt(r.0, r.1, lo, hi) == r
  {
    match ParseInt(input)
    case Some(n) =>
      var c := Clamp(n as real, lo as real, hi as real);
      var k := if c == n as real then n else if c == lo as real then lo else hi;
      assert c == k as real;
      TruncOfInt(k);
    case None =>
      TruncOfInt(current.Floor);
  }

  lemma TruncOfInt(n: int)
    ensures Trunc(n as real) == n
  {
    if n < 0 {
      assert -(n as real) == (-n) as real;
    }
  }

  /** The parameter bundle a preset or a saved scenario loads. */
  datatype Preset = Preset(tariff: real, globalPrice: real, yieldGap: real, volatilityIndex: real)

  // ---------------------------------------------------------------- the controller

  class Simulator {
    var tariff: real
    var globalPrice: real
    var yieldGap: real
    var volatilityIndex: real
    var tariffInput: Text
    var priceInput: Text
    var gapInput: Text
    var volatilityInput: Text
    var memo: Option<Memo>
    var isGenerating: bool
    /** The parameters a pending generation closed over when it started. */
    var pending: Option<MemoParameters>
    var agents: seq<AgentBehavior>
    var scores: ScoreTriple

    /** The scoring effect has run for the current parameters, and a
        generation is pending exactly while the busy flag is set. */
    ghost predicate Valid()
      reads this
    {
      && agents == CalculateAgentBehavior(tariff, globalPrice, yieldGap)
      && scores == Scores(tariff, globalPrice, yieldGap)
      && (isGenerating <==> pending.Some?)
    }

    /** Every parameter lies in its slider range. */
    ghost predicate InRange()
      reads this
    {
      && 0.0 <= tariff <= 30.0
      && 800.0 <= globalPrice <= 1500.0
      && 30.0 <= yieldGap <= 70.0
      && 0.0 <= volatilityIndex <= 100.0
    }

    /** The initial state (12, 1180, 58, 50), after the mount-time effect. */
    constructor ()
      ensures Valid() && InRange()
      ensures tariff == 12.0 && globalPrice == 1180.0 && yieldGap == 58.0 && volatilityIndex == 50.0
      ensures tariffInput == Rendered(12.0) && priceInput == Rendered(1180.0)
      ensures gapInput == Rendered(58.0) && volatilityInput == Rendered(50.0)
      ensures memo == None && !isGenerating
    {
      tariff, globalPrice, yieldGap, volatilityIndex := 12.0, 1180.0, 58.0, 50.0;
      tariffInput, priceInput := Rendered(12.0), Rendered(1180.0);
      gapInput, volatilityInput := Rendered(58.0), Rendered(50.0);
      memo, isGenerating, pending := None, false, None;
      agents := CalculateAgentBehavior(12.0, 1180.0, 58.0);
      scores := Scores(12.0, 1180.0, 58.0);
    }

    /** The scoring effect, run whenever tariff, price or gap change. */
    method Recompute()
      modifies this`agents, this`scores
      ensures agents == CalculateAgentBehavior(tariff, globalPrice, yieldGap)
      ensures scores == Scores(tariff, globalPrice, yieldGap)
    {
      agents := CalculateAgentBehavior(tariff, globalPrice, yieldGap);
      scores := Scores(tariff, globalPrice, yieldGap);
    }

    // -------- typing (handle*InputChange): only the text changes

    method EditTariffText(t: Text)
      modifies this`tariffInput
      ensures tariffInput == t
    {
      tariffInput := t;
    }

    method EditPriceText(t: Text)
      modifies this`priceInput
      ensures priceInput == t
    {
      priceInput := t;
    }

    method EditGapText(t: Text)
      modifies this`gapInput
      ensures gapInput == t
    {
      gapInput := t;
    }

    method EditVolatilityText(t: Text)
      modifies this`volatilityInput
      ensures volatilityInput == t
    {
      volatilityInput := t;
    }

    // -------- blur handlers: clamp or revert

    /** `handleTariffInputBlur`: clamp to [0, 30] or revert. */
    method BlurTariff()
      requires Valid()
      modifies this
      ensures Valid()
      ensures (tariff, tariffInput) == BlurFloat(old(tariff), old(tariffInput), 0.0, 30.0)
      ensures ParseFloat(old(tariffInput)).Some? ==> 0.0 <= tariff <= 30.0
      ensures ParseFloat(old(tariffInput)).None? ==> tariff == old(tariff) && tariffInput == Rendered(tariff)
      ensures globalPrice == old(globalPrice) && yieldGap == old(yieldGap) && volatilityIndex == old(volatilityIndex)
      ensures priceInput == old(priceInput) && gapInput == old(gapInput) && volatilityInput == old(volatilityInput)
      ensures memo == old(memo) && isGenerating == old(isGenerating) && pending == old(pending)
      ensures old(InRange()) ==> InRange()
    {
      var r := BlurFloat(tariff, tariffInput, 0.0, 30.0);
      tariff, tariffInput := r.0, r.1;
      Recompute();
    }

    /** `handlePriceInputBlur`: `parseInt`, clamp to [800, 1500] or revert. */
    method BlurPrice()
      requires Valid()
      modifies this
      ensures Valid()
      ensures (globalPrice, priceInput) == BlurInt(old(globalPrice), old(priceInput), 800, 1500)
      ensures ParseInt(old(priceInput)).Some? ==> 800.0 <= globalPrice <= 1500.0 && IsIntegral(globalPrice)
      ensures ParseInt(old(priceInput)).None? ==> globalPrice == old(globalPrice) && priceInput == Rendered(globalPrice)
      ensures tariff == old(tariff) && yieldGap == old(yieldGap) && volatilityIndex == old(volatilityIndex)
      ensures tariffInput == old(tariffInput) && gapInput == old(gapInput) && volatilityInput == old(volatilityInput)
      ensures memo == old(memo) && isGenerating == old(isGenerating) && pending == old(pending)
      ensures old(InRange()) ==> InRange()
    {
      var r := BlurInt(globalPrice, priceInput, 800, 1500);
      globalPrice, priceInput := r.0, r.1;
      Recompute();
      ClampedIntIsIntegral(ParseInt(old(priceInput)), 800, 1500);
    }

    /** `handleGapInputBlur`: `parseInt`, clamp to [30, 70] or revert. */
    method BlurGap()
      requires Valid()
      modifies this
      ensures Valid()
      ensures (yieldGap, gapInput) == BlurInt(old(yieldGap), old(gapInput), 30, 70)
      ensures ParseInt(old(gapInput)).Some? ==> 30.0 <= yieldGap <= 70.0 && IsIntegral(yieldGap)
      ensures ParseInt(old(gapInput)).None? ==> yieldGap == old(yieldGap) && gapInput == Rendered(yieldGap)
      ensures tariff == old(tariff) && globalPrice == old(globalPrice) && volatilityIndex == old(volatilityIndex)
      ensures tariffInput == old(tariffInput) && priceInput == old(priceInput) && volatilityInput == old(volatilityInput)
      ensures memo == old(memo) && isGenerating == old(isGenerating) && pending == old(pending)
      ensures old(InRange()) ==> InRange()
    {
      var r := BlurInt(yieldGap, gapInput, 30, 70);
      yieldGap, gapInput := r.0, r.1;
      Recompute();
      ClampedIntIsIntegral(ParseInt(old(gapInput)), 30, 70);
    }

    /** `handleVolatilityInputBlur`: `parseInt`, clamp to [0, 100] or revert.
        Volatility feeds no formula, so scores and agents stay as they were. */
    method BlurVolatility()
      requires Valid()
      modifies this`volatilityIndex, this`volatilityInput
      ensures Valid()
      ensures (volatilityIndex, volatilityInput) == BlurInt(old(volatilityIndex), old(volatilityInput), 0, 100)
      ensures ParseInt(old(volatilityInput)).Some? ==> 0.0 <= volatilityIndex <= 100.0 && IsIntegral(volatilityIndex)
      ensures ParseInt(old(volatilityInput)).None? ==> volatilityIndex == old(volatilityIndex) && volatilityInput == Rendered(volatilityIndex)
      ensures scores == old(scores) && agents == old(agents)
      ensures old(InRange()) ==> InRange()
    {
      var r := BlurInt(volatilityIndex, volatilityInput, 0, 100);
      volatilityIndex, volatilityInput := r.0, r.1;
      ClampedIntIsIntegral(ParseInt(old(volatilityInput)), 0, 100);
    }

    // -------- loading a preset or a saved scenario

    /** Shared body of `handleLoadScenario` and `handleLoadPreset`. */
    method SetParameters(t: real, p: real, g: real, v: real)
      requires Valid()
      modifies this
      ensures Valid()
      ensures tariff == t && globalPrice == p && yieldGap == g && volatilityIndex == v
      ensures tariffInput == Rendered(t) && priceInput == Rendered(p)
      ensures gapInput == Rendered(g) && volatilityInput == Rendered(v)
      ensures memo == old(memo) && isGenerating == old(isGenerating) && pending == old(pending)
    {
      tariff := t;
      globalPrice := p;
      yieldGap := g;
      volatilityIndex := v;
      tariffInput := Rendered(t);
      priceInput := Rendered(p);
      gapInput := Rendered(g);
      volatilityInput := Rendered(v);
      Recompute();
    }

    /** `handleLoadScenario`: the four parameters and their texts take the
        scenario's values; nothing else changes. */
    method LoadScenario(s: ScenarioManager.Scenario)
      requires Valid()
      modifies this
      ensures Valid()
      ensures tariff == s.tariff && globalPrice == s.globalPrice && yieldGap == s.yieldGap && volatilityIndex == s.volatilityIndex
      ensures tariffInput == Rendered(s.tariff) && priceInput == Rendered(s.globalPrice)
      ensures gapInput == Rendered(s.yieldGap) && volatilityInput == Rendered(s.volatilityIndex)
      ensures memo == old(memo) && isGenerating == old(isGenerating) && pending == old(pending)
    {
      SetParameters(s.tariff, s.globalPrice, s.yieldGap, s.volatilityIndex);
    }

    /** `handleLoadPreset`: the same for a preset. */
    method LoadPreset(p: Preset)
      requires Valid()
      modifies this
      ensures Valid()
      ensures tariff == p.tariff && globalPrice == p.globalPrice && yieldGap == p.yieldGap && volatilityIndex == p.volatilityIndex
      ensures tariffInput == Rendered(p.tariff) && priceInput == Rendered(p.globalPrice)
      ensures gapInput == Rendered(p.yieldGap) && volatilityInput == Rendered(p.volatilityIndex)
      ensures memo == old(memo) && isGenerating == old(isGenerating) && pending == old(pending)
    {
      SetParameters(p.tariff, p.globalPrice, p.yieldGap, p.volatilityIndex);
    }

    // -------- memo generation

    /** Pressing the generate button: disabled while busy; otherwise the busy
        flag is set and the handler closes over the current parameters. */
    method PressGenerate()
      requires Valid()
      modifies this`isGenerating, this`pending
      ensures Valid()
      ensures old(isGenerating) ==> isGenerating && pending == old(pending)
      ensures !old(isGenerating) ==> isGenerating && pending == Some(MemoParameters(tariff, globalPrice, yieldGap))
    {
      if isGenerating {
        return;
      }
      isGenerating := true;
      pending := Some(MemoParameters(tariff, globalPrice, yieldGap));
    }

    /** The delay elapses: the memo for the parameters captured at the press
        is stored and the busy flag is cleared. */
    method CompleteGenerate()
      requires Valid() && isGenerating
      modifies this`memo, this`isGenerating, this`pending
      ensures Valid()
      ensures memo == Some(MemoOf(old(pending).value.tariff, old(pending).value.globalPrice, old(pending).value.yieldGap))
      ensures memo.value.parameters == old(pending).value
      ensures !isGenerating
    {
      var p := pending.value;
      var m := GenerateMemo(p.tariff, p.globalPrice, p.yieldGap);
      memo := Some(m);
      isGenerating := false;
      pending := None;
    }
  }

  /** A clamped `parseInt` result is an integer. */
  lemma ClampedIntIsIntegral(parsed: Option<int>, lo: int, hi: int)
    requires lo <= hi
    ensures parsed.Some? ==> IsIntegral(Clamp(parsed.value as real, lo as real, hi as real))
  {
    if parsed.Some? {
      var c := Clamp(parsed.value as real, lo as real, hi as real);
      assert c == parsed.value as real || c == lo as real || c == hi as real;
    }
  }

  /** The scores and agents are functions of tariff, price and gap alone: two
      controllers that differ only in volatility show the same ones. */
  lemma ScoresIgnoreVolatility(a: Simulator, b: Simulator)
    requires a.Valid() && b.Valid()
    requires a.tariff == b.tariff && a.globalPrice == b.globalPrice && a.yieldGap == b.yieldGap
    ensures a.scores == b.scores && a.agents == b.agents
  {
  }
}
