# Oilseed tariff policy simulator: formula and bookkeeping engine

This project models the computational core of a browser dashboard for
simulating edible-oil import policy. The user sets four parameters:

- an import tariff (0-30 %);
- a world crude palm oil price (800-1500 $/t);
- a domestic yield gap (30-70 %);
- a volatility index (0-100).

Every figure on the dashboard is a closed-form expression of those
parameters. The model covers each of them:

- the domestic price increase, farmer income and import reduction, and the
  consumer, farmer and fiscal scores built from them;
- the five market agents' clamped responses;
- the state-wise affordability impact, its stable descending sort and its
  "critical" filter;
- the executive memo's influence weights, risk level, impact figures and
  rule-ordered recommendations;
- the self-reliance target back-solve;
- the 26-point tariff sweep of the impact graph and its current-point lookup;
- the historical series with the projected row appended;
- the colour and text bands of the scorecard, the agent map and the heatmap.

Two pieces of the dashboard keep state, and the model gives each a class:

- `PolicySimulator.Simulator` is the parameter-entry controller. Text typed
  into a field is either clamped into the field's range on blur or reverted
  to the last committed value. It also handles loading presets and saved
  scenarios, and the busy flag of memo generation.
- `ScenarioManager.Manager` is the saved-scenario list, with append-on-save
  and delete-by-id.

The impact graph's sweep is a loop in the source. Its model is a method whose
loop invariants prove it builds the reference sequence. The memo's risk
classification (a variable reassigned by an if/else chain) and its
recommendation list (successive pushes) are methods proved equal to
specification functions, and the properties are proved about those functions.

Numbers are exact reals. The JavaScript rounding functions are written out:

- `Math.round` is `JsMath.Round`, which rounds halves up.
- `toFixed` followed by `parseFloat` is `JsMath.Fixed1` / `JsMath.Fixed2`,
  which round halves away from zero.
- `Math.round(10x)/10` is `JsMath.Round1`.

One module per source file: `JsMath` (shared numeric helpers),
`AgentModels`, `StateData`, `MemoGenerator`, `ScenarioManager`,
`PolicySimulator`, `NmeoTargetAnalysis`, `StateAffordabilityHeatmap`,
`DashboardOverview`, `TradeOffScorecard`, `MarketActorMap`,
`RealTimeImpactGraph` and `HistoricalComparison`.

Behaviours of the code that the model brings out:

- The memo's gap influence is never below 15, because the other two
  influences are capped at 40 and 45 (`MemoGenerator.GapInfluence`).
- The consumer score is floored at 0 but not capped: tariff 0 at price 800
  gives 120 (`PolicySimulator.ConsumerScoreCanExceed100`).
- The affordability impact is capped at 100 but not floored, so a price fall
  gives a negative impact (`StateData.ImpactSign`).
- Loading a preset or a saved scenario sets the parameters without clamping;
  only the blur handlers clamp.
- The affordability impact is `min(100, priceIncrease)` for every state. In
  exact arithmetic the sorted heatmap is therefore the table in its own
  order, and the critical list holds all fifteen states or none.
- The dashboard's quick stats round scores computed from one-decimal
  figures, so they can differ by one point from the simulator's scores.
- The memo prices the tariff at coefficient 1 where the dashboard uses 0.8.
- The historical projection prices the world price at 0.06 per dollar where
  the rest of the dashboard uses 0.05.
- The dashboard's risk band and the slider's volatility label disagree at
  volatility 30 and 60.
- For a tariff that rounds to 26-30 the impact graph has no current point,
  so the current-scenario panel is not shown.
- The memo's three rounded weights can sum to 101.

## Model

| member | source | states |
|---|---|---|
| JsMath.Clamp | src/components/PolicySimulator.tsx:107 | the result lies in [lo, hi], is x when x is in range, lo below it and hi above it |
| JsMath.Round | src/components/PolicySimulator.tsx:62-64 | `Math.round` gives the integer n with x - 0.5 < n <= x + 0.5 |
| JsMath.Round1 | src/components/NMEOPTargetAnalysis.tsx:35-37 | `Math.round(10x)/10` lies within 0.05 of x |
| JsMath.Fixed1 | src/components/DashboardOverview.tsx:13-15 | `parseFloat(x.toFixed(1))` lies within 0.05 of x |
| JsMath.Fixed2 | src/components/DashboardOverview.tsx:16 | `parseFloat(x.toFixed(2))` lies within 0.005 of x |
| AgentModels.FarmerInvestment | src/data/agentModels.ts:18 | the farmer's new investment is at most 100 |
| AgentModels.TraderInventory | src/data/agentModels.ts:22 | the trader's new inventory is at least 20 |
| AgentModels.InvestorAllocation | src/data/agentModels.ts:26 | the investor's new allocation is at most 90 |
| AgentModels.ConsumerConsumption | src/data/agentModels.ts:30-31 | the consumer's new consumption is at least 75 |
| AgentModels.ImporterVolume | src/data/agentModels.ts:35 | the importer's new volume is at least 30 |
| AgentModels.CalculateAgentBehavior | src/data/agentModels.ts:11-84 | exactly five agents; farmer at most 100, trader at least 20, investor at most 90, consumer at least 75 (change at least -25), importer at least 30 |
| AgentModels.AgentsShape | src/data/agentModels.ts:37-83 | agents come in the order Farmer, Trader, Investor, Consumer, Importer, each with its baseline and change == newValue - baseline |
| AgentModels.BaselinesAreConstant | src/data/agentModels.ts:17-34 | the baselines are 50, 65, 40, 100, 70 whatever the inputs |
| AgentModels.TariffMonotonicity | src/data/agentModels.ts:18-35 | a higher tariff never lowers farmer or investor values and never raises trader or importer values |
| StateData.TableShape | src/data/stateData.ts:9-25 | fifteen rows, every income and consumption positive, codes pairwise distinct |
| StateData.ShareCancels | src/data/stateData.ts:32-39 | the relative change of the expenditure share equals the price increase, since the base share cancels |
| StateData.AffordabilityImpact | src/data/stateData.ts:27-42 | the impact is at most 100 and equals min(100, priceIncrease) for any row with positive income and consumption |
| StateData.ImpactIsStateIndependent | src/data/stateData.ts:32-39 | two states always get the same impact for the same price increase |
| StateData.ImpactSign | src/data/stateData.ts:37-39 | no price change gives impact 0; a price fall gives a negative impact (no lower clamp) |
| MemoGenerator.TariffInfluence | src/utils/memoGenerator.ts:3 | the tariff influence is at most 40, and 20 + tariff up to tariff 20 |
| MemoGenerator.PriceInfluence | src/utils/memoGenerator.ts:4 | the price influence is at most 45, and 25 + (p - 1000)/25 up to price 1500 |
| MemoGenerator.GapInfluence | src/utils/memoGenerator.ts:5 | the gap influence is never below 15, so never negative |
| MemoGenerator.InfluencesSumTo100 | src/utils/memoGenerator.ts:3-5 | the three unrounded influences sum to exactly 100 |
| MemoGenerator.RoundedWeightsNear100 | src/utils/memoGenerator.ts:63-67 | the rounded weights sum to 99, 100 or 101, and the gap weight is at least 15 |
| MemoGenerator.RoundedWeightsCanSumTo101 | src/utils/memoGenerator.ts:63-67 | tariff 0.5 and price 1012.5 show weights 21, 26 and 54, which sum to 101 |
| MemoGenerator.Rationale | src/utils/memoGenerator.ts:63-67 | the reported weights are the rounded influences: tariff at most 40, price at most 45, gap at least 15 |
| MemoGenerator.RiskOf | src/utils/memoGenerator.ts:8-13 | high iff price > 1300 and tariff > 15; low iff price < 1100 and tariff < 10; moderate otherwise |
| MemoGenerator.ClassifyRisk | src/utils/memoGenerator.ts:8-13 | the let-and-overwrite classification computes exactly the risk level of the two conditions |
| MemoGenerator.MemoPriceIncrease | src/utils/memoGenerator.ts:16 | the memo's price increase is tariff + (price - 1000)/20, coefficient 1 on the tariff |
| MemoGenerator.MemoImportReduction | src/utils/memoGenerator.ts:18 | the import reduction is at most 15, and non-negative for a non-negative tariff and a gap of at most 100 |
| MemoGenerator.Figures | src/utils/memoGenerator.ts:16-18 | the memo's price increase has coefficient 1 on the tariff, farmer revenue is 1.5 per tariff point, the import reduction is at most 15, and the bill is 13 x p x g / 100 million |
| MemoGenerator.Select | src/utils/memoGenerator.ts:33-49 | no more rules are selected than tried, and every selected rule fires |
| MemoGenerator.Recommendations | src/utils/memoGenerator.ts:33-49 | at most five recommendations, each of a rule whose condition holds |
| MemoGenerator.SelectMembership | src/utils/memoGenerator.ts:33-49 | a rule is selected iff it is among the rules tried and its condition holds |
| MemoGenerator.SelectKeepsOrder | src/utils/memoGenerator.ts:33-49 | selection keeps the rules in the order they are tried |
| MemoGenerator.RecommendationsCharacterised | src/utils/memoGenerator.ts:33-49 | a recommendation is present iff its rule fires; the list follows rule order without repeats; its length is [p>1200] + [t>10] + 2[g>50] + [t<8 and g>55], at most 5 |
| MemoGenerator.WarningFollowsYieldNotes | src/utils/memoGenerator.ts:43-49 | when the insufficiency warning is present it is last, and the two yield-improvement notes come right before it |
| MemoGenerator.UnfoldRecommendations | src/utils/memoGenerator.ts:33-49 | the rule-order list is the concatenation of each rule's contribution in turn |
| MemoGenerator.BuildRecommendations | src/utils/memoGenerator.ts:33-49 | the push-by-push construction yields exactly the fired rules in rule order |
| MemoGenerator.MemoOf | src/utils/memoGenerator.ts:52-71 | the memo echoes the parameters, its gap weight is at least 15, it has at most five recommendations, each of a firing rule, and its risk is high iff price > 1300 and tariff > 15 |
| MemoGenerator.GenerateMemo | src/utils/memoGenerator.ts:1-72 | the memo echoes the parameters, carries the rounded influences, the risk level and the fired recommendations, and its gap weight is at least 15 |
| MemoGenerator.RiskExamples | src/utils/memoGenerator.ts:8-13 | (18, 1350) is high, (6, 1050) low and (12, 1180) moderate |
| ScenarioManager.RemoveId | src/components/ScenarioManager.tsx:70 | the filter never lengthens the list and leaves no entry with the id |
| ScenarioManager.RemoveIdMembership | src/components/ScenarioManager.tsx:70 | an entry survives deletion iff it was present and has another id |
| ScenarioManager.RemoveIdAppend | src/components/ScenarioManager.tsx:70 | deletion distributes over concatenation, so survivors keep their relative order |
| ScenarioManager.RemoveIdAbsent | src/components/ScenarioManager.tsx:70 | deleting an id no entry has leaves the list unchanged |
| ScenarioManager.RemoveIdUnique | src/components/ScenarioManager.tsx:70 | deleting an id held by one entry only removes exactly that entry and keeps the rest in place |
| ScenarioManager.BlankNames | src/components/ScenarioManager.tsx:55 | empty and whitespace-only names are blank; a name with a letter is not |
| ScenarioManager.Manager.constructor | src/components/ScenarioManager.tsx:31-52 | the list starts with the two scenarios with ids "1" and "2"; the name is empty and the dialog closed |
| ScenarioManager.Manager.EditName | src/components/ScenarioManager.tsx:51 | the name field holds the typed text |
| ScenarioManager.Manager.SetDialogOpen | src/components/ScenarioManager.tsx:52 | the dialog flag takes the given value |
| ScenarioManager.Manager.Save | src/components/ScenarioManager.tsx:54-67 | a blank name changes nothing; otherwise exactly one scenario with the untrimmed name and the current parameters is appended, earlier entries unchanged, the name cleared and the dialog closed |
| ScenarioManager.Manager.Delete | src/components/ScenarioManager.tsx:69-71 | the list becomes the filter of the old one; no entry with the id remains; every other entry survives |
| PolicySimulator.DomesticPriceIncrease | src/components/PolicySimulator.tsx:50 | never negative for a non-negative tariff at a price of at least 1000; 0.8 per tariff point at 1000; negative for a price below 1000 - 16t |
| PolicySimulator.FarmerIncomeIncrease | src/components/PolicySimulator.tsx:51 | has the sign of the tariff, and brings the farmer score to 100 exactly from tariff 33 1/3, beyond the slider's 30 |
| PolicySimulator.ImportReduction | src/components/PolicySimulator.tsx:52 | the import reduction is at most 15, and non-negative for a non-negative tariff and a gap of at most 100 |
| PolicySimulator.Scores | src/components/PolicySimulator.tsx:48-66 | the rounded consumer score is at least 0, and the farmer and fiscal scores at most 100 |
| PolicySimulator.ScoresOnSliderRange | src/components/PolicySimulator.tsx:57-65 | on the slider ranges the farmer score lies in [50, 100] and the fiscal score in [40, 100] |
| PolicySimulator.ConsumerScoreCanExceed100 | src/components/PolicySimulator.tsx:50-62 | tariff 0 and price 800 give a price change of -10 and a consumer score of 120 |
| PolicySimulator.DefaultScenario | src/components/PolicySimulator.tsx:48-66 | tariff 12, price 1180, gap 58 give 18.6, 18, 10.2 and scores 63, 68, 71 |
| PolicySimulator.AgentPriceImpactMatches | src/data/agentModels.ts:30 | the consumer agent's price impact is the simulator's domestic price increase |
| PolicySimulator.MemoPriceCoefficientDiffers | src/utils/memoGenerator.ts:16 | the memo's price increase exceeds the simulator's by tariff/5 and equals it only at tariff 0 |
| PolicySimulator.VolatilityLabel | src/components/PolicySimulator.tsx:337-339 | the label is low iff volatility < 30 and high iff volatility >= 60 |
| PolicySimulator.Commit | src/components/PolicySimulator.tsx:104-113 | a parsed value is clamped into range and committed to parameter and text; NaN keeps the parameter and restores its text |
| PolicySimulator.BlurFloatIdempotent | src/components/PolicySimulator.tsx:104-113 | blurring the tariff field a second time changes nothing |
| PolicySimulator.BlurIntIdempotent | src/components/PolicySimulator.tsx:119-158 | blurring an integer field a second time changes nothing |
| PolicySimulator.ClampedIntIsIntegral | src/components/PolicySimulator.tsx:120-124 | a clamped parseInt result is a whole number |
| PolicySimulator.Simulator.constructor | src/components/PolicySimulator.tsx:30-45 | parameters 12, 1180, 58, 50 with matching texts, no memo, not busy, scores and agents computed |
| PolicySimulator.Simulator.Recompute | src/components/PolicySimulator.tsx:48-66 | agents and scores are recomputed from tariff, price and gap |
| PolicySimulator.Simulator.EditTariffText | src/components/PolicySimulator.tsx:100-102 | only the tariff text changes |
| PolicySimulator.Simulator.EditPriceText | src/components/PolicySimulator.tsx:115-117 | only the price text changes |
| PolicySimulator.Simulator.EditGapText | src/components/PolicySimulator.tsx:130-132 | only the gap text changes |
| PolicySimulator.Simulator.EditVolatilityText | src/components/PolicySimulator.tsx:145-147 | only the volatility text changes |
| PolicySimulator.Simulator.BlurTariff | src/components/PolicySimulator.tsx:104-113 | parseFloat text is clamped to [0, 30] and committed, otherwise the tariff is kept and its text restored; other fields unchanged; derived data kept consistent |
| PolicySimulator.Simulator.BlurPrice | src/components/PolicySimulator.tsx:119-128 | parseInt text is clamped to [800, 1500] as a whole number, otherwise reverted; other fields unchanged |
| PolicySimulator.Simulator.BlurGap | src/components/PolicySimulator.tsx:134-143 | parseInt text is clamped to [30, 70] as a whole number, otherwise reverted; other fields unchanged |
| PolicySimulator.Simulator.BlurVolatility | src/components/PolicySimulator.tsx:149-158 | parseInt text is clamped to [0, 100] as a whole number, otherwise reverted; scores and agents unchanged |
| PolicySimulator.Simulator.SetParameters | src/components/PolicySimulator.tsx:77-97 | the four parameters and their texts take the given values; memo and busy state unchanged |
| PolicySimulator.Simulator.LoadScenario | src/components/PolicySimulator.tsx:77-86 | the four parameters and texts take the scenario's values, nothing else changes |
| PolicySimulator.Simulator.LoadPreset | src/components/PolicySimulator.tsx:88-97 | the four parameters and texts take the preset's values, nothing else changes |
| PolicySimulator.Simulator.PressGenerate | src/components/PolicySimulator.tsx:68-70 | while busy the press is ignored; otherwise the busy flag is set and the current parameters captured |
| PolicySimulator.Simulator.CompleteGenerate | src/components/PolicySimulator.tsx:72-74 | the memo for the captured parameters is stored and the busy flag cleared |
| PolicySimulator.ScoresIgnoreVolatility | src/components/PolicySimulator.tsx:48-66 | two controllers with equal tariff, price and gap show the same scores and agents, whatever their volatility |
| NmeoTargetAnalysis.Solve | src/components/NMEOPTargetAnalysis.tsx:25-32 | the tariff lies in [8, 20]; subsidy = 250 x improvement; investment = 180 x gap reduction; improvement x years = gap reduction |
| NmeoTargetAnalysis.Rounded | src/components/NMEOPTargetAnalysis.tsx:34-39 | rounding to one decimal keeps the tariff in [8, 20] |
| NmeoTargetAnalysis.WorkedExample | src/components/NMEOPTargetAnalysis.tsx:24-41 | 2030, 70 % and gap 58 give improvement 5.6, tariff 12.8, subsidy 1400, investment 5040 |
| NmeoTargetAnalysis.OvershootTarget | src/components/NMEOPTargetAnalysis.tsx:26-31 | a target gap above the current gap gives negative improvement and subsidy, a tariff below 10, and the floor of 8 once the improvement is -4 or less |
| NmeoTargetAnalysis.Calculator.constructor | src/components/NMEOPTargetAnalysis.tsx:14-22 | texts "2030" and "70", not calculated, zero results |
| NmeoTargetAnalysis.Calculator.EditTargetYear | src/components/NMEOPTargetAnalysis.tsx:14 | the year text holds the typed text |
| NmeoTargetAnalysis.Calculator.EditTargetSelfReliance | src/components/NMEOPTargetAnalysis.tsx:15 | the self-reliance text holds the typed text |
| NmeoTargetAnalysis.Calculator.Calculate | src/components/NMEOPTargetAnalysis.tsx:24-41 | the rounded back-solve is stored, its tariff in [8, 20], and the panel is marked calculated |
| StateAffordabilityHeatmap.WithImpact | src/components/StateAffordabilityHeatmap.tsx:10-12 | one entry per state, in order, each paired with its affordability impact |
| StateAffordabilityHeatmap.Insert | src/components/StateAffordabilityHeatmap.tsx:13 | insertion lengthens the list by one and places the element in it |
| StateAffordabilityHeatmap.Sort | src/components/StateAffordabilityHeatmap.tsx:13 | the sort keeps the length of its input |
| StateAffordabilityHeatmap.InsertPermutes | src/components/StateAffordabilityHeatmap.tsx:13 | insertion adds the element to the multiset and nothing else |
| StateAffordabilityHeatmap.InsertSorted | src/components/StateAffordabilityHeatmap.tsx:13 | insertion into a descending list keeps it descending |
| StateAffordabilityHeatmap.SortCorrect | src/components/StateAffordabilityHeatmap.tsx:13 | the sort yields a descending permutation of its input |
| StateAffordabilityHeatmap.SortKeepsSorted | src/components/StateAffordabilityHeatmap.tsx:13 | the stable sort leaves an already descending list unchanged |
| StateAffordabilityHeatmap.StatesWithImpact | src/components/StateAffordabilityHeatmap.tsx:10-13 | the heatmap list has fifteen entries |
| StateAffordabilityHeatmap.HeatmapList | src/components/StateAffordabilityHeatmap.tsx:10-13 | the list is descending, has 15 entries, is the table in its own order, each impact min(100, p) |
| StateAffordabilityHeatmap.SliceShowsAll | src/components/StateAffordabilityHeatmap.tsx:51 | the first fifteen entries are the whole list |
| StateAffordabilityHeatmap.Critical | src/components/StateAffordabilityHeatmap.tsx:29 | the filter never lengthens the list and keeps only impacts above 40 |
| StateAffordabilityHeatmap.CriticalMembership | src/components/StateAffordabilityHeatmap.tsx:29 | an entry is critical iff it is listed and its impact exceeds 40 |
| StateAffordabilityHeatmap.CriticalAllOrNone | src/components/StateAffordabilityHeatmap.tsx:29 | when all impacts are equal the filter keeps everything or nothing |
| StateAffordabilityHeatmap.CriticalCount | src/components/StateAffordabilityHeatmap.tsx:29-38 | critical states are exactly those above 40, and there are 15 when p > 40 and 0 otherwise |
| StateAffordabilityHeatmap.ImpactBucket | src/components/StateAffordabilityHeatmap.tsx:15-27 | the four buckets are (60, inf), (40, 60], (20, 40] and (-inf, 20] |
| StateAffordabilityHeatmap.BulletColour | src/components/StateAffordabilityHeatmap.tsx:15-20 | red, orange, yellow or green bullet exactly in the red, orange, yellow or green bucket |
| StateAffordabilityHeatmap.TextColour | src/components/StateAffordabilityHeatmap.tsx:22-27 | red, orange, yellow or green text exactly in the matching bucket |
| StateAffordabilityHeatmap.BorderColour | src/components/StateAffordabilityHeatmap.tsx:56-58 | red, orange, yellow or green border exactly in the matching bucket |
| StateAffordabilityHeatmap.ColoursAgree | src/components/StateAffordabilityHeatmap.tsx:15-27 | bullet, text and border colours each distinguish two impacts iff their buckets differ |
| DashboardOverview.OverallRisk | src/components/DashboardOverview.tsx:20 | high iff volatility > 60, low iff volatility <= 30 |
| DashboardOverview.Dashboard | src/components/DashboardOverview.tsx:11-124 | import reduction shown at most 15; consumer score at least 0 and farmer score at most 100, both as computed and as shown rounded in the quick stats; risk from the volatility bands |
| DashboardOverview.FiguresFollowSimulator | src/components/DashboardOverview.tsx:13-19 | each figure is within half a unit of its last decimal of the exact formula (import bill = p x 13 x g / 100 / 1000), and the scores come from the rounded figures |
| DashboardOverview.VolatilityOnlyMovesRisk | src/components/DashboardOverview.tsx:13-20 | changing volatility changes the risk band and no other figure |
| DashboardOverview.RiskDisagreesWithSliderLabel | src/components/DashboardOverview.tsx:20 | the dashboard band and the slider label disagree exactly at volatility 30 and 60 |
| DashboardOverview.ShownScoresNearSimulator | src/components/DashboardOverview.tsx:13-124 | the shown consumer and farmer scores are each within one point of the simulator's scores |
| DashboardOverview.DefaultCards | src/components/DashboardOverview.tsx:13-124 | the default scenario shows 18.6, 18.0, 10.2, 8.90, a consumer score of 62.8 shown as 63, a farmer score of 68 and moderate risk |
| DashboardOverview.ShownScoresCanDifferFromSimulator | src/components/DashboardOverview.tsx:13-124 | tariff 12.3 shows farmer score 69 where the simulator has 68; tariff 0 at price 1365 shows consumer score 63 where the simulator has 64 |
| TradeOffScorecard.OverallScore | src/components/TradeOffScorecard.tsx:12 | the overall score lies between the least and the greatest of the three scores |
| TradeOffScorecard.OverallScoreInRange | src/components/TradeOffScorecard.tsx:12 | three scores in [0, 100] give an overall score in [0, 100] |
| TradeOffScorecard.OverallOfEqualScores | src/components/TradeOffScorecard.tsx:12 | three equal scores give that score |
| TradeOffScorecard.DefaultOverall | src/components/TradeOffScorecard.tsx:12 | scores 63, 68, 71 give 67 |
| TradeOffScorecard.GetScoreColor | src/components/TradeOffScorecard.tsx:14-18 | green iff score >= 70, yellow iff 50 <= score < 70, red iff score < 50 |
| TradeOffScorecard.DescriptionsFollowColours | src/components/TradeOffScorecard.tsx:48-79 | each dimension's sentence distinguishes two scores iff their colours differ |
| MarketActorMap.GetColor | src/components/MarketActorMap.tsx:11-16 | green iff change > 10, lime iff in (0, 10], yellow iff in (-10, 0], red iff change <= -10 |
| MarketActorMap.ColourMonotone | src/components/MarketActorMap.tsx:11-16 | a larger change never gets a worse colour |
| MarketActorMap.ShowChange | src/components/MarketActorMap.tsx:28-30 | the tooltip's change line: rising icon, green text and '+' iff change > 0; the figure within 0.05 of the change |
| MarketActorMap.ZeroChangeShowsFalling | src/components/MarketActorMap.tsx:28-30 | a change of 0 shows the falling icon in red without a sign |
| MarketActorMap.CellFills | src/components/MarketActorMap.tsx:53-55 | one scatter cell per agent, in order, coloured by its change |
| MarketActorMap.Swatches | src/components/MarketActorMap.tsx:61-72 | one swatch per agent, in order, with its kind, its cell colour, '+' iff its change is positive and the change to within 0.05 |
| MarketActorMap.SwatchesMatchCells | src/components/MarketActorMap.tsx:53-72 | swatch and scatter cell of each agent share a colour |
| MarketActorMap.FarmerSwatchPositive | src/components/MarketActorMap.tsx:61-72 | with a non-negative tariff and a gap of at most 70 the farmer's swatch is lime or green and signed '+' |
| RealTimeImpactGraph.PointAt | src/components/RealTimeImpactGraph.tsx:16-25 | the point carries its tariff and an import volume index of at least 30 |
| RealTimeImpactGraph.DataPoints | src/components/RealTimeImpactGraph.tsx:14-25 | 26 points, the i-th for tariff i, each with an import volume index of at least 30 |
| RealTimeImpactGraph.GenerateDataPoints | src/components/RealTimeImpactGraph.tsx:13-28 | the loop returns 26 points with tariffs 0..25 in order, each the point for its tariff |
| RealTimeImpactGraph.ConsumerIndexTracksSimulator | src/components/RealTimeImpactGraph.tsx:16-22 | the consumer price index is 120 plus the simulator's price increase, rounded |
| RealTimeImpactGraph.FarmerIndexIgnoresMarket | src/components/RealTimeImpactGraph.tsx:17-23 | the farmer income index is round(100 + 1.5t) whatever the price and gap |
| RealTimeImpactGraph.CurveMonotone | src/components/RealTimeImpactGraph.tsx:16-24 | along the sweep consumer price and farmer income never fall and import volume never rises |
| RealTimeImpactGraph.FindIndex | src/components/RealTimeImpactGraph.tsx:31 | the first index whose tariff matches, or -1 iff none matches |
| RealTimeImpactGraph.CurrentPoint | src/components/RealTimeImpactGraph.tsx:31 | a current point, when there is one, is one of the data points |
| RealTimeImpactGraph.CurrentPointOnGraph | src/components/RealTimeImpactGraph.tsx:31-111 | the current point is the point at round(tariff) when that is in 0..25, and there is none otherwise |
| RealTimeImpactGraph.DefaultCurrentPoint | src/components/RealTimeImpactGraph.tsx:15-31 | the default scenario's current point is (12, 139, 118, 103) |
| HistoricalComparison.Projection | src/components/HistoricalComparison.tsx:15-23 | the projected row is marked "Projected" in 2025 with the current tariff and price, and projects at least 120 and 105 for a non-negative tariff at a price of at least 1000 |
| HistoricalComparison.DataWithProjection | src/components/HistoricalComparison.tsx:13-24 | the table unchanged followed by one row marked "Projected" with the current tariff and price |
| HistoricalComparison.ProjectionPriceCoefficient | src/components/HistoricalComparison.tsx:20-21 | the projected price is 120 + the simulator's increase + 0.01 (p - 1000); projected income 105 + 1.5t |
| HistoricalComparison.Prefix3 | src/components/HistoricalComparison.tsx:27 | at most three characters, a prefix of the month, exactly three for a long enough month |
| HistoricalComparison.Row | src/components/HistoricalComparison.tsx:27-31 | the name starts with the month's first three letters and a space; the figures are within 0.5 of the entry's; isProjection iff the month is "Projected" |
| HistoricalComparison.ChartData | src/components/HistoricalComparison.tsx:26-32 | one row per entry, same length and order |
| HistoricalComparison.ChartShape | src/components/HistoricalComparison.tsx:26-32 | ten rows; isProjection holds exactly for the last; historical rows keep their figures; the last carries the projection |
| HistoricalComparison.RowNames | src/components/HistoricalComparison.tsx:27 | the projection is named "Pro 2025" and the last historical row "Jan 2025" |
| HistoricalComparison.DefaultProjection | src/components/HistoricalComparison.tsx:20-28 | tariff 12 and price 1180 project a price of 140 and an income of 123 |

## Left out

- Rendering, Tailwind classes, dialogs, tabs, sliders and chart configuration are presentation only.
- The `Math.random` display coordinates of the agents are cosmetic and nondeterministic.
- The 1500 ms delay of memo generation is not modelled. Generation is a press that sets the busy flag and captures the parameters, then a completion that stores the memo.
- StateAffordabilityHeatmap.HeatmapList / CriticalCount: hold in exact arithmetic only. In IEEE-754 doubles the fifteen impacts at one price increase differ in their last bits, so the sort can reorder the rows and, near 40, the critical list can hold some states but not others.
- IEEE-754 arithmetic is replaced by exact reals, so float artefacts of `toFixed` are not captured. The `toString`/`toFixed` strings and the memo's paragraph and summary templates are left out; the memo keeps the figures they quote.
- Text parsing: a typed text carries what `parseFloat` and `parseInt` make of it as an Option, and a rendered number parses back to itself (to its integer part for `parseInt`). The parsers themselves are not modelled.
- Scenario ids (`Date.now()`) and timestamps (`new Date()`) are parameters of `ScenarioManager.Manager.Save`, so id uniqueness is not guaranteed, as in the source.
- Scenario export (Blob, object URL, anchor click) and the welcome dialog's `localStorage` flag are browser I/O.
- The preset table, the welcome, landing, guide, memo display, sensitivity and comparison views display constants or text and are not part of this model.
- PolicySimulator.Simulator.constructor: starts with the scores already computed. In the source the scores are {0, 0, 0} and the agents empty until the mount-time effect runs.
- NmeoTargetAnalysis.Calculator.Calculate: takes the parsed year and self-reliance as integers and requires a year other than 2025. Unparseable text gives NaN results in the source; that path and the division by zero at 2025 are not modelled.
- StateData.AffordabilityImpact: requires positive income and consumption, which every table row has; other rows would divide by zero in the source.
- NmeoTargetAnalysis.Rounded: requires the tariff in [8, 20], which Solve always delivers.
