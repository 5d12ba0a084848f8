/** The agent-based market response (src/data/agentModels.ts): five market
    actors, each with a fixed baseline and one clamped affine formula of the
    policy parameters. The random display coordinates are not modelled. */
module AgentModels {
  import opened JsMath

  datatype AgentKind = Farmer | Trader | Investor | Consumer | Importer

  datatype AgentBehavior = AgentBehavior(
    kind: AgentKind,
    metric: string,
    baseline: real,
    newValue: real,
    change: real)

  /** The order in which the agents are returned. */
  const AgentOrder: seq<AgentKind> := [Farmer, Trader, Investor, Consumer, Importer]

  function Baseline(k: AgentKind): real
  {
    match k
    case Farmer => 50.0
    case Trader => 65.0
    case Investor => 40.0
    case Consumer => 100.0
    case Importer => 70.0
  }

  function FarmerInvestment(tariff: real, yieldGap: real): (v: real)
    ensures v <= 100.0
  {
    Min(100.0, 50.0 + tariff * 2.5 + (100.0 - yieldGap) * 0.3)
  }

  function TraderInventory(tariff: real, globalPrice: real): (v: real)
    ensures v >= 20.0
  {
    Max(20.0, 65.0 - tariff * 1.5 + (globalPrice - 1000.0) / 50.0)
  }

  function InvestorAllocation(tariff: real, yieldGap: real): (v: real)
    ensures v <= 90.0
  {
    Min(90.0, 40.0 + tariff * 2.0 + (100.0 - yieldGap) * 0.4)
  }

  /** The consumer's price impact, computed inline in agentModels.ts. */
  function PriceImpact(tariff: real, globalPrice: real): real
  {
    tariff * 0.8 + (globalPrice - 1000.0) / 20.0
  }

  function ConsumerConsumption(tariff: real, globalPrice: real): (v: real)
    ensures v >= 75.0
  {
    Max(75.0, 100.0 - PriceImpact(tariff, globalPrice) * 0.5)
  }

  function ImporterVolume(tariff: real, yieldGap: real): (v: real)
    ensures v >= 30.0
  {
    Max(30.0, 70.0 - tariff * 1.2 + yieldGap * 0.3)
  }

  function Agent(k: AgentKind, metric: string, newValue: real): AgentBehavior
  {
    AgentBehavior(k, metric, Baseline(k), newValue, newValue - Baseline(k))
  }

  /** `calculateAgentBehavior`: five agents; farmer investment at most 100,
      investor allocation at most 90, trader inventory at least 20, consumer
      consumption at least 75 (a change of at least -25) and importer volume
      at least 30. */
  function CalculateAgentBehavior(tariff: real, globalPrice: real, yieldGap: real): (agents: seq<AgentBehavior>)
    ensures |agents| == 5
    ensures agents[0].newValue <= 100.0 && agents[2].newValue <= 90.0
    ensures agents[1].newValue >= 20.0 && agents[3].newValue >= 75.0 && agents[4].newValue >= 30.0
    ensures agents[3].change >= -25.0
  {
    [ Agent(Farmer, "Investment in Oilseed Production", FarmerInvestment(tariff, yieldGap)),
      Agent(Trader, "Import Inventory Holdings", TraderInventory(tariff, globalPrice)),
      Agent(Investor, "Domestic Sector Allocation", InvestorAllocation(tariff, yieldGap)),
      Agent(Consumer, "Consumption Level", ConsumerConsumption(tariff, globalPrice)),
      Agent(Importer, "Import Volume Intent", ImporterVolume(tariff, yieldGap)) ]
  }

  /** The agents come in the fixed order, each with its own baseline and
      `change == newValue - baseline`. */
  lemma AgentsShape(tariff: real, globalPrice: real, yieldGap: real)
    ensures var agents := CalculateAgentBehavior(tariff, globalPrice, yieldGap);
      forall i :: 0 <= i < 5 ==>
        agents[i].kind == AgentOrder[i] &&
        agents[i].baseline == Baseline(agents[i].kind) &&
        agents[i].change == agents[i].newValue - agents[i].baseline
  {
  }

  /** The baselines are the constants 50, 65, 40, 100, 70 whatever the inputs. */
  lemma BaselinesAreConstant(t1: real, p1: real, g1: real, t2: real, p2: real, g2: real)
    ensures forall i :: 0 <= i < 5 ==>
      CalculateAgentBehavior(t1, p1, g1)[i].baseline == CalculateAgentBehavior(t2, p2, g2)[i].baseline
    ensures [CalculateAgentBehavior(t1, p1, g1)[0].baseline, CalculateAgentBehavior(t1, p1, g1)[1].baseline,
             CalculateAgentBehavior(t1, p1, g1)[2].baseline, CalculateAgentBehavior(t1, p1, g1)[3].baseline,
             CalculateAgentBehavior(t1, p1, g1)[4].baseline] == [50.0, 65.0, 40.0, 100.0, 70.0]
  {
  }

  /** A higher tariff never lowers farmer investment or investor allocation,
      and never raises trader inventory or importer volume. */
  lemma TariffMonotonicity(t1: real, t2: real, globalPrice: real, yieldGap: real)
    requires t1 <= t2
    ensures CalculateAgentBehavior(t1, globalPrice, yieldGap)[0].newValue <= CalculateAgentBehavior(t2, globalPrice, yieldGap)[0].newValue
    ensures CalculateAgentBehavior(t1, globalPrice, yieldGap)[2].newValue <= CalculateAgentBehavior(t2, globalPrice, yieldGap)[2].newValue
    ensures CalculateAgentBehavior(t1, globalPrice, yieldGap)[1].newValue >= CalculateAgentBehavior(t2, globalPrice, yieldGap)[1].newValue
    ensures CalculateAgentBehavior(t1, globalPrice, yieldGap)[4].newValue >= CalculateAgentBehavior(t2, globalPrice, yieldGap)[4].newValue
  {
  }
}
