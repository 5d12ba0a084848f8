/** The agent map (src/components/MarketActorMap.tsx): one scatter cell and
    one swatch per agent, coloured by the agent's change, the tooltip's
    change line and the swatch's signed figure. */
module MarketActorMap {
  import opened JsMath
  import opened AgentModels

  /** `getColor`: green above +10, lime above 0, yellow above -10, red
      otherwise. */
  function GetColor(change: real): (colour: string)
    ensures colour == "#22c55e" <==> change > 10.0
    ensures colour == "#84cc16" <==> 0.0 < change <= 10.0
    ensures colour == "#eab308" <==> -10.0 < change <= 0.0
    ensures colour == "#ef4444" <==> change <= -10.0
  {
    DistinctColours();
    if change > 10.0 then "#22c55e"
    else if change > 0.0 then "#84cc16"
    else if change > -10.0 then "#eab308"
    else "#ef4444"
  }

  lemma DistinctColours()
    ensures "#22c55e"[1] == '2' && "#84cc16"[1] == '8' && "#eab308"[1] == 'e' && "#ef4444"[1] == 'e'
    ensures "#eab308"[2] == 'a' && "#ef4444"[2] == 'f'
  {
  }

  /** The colours are ordered like the changes: a larger change is never
      coloured worse. */
  lemma ColourMonotone(c1: real, c2: real)
    requires c1 <= c2
    ensures GetColor(c1) == "#22c55e" ==> GetColor(c2) == "#22c55e"
    ensures GetColor(c1) == "#84cc16" ==> GetColor(c2) in {"#22c55e", "#84cc16"}
    ensures GetColor(c2) == "#ef4444" ==> GetColor(c1) == "#ef4444"
  {
  }

  /** The tooltip's change line: the rising icon, green text and a leading
      '+' exactly for a positive change; the figure to one decimal place. */
  datatype ChangeText = ChangeText(rising: bool, textClass: string, sign: string, figure: real)

  function ShowChange(change: real): (t: ChangeText)
    ensures t.rising <==> change > 0.0
    ensures t.sign == "+" <==> change > 0.0
    ensures t.sign == "" <==> change <= 0.0
    ensures t.textClass == "text-green-600" <==> change > 0.0
    ensures -0.05 <= t.figure - change <= 0.05
  {
    assert "text-green-600"[5] == 'g' && "text-red-600"[5] == 'r';
    if change > 0.0 then ChangeText(true, "text-green-600", "+", Fixed1(change))
    else ChangeText(false, "text-red-600", "", Fixed1(change))
  }

  /** An unchanged agent shows the falling icon in red, without a sign. */
  lemma ZeroChangeShowsFalling()
    ensures ShowChange(0.0) == ChangeText(false, "text-red-600", "", 0.0)
  {
    RoundOfInt(0);
  }

  /** A swatch: the colour bar, the agent type and, in grey, the change with
      a leading '+' when positive, to one decimal place. */
  datatype Swatch = Swatch(colour: string, kind: AgentKind, sign: string, figure: real)

  function SwatchOf(agent: AgentBehavior): Swatch
  {
    var text := ShowChange(agent.change);
    Swatch(GetColor(agent.change), agent.kind, text.sign, text.figure)
  }

  /** The scatter cells' fills, one per agent in order. */
  function CellFills(agents: seq<AgentBehavior>): (fills: seq<string>)
    ensures |fills| == |agents|
    ensures forall i :: 0 <= i < |agents| ==> fills[i] == GetColor(agents[i].change)
  {
    if agents == [] then [] else [GetColor(agents[0].change)] + CellFills(agents[1..])
  }

  /** The swatch grid, one swatch per agent in order: each carries the
      agent's type, the colour of its scatter cell, a '+' exactly when its
      change is positive and the change to within 0.05. */
  function Swatches(agents: seq<AgentBehavior>): (swatches: seq<Swatch>)
    ensures |swatches| == |agents|
    ensures forall i :: 0 <= i < |agents| ==> swatches[i] == SwatchOf(agents[i])
    ensures forall i :: 0 <= i < |agents| ==>
      && swatches[i].kind == agents[i].kind
      && (swatches[i].sign == "+" <==> agents[i].change > 0.0)
      && -0.05 <= swatches[i].figure - agents[i].change <= 0.05
  {
    if agents == [] then []
    else [SwatchOf(agents[0])] + Swatches(agents[1..])
  }

  /** The grid and the scatter plot colour each agent alike. */
  lemma {:induction false} SwatchesMatchCells(agents: seq<AgentBehavior>)
    ensures forall i :: 0 <= i < |agents| ==> Swatches(agents)[i].colour == CellFills(agents)[i]
  {
  }

  /** With a non-negative tariff and a yield gap of at most 70, the farmer's
      investment rises by at least 9 points, so the farmer's swatch is lime
      or green and carries a '+'. */
  lemma FarmerSwatchPositive(tariff: real, globalPrice: real, yieldGap: real)
    requires tariff >= 0.0 && yieldGap <= 70.0
    ensures var s := Swatches(CalculateAgentBehavior(tariff, globalPrice, yieldGap))[0];
      s.kind == Farmer && s.colour in {"#22c55e", "#84cc16"} && s.sign == "+"
  {
    var agents := CalculateAgentBehavior(tariff, globalPrice, yieldGap);
    AgentsShape(tariff, globalPrice, yieldGap);
    assert agents[0].change >= 9.0;
  }
}
