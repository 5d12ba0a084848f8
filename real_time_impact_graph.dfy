/** The impact graph (src/components/RealTimeImpactGraph.tsx): three indices
    sampled at every whole tariff from 0 to 25, and the point shown for the
    current tariff. */
module RealTimeImpactGraph {
  import opened JsMath
  import PolicySimulator

  datatype DataPoint = DataPoint(
    tariff: int,
    consumerPriceIndex: int,
    farmerIncomeIndex: int,
    importVolumeIndex: int)

  /** The point for tariff t. The import volume index never falls below 30. */
  function PointAt(t: int, globalPrice: real, yieldGap: real): (p: DataPoint)
    ensures p.tariff == t
    ensures p.importVolumeIndex >= 30
  {
    var consumerPrice := 120.0 + t as real * 0.8 + (globalPrice - 1000.0) / 20.0;
    var farmerIncome := 100.0 + t as real * 1.5;
    var importVolume := 100.0 - t as real * 1.2 + yieldGap * 0.3;
    RoundMonotone(30.0, Max(30.0, importVolume));
    RoundOfInt(30);
    DataPoint(t, Round(consumerPrice), Round(farmerIncome), Round(Max(30.0, importVolume)))
  }

  /** The graph's data: the points for tariffs 0, 1, ..., 25. */
  function DataPoints(globalPrice: real, yieldGap: real): (data: seq<DataPoint>)
    ensures |data| == 26
    ensures forall i :: 0 <= i < 26 ==> data[i].tariff == i && data[i].importVolumeIndex >= 30
  {
    seq(26, i => PointAt(i, globalPrice, yieldGap))
  }

  /** `generateDataPoints`. */
  method GenerateDataPoints(globalPrice: real, yieldGap: real) returns (points: seq<DataPoint>)
    ensures points == DataPoints(globalPrice, yieldGap)
    ensures |points| == 26 && forall i :: 0 <= i < 26 ==> points[i].tariff == i
  {
    points := [];
    var t := 0;
    while t <= 25
      invariant 0 <= t <= 26
      invariant |points| == t
      invariant forall i :: 0 <= i < t ==> points[i] == PointAt(i, globalPrice, yieldGap)
    {
      points := points + [PointAt(t, globalPrice, yieldGap)];
      t := t + 1;
    }
  }

  /** The consumer price index is 120 plus the simulator's domestic price
      increase, rounded. */
  lemma ConsumerIndexTracksSimulator(t: int, globalPrice: real, yieldGap: real)
    ensures PointAt(t, globalPrice, yieldGap).consumerPriceIndex
         == Round(120.0 + PolicySimulator.DomesticPriceIncrease(t as real, globalPrice))
  {
  }

  /** The farmer income index depends on the tariff alone. */
  lemma FarmerIndexIgnoresMarket(t: int, p1: real, g1: real, p2: real, g2: real)
    ensures PointAt(t, p1, g1).farmerIncomeIndex == PointAt(t, p2, g2).farmerIncomeIndex
    ensures PointAt(t, p1, g1).farmerIncomeIndex == Round(100.0 + 1.5 * t as real)
  {
  }

  /** Along the curve consumer prices and farmer incomes never fall and
      import volumes never rise. */
  lemma {:induction false} CurveMonotone(globalPrice: real, yieldGap: real, i: int, j: int)
    requires 0 <= i <= j < 26
    ensures var data := DataPoints(globalPrice, yieldGap);
      data[i].consumerPriceIndex <= data[j].consumerPriceIndex &&
      data[i].farmerIncomeIndex <= data[j].farmerIncomeIndex &&
      data[i].importVolumeIndex >= data[j].importVolumeIndex
  {
    var ti, tj := i as real, j as real;
    RoundMonotone(120.0 + ti * 0.8 + (globalPrice - 1000.0) / 20.0, 120.0 + tj * 0.8 + (globalPrice - 1000.0) / 20.0);
    RoundMonotone(100.0 + ti * 1.5, 100.0 + tj * 1.5);
    RoundMonotone(Max(30.0, 100.0 - tj * 1.2 + yieldGap * 0.3), Max(30.0, 100.0 - ti * 1.2 + yieldGap * 0.3));
  }

  /** `data.findIndex(d => d.tariff === target)`: the first index whose
      point has that tariff, or -1 when there is none. */
  function FindIndex(data: seq<DataPoint>, target: int): (k: int)
    ensures -1 <= k < |data|
    ensures k >= 0 ==> data[k].tariff == target && forall j :: 0 <= j < k ==> data[j].tariff != target
    ensures k == -1 <==> forall j :: 0 <= j < |data| ==> data[j].tariff != target
  {
    if data == [] then -1
    else if data[0].tariff == target then 0
    else
      var k := FindIndex(data[1..], target);
      if k < 0 then -1 else k + 1
  }

  /** `data.find(d => d.tariff === Math.round(tariff)) || data[Math.round(tariff)]`,
      None when both are undefined (which hides the current-scenario panel). */
  function CurrentPoint(data: seq<DataPoint>, tariff: real): (r: Option<DataPoint>)
    ensures r.Some? ==> r.value in data
  {
    var target := Round(tariff);
    var k := FindIndex(data, target);
    if k >= 0 then Some(data[k])
    else if 0 <= target < |data| then Some(data[target])
    else None
  }

  /** On the graph's own data the current point is the point at the rounded
      tariff, and there is none once the tariff rounds outside 0..25 (the
      slider reaches 30, so tariffs from 25.5 up show no panel). */
  lemma CurrentPointOnGraph(globalPrice: real, yieldGap: real, tariff: real)
    ensures var data := DataPoints(globalPrice, yieldGap);
            var r := Round(tariff);
      CurrentPoint(data, tariff) == if 0 <= r <= 25 then Some(data[r]) else None
  {
    var data := DataPoints(globalPrice, yieldGap);
    var r := Round(tariff);
    if 0 <= r <= 25 {
      assert data[r].tariff == r;
    }
  }

  /** The default scenario at tariff 12: consumer price 139, farmer income
      118, import volume 103. */
  lemma DefaultCurrentPoint()
    ensures CurrentPoint(DataPoints(1180.0, 58.0), 12.0) == Some(DataPoint(12, 139, 118, 103))
  {
    CurrentPointOnGraph(1180.0, 58.0, 12.0);
    RoundOfInt(12);
    assert Round(138.6) == 139 && Round(118.0) == 118;
    assert Round(103.0) == 103;
  }
}
