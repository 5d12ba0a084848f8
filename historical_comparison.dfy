/** The historical comparison (src/data/historicalPolicies.ts and
    src/components/HistoricalComparison.tsx): nine past tariff episodes
    followed by a projection of the current scenario, and the chart rows
    built from them. */
module HistoricalComparison {
  import opened JsMath
  import PolicySimulator

  datatype HistoricalPolicy = HistoricalPolicy(
    year: nat,
    month: string,
    tariffRate: real,
    globalPrice: real,
    domesticPrice: real,
    farmerIncome: real,
    description: string)

  const HistoricalPolicies: seq<HistoricalPolicy> := [
    HistoricalPolicy(2019, "Jan", 7.5, 580.0, 68.0, 85.0, "Pre-pandemic baseline"),
    HistoricalPolicy(2020, "Jul", 5.0, 720.0, 78.0, 82.0, "COVID-19 tariff reduction"),
    HistoricalPolicy(2021, "Jan", 2.5, 1050.0, 110.0, 78.0, "Major duty cut to control inflation"),
    HistoricalPolicy(2021, "Sep", 2.5, 1180.0, 125.0, 75.0, "Global price surge"),
    HistoricalPolicy(2022, "Mar", 5.5, 1420.0, 152.0, 88.0, "Ukraine crisis impact"),
    HistoricalPolicy(2023, "Jan", 8.0, 980.0, 115.0, 95.0, "Tariff hike for farmer support"),
    HistoricalPolicy(2023, "Sep", 12.5, 920.0, 118.0, 108.0, "NMEO-OP alignment policy"),
    HistoricalPolicy(2024, "Jun", 10.0, 1050.0, 125.0, 102.0, "Balanced approach"),
    HistoricalPolicy(2025, "Jan", 10.0, 1180.0, 138.0, 105.0, "Current baseline")
  ]

  /** The projected row: marked "Projected" in 2025, carrying the current
      tariff and world price; for a non-negative tariff at or above the $1000
      reference price it projects at least 120 for the price and 105 for the
      farmer income. */
  function Projection(currentTariff: real, currentGlobalPrice: real): (p: HistoricalPolicy)
    ensures p.year == 2025 && p.month == "Projected"
    ensures p.tariffRate == currentTariff && p.globalPrice == currentGlobalPrice
    ensures currentTariff >= 0.0 && currentGlobalPrice >= 1000.0 ==>
      p.domesticPrice >= 120.0 && p.farmerIncome >= 105.0
  {
    HistoricalPolicy(2025, "Projected", currentTariff, currentGlobalPrice,
      120.0 + currentTariff * 0.8 + (currentGlobalPrice - 1000.0) * 0.06,
      105.0 + currentTariff * 1.5,
      "Your scenario projection")
  }

  /** `dataWithProjection`: the table unchanged in front, and last a row
      marked "Projected" carrying the current tariff and world price. */
  function DataWithProjection(currentTariff: real, currentGlobalPrice: real): (data: seq<HistoricalPolicy>)
    ensures |data| == |HistoricalPolicies| + 1
    ensures data[..|HistoricalPolicies|] == HistoricalPolicies
    ensures data[|HistoricalPolicies|].month == "Projected"
    ensures data[|HistoricalPolicies|].tariffRate == currentTariff
    ensures data[|HistoricalPolicies|].globalPrice == currentGlobalPrice
  {
    var data := HistoricalPolicies + [Projection(currentTariff, currentGlobalPrice)];
    assert data[..|HistoricalPolicies|] == HistoricalPolicies;
    data
  }

  /** The projection prices the world price at 0.06 per dollar where the
      simulator (and the impact graph) use 1/20 = 0.05: it lies 120 plus the
      simulator's price increase plus 0.01 per dollar above 1000. */
  lemma ProjectionPriceCoefficient(currentTariff: real, currentGlobalPrice: real)
    ensures Projection(currentTariff, currentGlobalPrice).domesticPrice
         == 120.0 + PolicySimulator.DomesticPriceIncrease(currentTariff, currentGlobalPrice)
            + 0.01 * (currentGlobalPrice - 1000.0)
    ensures Projection(currentTariff, currentGlobalPrice).farmerIncome
         == 105.0 + PolicySimulator.FarmerIncomeIncrease(currentTariff)
  {
  }

  // ---------------------------------------------------------------- chart rows

  datatype ChartRow = ChartRow(
    name: string,
    domesticPrice: int,
    farmerIncome: int,
    tariffRate: real,
    isProjection: bool)

  /** `s.substring(0, 3)`. */
  function Prefix3(s: string): (p: string)
    ensures |p| <= 3 && p <= s
    ensures |s| >= 3 ==> |p| == 3
  {
    if |s| <= 3 then s else s[..3]
  }

  function Digit(d: nat): char
    requires d < 10
  {
    "0123456789"[d]
  }

  /** The decimal rendering of a whole number. */
  function NatToString(n: nat): (s: string)
    ensures |s| >= 1
    decreases n
  {
    if n < 10 then [Digit(n)] else NatToString(n / 10) + [Digit(n % 10)]
  }

  /** A row's name: the month's first three letters, a space and the year. */
  function Label(month: string, year: nat): (name: string)
    ensures |month| >= 3 ==> |name| >= 5 && name[..4] == month[..3] + " "
  {
    var head := Prefix3(month) + " ";
    var name := head + NatToString(year);
    assert name[..|head|] == head;
    name
  }

  /** One chart row: named by `Label`; the two figures rounded to whole
      numbers; flagged as the projection exactly for the "Projected" entry. */
  function Row(d: HistoricalPolicy): (r: ChartRow)
    ensures |d.month| >= 3 ==> |r.name| >= 5 && r.name[..4] == d.month[..3] + " "
    ensures d.domesticPrice - 0.5 < r.domesticPrice as real <= d.domesticPrice + 0.5
    ensures d.farmerIncome - 0.5 < r.farmerIncome as real <= d.farmerIncome + 0.5
    ensures r.tariffRate == d.tariffRate
    ensures r.isProjection <==> d.month == "Projected"
  {
    ChartRow(Label(d.month, d.year), Round(d.domesticPrice), Round(d.farmerIncome), d.tariffRate, d.month == "Projected")
  }



  /** `dataWithProjection.map(...)`: one row per entry, in order. */
  function ChartData(data: seq<HistoricalPolicy>): (rows: seq<ChartRow>)
    ensures |rows| == |data|
    ensures forall i :: 0 <= i < |data| ==> rows[i] == Row(data[i])
  {
    if data == [] then [] else [Row(data[0])] + ChartData(data[1..])
  }

  /** The chart has ten rows: the nine historical ones, unprojected and with
      their own rounded figures, and the projection last. */
  lemma ChartShape(currentTariff: real, currentGlobalPrice: real)
    ensures var rows := ChartData(DataWithProjection(currentTariff, currentGlobalPrice));
      && |rows| == 10
      && (forall i :: 0 <= i < 10 ==> (rows[i].isProjection <==> i == 9))
      && (forall i :: 0 <= i < 9 ==>
            rows[i].domesticPrice as real == HistoricalPolicies[i].domesticPrice &&
            rows[i].farmerIncome as real == HistoricalPolicies[i].farmerIncome &&
            rows[i].tariffRate == HistoricalPolicies[i].tariffRate)
      && rows[9].tariffRate == currentTariff
      && rows[9].domesticPrice == Round(Projection(currentTariff, currentGlobalPrice).domesticPrice)
  {
    var data := DataWithProjection(currentTariff, currentGlobalPrice);
    assert data[9].month == "Projected";
    forall i | 0 <= i < 9
      ensures data[i].month != "Projected"
      ensures Round(data[i].domesticPrice) as real == data[i].domesticPrice
      ensures Round(data[i].farmerIncome) as real == data[i].farmerIncome
    {
      assert |data[i].month| == 3;
      RoundOfInt(data[i].domesticPrice.Floor);
      RoundOfInt(data[i].farmerIncome.Floor);
    }
  }

  /** Row names take the first three letters of the month, so the projection
      is labelled "Pro 2025" beside the last historical "Jan 2025". */
  lemma RowNames(currentTariff: real, currentGlobalPrice: real)
    ensures ChartData(DataWithProjection(currentTariff, currentGlobalPrice))[9].name == "Pro 2025"
    ensures ChartData(DataWithProjection(currentTariff, currentGlobalPrice))[8].name == "Jan 2025"
  {
    assert NatToString(2025) == "2025" by {
      assert NatToString(2) == "2";
      assert NatToString(20) == "20";
      assert NatToString(202) == "202";
    }
    assert Prefix3("Projected") == "Pro";
    assert Label("Projected", 2025) == "Pro 2025";
    assert Label("Jan", 2025) == "Jan 2025";
  }

  /** At the default tariff 12 and price 1180 the projection shows a price of
      140 and a farmer income of 123. */
  lemma DefaultProjection()
    ensures Row(Projection(12.0, 1180.0)).domesticPrice == 140
    ensures Row(Projection(12.0, 1180.0)).farmerIncome == 123
  {
    assert Round(140.4) == 140;
    RoundOfInt(123);
  }
}
