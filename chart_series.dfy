/** The data behind both charts, as `updateCharts` assembles it: the
    sale-date rate, the historical rates and today's rate merged by date,
    sorted, and each paired with its delta. */
module ChartSeries {
  import opened LexicalOrder
  import Calculator

  /** One chart point. */
  datatype Point = Point(date: string, delta: real, rate: real)

  function DatesOf(points: seq<Point>): (ds: seq<string>)
    ensures |ds| == |points|
    ensures forall i :: 0 <= i < |points| ==> ds[i] == points[i].date
  {
    seq(|points|, i requires 0 <= i < |points| => points[i].date)
  }

  /** The rate a date is charted with: a historical rate always wins; the
      sale-date rate is used for the sale date otherwise; today's rate only
      for a date that is neither. */
  function SeriesRate(date: string, saleDate: string, saleDateRate: real,
                      rates: map<string, real>, todayRate: real): real
  {
    if date in rates then rates[date]
    else if date == saleDate then saleDateRate
    else todayRate
  }

  /** `points` is the chart series for these inputs: ascending dates, one
      point for each of the sale date, the historical dates and today, each
      with its charted rate and that rate's delta. */
  ghost predicate IsSeries(points: seq<Point>, saleDate: string, saleDateRate: real,
                           rates: map<string, real>, todayDate: string, todayRate: real,
                           usdAmount: real, commission: real)
  {
    && Ascending(DatesOf(points))
    && (forall d :: d in DatesOf(points) <==> d == saleDate || d in rates || d == todayDate)
    && (forall p :: p in points ==>
          && p.rate == SeriesRate(p.date, saleDate, saleDateRate, rates, todayRate)
          && p.delta == Calculator.Delta(usdAmount, saleDateRate, commission, p.rate))
  }

  /** `Object.keys`: the keys of an object, each once, in some order. */
  method ObjectKeys(m: map<string, real>) returns (keys: seq<string>)
    ensures Distinct(keys)
    ensures forall k :: k in keys <==> k in m
    ensures |keys| == |m.Keys|
  {
    keys := [];
    var rest := m.Keys;
    while rest != {}
      invariant rest <= m.Keys
      invariant forall k :: k in keys <==> k in m && k !in rest
      invariant Distinct(keys)
      invariant |keys| + |rest| == |m.Keys|
      decreases |rest|
    {
      var k :| k in rest;
      keys := keys + [k];
      rest := rest - {k};
    }
  }

  /** `sortedDates.map(...)`: each date with its charted rate and delta. */
  function ToPoints(dates: seq<string>, chartData: map<string, real>,
                    saleDateRate: real, usdAmount: real, commission: real): (points: seq<Point>)
    requires forall d :: d in dates ==> d in chartData
    ensures DatesOf(points) == dates
    ensures forall p :: p in points ==>
              && p.date in chartData
              && p.rate == chartData[p.date]
              && p.delta == Calculator.Delta(usdAmount, saleDateRate, commission, p.rate)
  {
    var points := seq(|dates|, i requires 0 <= i < |dates| =>
                    Point(dates[i],
                          Calculator.Delta(usdAmount, saleDateRate, commission, chartData[dates[i]]),
                          chartData[dates[i]]));
    assert DatesOf(points) == dates;
    points
  }

  /** The body of `updateCharts` between the fetches and the rendering. */
  method AssembleSeries(saleDate: string, saleDateRate: real, rates: map<string, real>,
                        todayDate: string, todayRate: real, usdAmount: real, commission: real)
    returns (points: seq<Point>)
    ensures IsSeries(points, saleDate, saleDateRate, rates, todayDate, todayRate, usdAmount, commission)
    ensures Distinct(DatesOf(points))
    ensures |points| == |{saleDate} + rates.Keys + {todayDate}|
  {
    var chartData := map[saleDate := saleDateRate] + rates;
    if todayDate !in chartData {
      chartData := chartData[todayDate := todayRate];
    }
    ChartDataRates(chartData, saleDate, saleDateRate, rates, todayDate, todayRate);

    var keys := ObjectKeys(chartData);
    var sortedDates := Sort(keys);
    SameMembers(sortedDates, keys);
    points := ToPoints(sortedDates, chartData, saleDateRate, usdAmount, commission);
    assert forall d :: d in DatesOf(points) <==> d in chartData;
    AscendingIsDistinct(DatesOf(points));
  }

  /** The merged object holds exactly the sale date, the historical dates and
      today, each with its charted rate. */
  lemma ChartDataRates(chartData: map<string, real>, saleDate: string, saleDateRate: real,
                       rates: map<string, real>, todayDate: string, todayRate: real)
    requires var seeded := map[saleDate := saleDateRate] + rates;
             chartData == if todayDate in seeded then seeded else seeded[todayDate := todayRate]
    ensures chartData.Keys == {saleDate} + rates.Keys + {todayDate}
    ensures forall d :: d in chartData ==>
              chartData[d] == SeriesRate(d, saleDate, saleDateRate, rates, todayRate)
  {
  }

  /** Two sequences with the same multiset have the same members. */
  lemma SameMembers(s: seq<string>, t: seq<string>)
    requires multiset(s) == multiset(t)
    ensures forall d :: d in s <==> d in t
  {
    forall d
      ensures d in s <==> d in t
    {
      assert d in s <==> d in multiset(s);
      assert d in t <==> d in multiset(t);
    }
  }

  /** The series is determined by its inputs: assembling twice from the same
      inputs gives the same sequence. */
  lemma SeriesDetermined(p1: seq<Point>, p2: seq<Point>, saleDate: string, saleDateRate: real,
                         rates: map<string, real>, todayDate: string, todayRate: real,
                         usdAmount: real, commission: real)
    requires IsSeries(p1, saleDate, saleDateRate, rates, todayDate, todayRate, usdAmount, commission)
    requires IsSeries(p2, saleDate, saleDateRate, rates, todayDate, todayRate, usdAmount, commission)
    ensures p1 == p2
  {
    AscendingUnique(DatesOf(p1), DatesOf(p2));
    forall i | 0 <= i < |p1|
      ensures p1[i] == p2[i]
    {
      assert p1[i].date == DatesOf(p1)[i] == DatesOf(p2)[i] == p2[i].date;
      assert p1[i] in p1 && p2[i] in p2;
    }
  }

  /** When no historical date and not today sorts before the sale date, the
      series starts at the sale date. */
  lemma SaleDateFirst(points: seq<Point>, saleDate: string, saleDateRate: real,
                      rates: map<string, real>, todayDate: string, todayRate: real,
                      usdAmount: real, commission: real)
    requires IsSeries(points, saleDate, saleDateRate, rates, todayDate, todayRate, usdAmount, commission)
    requires forall d :: d in rates && d != saleDate ==> Below(saleDate, d)
    requires todayDate != saleDate ==> Below(saleDate, todayDate)
    ensures |points| > 0 && points[0].date == saleDate
  {
    var dates := DatesOf(points);
    assert saleDate in dates;
    LeastComesFirst(dates, saleDate);
  }

  /** The dates of the example below, in ascending order. */
  lemma ExampleDatesAscending()
    ensures Ascending(["2024-01-01", "2024-01-02", "2024-01-03"])
  {
    var day := "2024-01-0";
    assert day + "1" == "2024-01-01";
    assert day + "2" == "2024-01-02";
    assert day + "3" == "2024-01-03";
    BelowAfterPrefix(day, "1", "2");
    BelowAfterPrefix(day, "1", "3");
    BelowAfterPrefix(day, "2", "3");
  }

  /** The example of a sale on 2024-01-01, one historical rate on 2024-01-02
      and today 2024-01-03: three points, in that order. */
  method ExampleSeries() returns (dates: seq<string>)
    ensures dates == ["2024-01-01", "2024-01-02", "2024-01-03"]
  {
    var points := AssembleSeries("2024-01-01", 0.90, map["2024-01-02" := 0.91],
                                 "2024-01-03", 0.93, 1000.0, 2.0);
    dates := DatesOf(points);
    ExampleDatesAscending();
    AscendingUnique(dates, ["2024-01-01", "2024-01-02", "2024-01-03"]);
  }
}
