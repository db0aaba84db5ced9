/** The Insights page (src/pages/Insights.tsx): the metric, trend and
    breakdown tables selected by the time range, and the per-row arithmetic
    of its two bar charts and of the breakdown table. */
module Insights {
  import opened JsCore

  // ---------------------------------------------------------------------
  // Time ranges and the headline metrics
  // ---------------------------------------------------------------------

  /** '7d' | '30d' | '90d' | 'ytd' | '1y'. */
  datatype TimeRange = SevenDays | ThirtyDays | NinetyDays | YearToDate | OneYear

  datatype Metrics = Metrics(
    totalEnergyCost: real,
    costSavings: real,
    costSavingsPercent: real,
    totalEnergyConsumed: real,
    avgPUE: real,
    avgCarbonIntensity: real,
    carbonReduction: real,
    solarContribution: real,
    batteryThroughput: real,
    peakDemandReduction: real)

  /** `generateMetrics`: the record kept for each time range. */
  function GenerateMetrics(t: TimeRange): (r: Metrics)
    ensures r.costSavingsPercent == 64.0
    ensures r.totalEnergyCost > 0.0 && r.costSavings > 0.0
  {
    match t
    case SevenDays =>
      Metrics(13500.0, 24000.0, 64.0, 860.0, 1.22, 305.0, 3200.0, 22.5, 96.0, 720.0)
    case ThirtyDays =>
      Metrics(54000.0, 96000.0, 64.0, 3600.0, 1.21, 298.0, 32000.0, 23.5, 360.0, 780.0)
    case NinetyDays =>
      Metrics(162000.0, 288000.0, 64.0, 10800.0, 1.23, 302.0, 95000.0, 22.0, 1080.0, 760.0)
    case YearToDate =>
      Metrics(648000.0, 1152000.0, 64.0, 36500.0, 1.24, 308.0, 360000.0, 21.0, 3200.0, 745.0)
    case OneYear =>
      Metrics(720000.0, 1280000.0, 64.0, 43800.0, 1.24, 310.0, 410000.0, 20.5, 3840.0, 740.0)
  }

  /** The savings share shown on the page is exactly the savings over the
      cost the site would have paid without them, for every range. */
  lemma MetricsSavingsConsistent(t: TimeRange)
    ensures var m := GenerateMetrics(t);
      m.costSavings / (m.totalEnergyCost + m.costSavings) * 100.0 == m.costSavingsPercent
  {
  }

  /** Ranges in order of length: 7d, 30d, 90d, YTD, 1y. */
  function RangeOrder(t: TimeRange): nat {
    match t
    case SevenDays => 0
    case ThirtyDays => 1
    case NinetyDays => 2
    case YearToDate => 3
    case OneYear => 4
  }

  /** A longer range never shows a smaller total cost, savings or energy. */
  lemma MetricsGrowWithRange(t: TimeRange, u: TimeRange)
    requires RangeOrder(t) <= RangeOrder(u)
    ensures GenerateMetrics(t).totalEnergyCost <= GenerateMetrics(u).totalEnergyCost
    ensures GenerateMetrics(t).costSavings <= GenerateMetrics(u).costSavings
    ensures GenerateMetrics(t).totalEnergyConsumed <= GenerateMetrics(u).totalEnergyConsumed
  {
  }

  // ---------------------------------------------------------------------
  // Trend series
  // ---------------------------------------------------------------------

  datatype TrendPoint = TrendPoint(
    date: string,
    energyCost: real,
    energyConsumed: real,
    carbonIntensity: real,
    pue: real,
    solarGeneration: real,
    batteryUsage: real,
    savingsAmount: Option<real>,
    savingsPercent: Option<real>)

  /** A point without a savings amount. */
  function Point(date: string, cost: real, energy: real, carbon: real, pue: real,
                 solar: real, battery: real, percent: real): TrendPoint
  {
    TrendPoint(date, cost, energy, carbon, pue, solar, battery, None, Some(percent))
  }

  /** A point that also records its savings amount. */
  function PointWithAmount(date: string, cost: real, energy: real, carbon: real, pue: real,
                           solar: real, battery: real, amount: real, percent: real): TrendPoint
  {
    TrendPoint(date, cost, energy, carbon, pue, solar, battery, Some(amount), Some(percent))
  }

  /** The number of trend points of each range. */
  function TrendLength(t: TimeRange): nat {
    match t
    case SevenDays => 7
    case ThirtyDays => 4
    case NinetyDays => 3
    case YearToDate => 5
    case OneYear => 4
  }

  /** `generateTrendData`: daily, weekly, monthly, two-monthly or quarterly
      points; anything that is not 7d, 30d, 90d or YTD gets the quarters. */
  function GenerateTrendData(t: TimeRange): (r: seq<TrendPoint>)
    ensures |r| == TrendLength(t)
  {
    if t == SevenDays then DailyTrend
    else if t == ThirtyDays then WeeklyTrend
    else if t == NinetyDays then MonthlyTrend
    else if t == YearToDate then TwoMonthTrend
    else QuarterlyTrend
  }

  /** The 7d series: one point per weekday. */
  const DailyTrend: seq<TrendPoint> := [
      Point("Mon", 1920.0, 122.0, 304.0, 1.23, 28.0, 15.0, 64.5),
      Point("Tue", 1950.0, 124.0, 300.0, 1.22, 29.0, 15.0, 64.0),
      Point("Wed", 1880.0, 121.0, 298.0, 1.21, 27.0, 14.0, 65.0),
      Point("Thu", 1940.0, 123.0, 296.0, 1.22, 30.0, 15.0, 63.5),
      Point("Fri", 1980.0, 125.0, 302.0, 1.23, 26.0, 16.0, 63.0),
      Point("Sat", 1890.0, 118.0, 294.0, 1.21, 25.0, 13.0, 64.2),
      Point("Sun", 1950.0, 119.0, 292.0, 1.22, 27.0, 14.0, 63.8)
  ]

  /** The 30d series: four weeks, with savings amounts. */
  const WeeklyTrend: seq<TrendPoint> := [
      PointWithAmount("Week 1", 13200.0, 880.0, 310.0, 1.23, 190.0, 90.0, 24000.0, 64.5),
      PointWithAmount("Week 2", 13400.0, 900.0, 304.0, 1.22, 205.0, 92.0, 23800.0, 64.0),
      PointWithAmount("Week 3", 13600.0, 910.0, 298.0, 1.20, 215.0, 90.0, 24200.0, 63.0),
      PointWithAmount("Week 4", 13800.0, 910.0, 292.0, 1.19, 225.0, 88.0, 24000.0, 63.5)
  ]

  /** The 90d series: three months, with savings amounts. */
  const MonthlyTrend: seq<TrendPoint> := [
      PointWithAmount("Month 1", 54000.0, 3600.0, 305.0, 1.23, 760.0, 360.0, 96000.0, 64.0),
      PointWithAmount("Month 2", 53000.0, 3600.0, 302.0, 1.22, 780.0, 360.0, 94000.0, 64.0),
      PointWithAmount("Month 3", 55000.0, 3600.0, 298.0, 1.21, 800.0, 360.0, 98000.0, 64.0)
  ]

  /** The YTD series: five two-month points. */
  const TwoMonthTrend: seq<TrendPoint> := [
      Point("Jan-Feb", 128000.0, 7300.0, 315.0, 1.25, 1480.0, 640.0, 64.0),
      Point("Mar-Apr", 129000.0, 7300.0, 310.0, 1.24, 1590.0, 640.0, 64.2),
      Point("May-Jun", 130000.0, 7300.0, 305.0, 1.24, 1720.0, 640.0, 64.0),
      Point("Jul-Aug", 131000.0, 7300.0, 302.0, 1.23, 1810.0, 640.0, 64.5),
      Point("Sep-Oct", 130000.0, 7300.0, 308.0, 1.24, 1600.0, 640.0, 63.8)
  ]

  /** The 1y series: four quarters. */
  const QuarterlyTrend: seq<TrendPoint> := [
      Point("Q1", 176000.0, 10950.0, 315.0, 1.25, 2200.0, 960.0, 64.0),
      Point("Q2", 180000.0, 10950.0, 308.0, 1.24, 2520.0, 960.0, 64.0),
      Point("Q3", 182000.0, 10950.0, 305.0, 1.23, 2680.0, 960.0, 64.5),
      Point("Q4", 182000.0, 10950.0, 312.0, 1.24, 2280.0, 960.0, 63.5)
  ]

  // ---------------------------------------------------------------------
  // Performance breakdown
  // ---------------------------------------------------------------------

  datatype PeriodRow = PeriodRow(
    period: string,
    energyCost: real,
    energyConsumed: real,
    avgPUE: real,
    carbonIntensity: real,
    costVsBaseline: real,
    topOptimization: string)

  /** `generatePerformanceBreakdown`: 7d, 30d and 90d have their own rows;
      every other range, YTD included, gets the four quarters. */
  function GeneratePerformanceBreakdown(t: TimeRange): (r: seq<PeriodRow>)
    ensures t == SevenDays ==> |r| == 7
    ensures t == ThirtyDays || t == YearToDate || t == OneYear ==> |r| == 4
    ensures t == NinetyDays ==> |r| == 3
  {
    if t == SevenDays then DailyBreakdown
    else if t == ThirtyDays then WeeklyBreakdown
    else if t == NinetyDays then MonthlyBreakdown
    else QuarterlyBreakdown
  }

  /** The 7d breakdown: one row per day. */
  const DailyBreakdown: seq<PeriodRow> := [
      PeriodRow("Monday (Nov 25)", 1920.0, 122.0, 1.23, 304.0, -64.5, "Peak shaving via battery discharge"),
      PeriodRow("Tuesday (Nov 26)", 1950.0, 124.0, 1.22, 300.0, -64.0, "Solar generation maximized"),
      PeriodRow("Wednesday (Nov 27)", 1880.0, 121.0, 1.21, 298.0, -65.0, "GPU workload shifting to off-peak"),
      PeriodRow("Thursday (Nov 28)", 1940.0, 123.0, 1.22, 296.0, -63.5, "Free cooling enabled during low temps"),
      PeriodRow("Friday (Nov 29)", 1980.0, 125.0, 1.23, 302.0, -63.0, "Battery pre-charging during low prices"),
      PeriodRow("Saturday (Nov 30)", 1890.0, 118.0, 1.21, 294.0, -64.2, "Reduced weekend load profile"),
      PeriodRow("Sunday (Dec 1)", 1950.0, 119.0, 1.22, 292.0, -63.8, "Weekend maintenance window optimization")
  ]

  /** The 30d breakdown: one row per week. */
  const WeeklyBreakdown: seq<PeriodRow> := [
      PeriodRow("Week 1 (Nov 1-7)", 13200.0, 880.0, 1.23, 310.0, -64.5, "Peak shaving via battery discharge"),
      PeriodRow("Week 2 (Nov 8-14)", 13400.0, 900.0, 1.22, 304.0, -64.0, "GPU load shifting + solar optimization"),
      PeriodRow("Week 3 (Nov 15-21)", 13600.0, 910.0, 1.20, 298.0, -63.0, "Enhanced cooling efficiency strategies"),
      PeriodRow("Week 4 (Nov 22-28)", 13800.0, 910.0, 1.19, 292.0, -63.5, "Aggressive battery cycling + workload optimization")
  ]

  /** The 90d breakdown: one row per month. */
  const MonthlyBreakdown: seq<PeriodRow> := [
      PeriodRow("September 2024", 54000.0, 3600.0, 1.24, 305.0, -64.0, "Seasonal cooling transition optimization"),
      PeriodRow("October 2024", 53000.0, 3600.0, 1.23, 302.0, -64.2, "Free cooling mode enabled"),
      PeriodRow("November 2024", 55000.0, 3600.0, 1.22, 298.0, -63.5, "Battery + workload coordination")
  ]

  /** The breakdown every other range gets: one row per quarter. */
  const QuarterlyBreakdown: seq<PeriodRow> := [
      PeriodRow("Q1 2024", 176000.0, 10950.0, 1.25, 315.0, -64.0, "Winter heating recovery systems"),
      PeriodRow("Q2 2024", 180000.0, 10950.0, 1.24, 308.0, -64.0, "Spring solar generation ramp-up"),
      PeriodRow("Q3 2024", 182000.0, 10950.0, 1.23, 305.0, -64.5, "Peak summer solar + battery coordination"),
      PeriodRow("Q4 2024 (partial)", 182000.0, 10950.0, 1.24, 312.0, -63.5, "Fall cooling transition + load management")
  ]

  /** YTD reaches the final branch, so its breakdown is the one-year table. */
  lemma BreakdownYtdIsOneYear()
    ensures GeneratePerformanceBreakdown(YearToDate) == GeneratePerformanceBreakdown(OneYear)
  {
  }

  /** Outside YTD the breakdown lists the trend's periods, cost for cost;
      for YTD the trend has five two-month points while the breakdown has
      the four quarters. */
  lemma BreakdownMatchesTrendCosts(t: TimeRange)
    ensures t != YearToDate ==>
      |GeneratePerformanceBreakdown(t)| == |GenerateTrendData(t)| &&
      forall k :: 0 <= k < |GenerateTrendData(t)| ==>
        GeneratePerformanceBreakdown(t)[k].energyCost == GenerateTrendData(t)[k].energyCost
    ensures |GeneratePerformanceBreakdown(YearToDate)| != |GenerateTrendData(YearToDate)|
  {
  }

  // ---------------------------------------------------------------------
  // The two bar charts
  // ---------------------------------------------------------------------

  /** `array.slice(0, n)`: the first `n` elements, or all when there are fewer. */
  function Take<T>(s: seq<T>, n: nat): (r: seq<T>)
    ensures |r| == if n < |s| then n else |s|
    ensures forall k :: 0 <= k < |r| ==> r[k] == s[k]
  {
    if n < |s| then s[..n] else s
  }

  /** How many rows each chart draws: seven for 7d, four otherwise. That is
      every point of each series but YTD's, which loses its last. */
  function RowLimit(t: TimeRange): (r: nat)
    ensures t != YearToDate ==> r >= |GenerateTrendData(t)|
    ensures t == YearToDate ==> r == |GenerateTrendData(t)| - 1
  {
    if t == SevenDays then 7 else 4
  }

  /** The points both charts draw. */
  function VisibleRows(t: TimeRange): (r: seq<TrendPoint>)
    ensures |r| <= |GenerateTrendData(t)|
    ensures forall k :: 0 <= k < |r| ==> r[k] == GenerateTrendData(t)[k]
  {
    Take(GenerateTrendData(t), RowLimit(t))
  }

  /** Every range but YTD draws its whole series; YTD draws four of its
      five points and never the last. */
  lemma VisibleRowsPerRange(t: TimeRange)
    ensures t != YearToDate ==> VisibleRows(t) == GenerateTrendData(t)
    ensures |VisibleRows(YearToDate)| == 4
    ensures GenerateTrendData(YearToDate)[4] !in VisibleRows(YearToDate)
  {
    var ytd := GenerateTrendData(YearToDate);
    var shown := VisibleRows(YearToDate);
    assert forall k :: 0 <= k < |shown| ==> shown[k].date != ytd[4].date;
  }

  /** `Math.max(...trendData.map(d => d.energyCost))`. */
  function MaxCost(s: seq<TrendPoint>): (r: real)
    requires |s| > 0
    ensures forall k :: 0 <= k < |s| ==> s[k].energyCost <= r
    ensures exists k :: 0 <= k < |s| && s[k].energyCost == r
    decreases |s|
  {
    if |s| == 1 then s[0].energyCost
    else
      var m := MaxCost(s[1..]);
      assert exists k :: 1 <= k < |s| && s[k].energyCost == m by {
        var j :| 0 <= j < |s[1..]| && s[1..][j].energyCost == m;
        assert s[j + 1].energyCost == m;
      }
      Max(s[0].energyCost, m)
  }

  /** The cost bar's width: the point's cost as a percentage of the largest
      cost in the whole series, not only in the drawn rows. */
  function CostWidth(p: TrendPoint, series: seq<TrendPoint>): (r: real)
    requires p in series
    requires MaxCost(series) > 0.0
    ensures r <= 100.0
    ensures r == 100.0 <==> p.energyCost == MaxCost(series)
    ensures p.energyCost > 0.0 ==> r > 0.0
  {
    WidthOfShare(p.energyCost, MaxCost(series));
    p.energyCost / MaxCost(series) * 100.0
  }

  lemma WidthOfShare(x: real, m: real)
    requires 0.0 < m && x <= m
    ensures x / m * 100.0 <= 100.0
    ensures x / m * 100.0 == 100.0 <==> x == m
    ensures x > 0.0 ==> x / m * 100.0 > 0.0
  {
    assert x / m <= 1.0;
    if x / m * 100.0 == 100.0 {
      assert x / m == 1.0;
    }
  }

  /** The savings figure of a row: the explicit percentage whenever it is
      defined (also when it is 0), else the amount's share of cost plus
      amount when the amount is truthy, else 0. */
  function SavingsPercent(p: TrendPoint): (r: real)
    requires p.savingsPercent.None? && Truthy(p.savingsAmount) ==>
               p.energyCost + p.savingsAmount.value != 0.0
    ensures p.savingsPercent.Some? ==> r == p.savingsPercent.value
    ensures p.savingsPercent.None? && !Truthy(p.savingsAmount) ==> r == 0.0
    ensures (p.savingsPercent.None? && Truthy(p.savingsAmount) &&
             p.energyCost > 0.0 && p.savingsAmount.value > 0.0) ==> 0.0 < r < 100.0
  {
    match p.savingsPercent
    case Some(v) => v
    case None =>
      if Truthy(p.savingsAmount) then
        var a := p.savingsAmount.value;
        ShareBelowWhole(a, p.energyCost);
        a / (p.energyCost + a) * 100.0
      else 0.0
  }

  lemma ShareBelowWhole(a: real, c: real)
    requires c + a != 0.0
    ensures c > 0.0 && a > 0.0 ==> 0.0 < a / (c + a) * 100.0 < 100.0
  {
    if c > 0.0 && a > 0.0 {
      assert a / (c + a) < 1.0;
    }
  }

  /** Every series records its percentages, so the amount-based fallback
      is never used by the page's data. */
  lemma SeriesRecordPercentages(t: TimeRange)
    ensures forall k :: 0 <= k < |GenerateTrendData(t)| ==>
      SavingsPercent(GenerateTrendData(t)[k]) == GenerateTrendData(t)[k].savingsPercent.value
  {
  }

  /** The carbon chart's fixed scale and target. */
  const CarbonScale: real := 400.0
  const CarbonTarget: real := 320.0

  /** The carbon bar's width on the fixed 400 g scale. */
  function CarbonWidth(ci: real): (r: real)
    ensures 0.0 <= ci <= CarbonScale ==> 0.0 <= r <= 100.0
  {
    ci / CarbonScale * 100.0
  }

  /** The target marker's position on the same scale. */
  function TargetWidth(): (r: real)
    ensures r == 80.0
  {
    CarbonTarget / CarbonScale * 100.0
  }

  /** `isAboveTarget`: strictly above 320 g, which is exactly a bar that
      reaches past the target marker. */
  predicate IsAboveTarget(ci: real)
    ensures IsAboveTarget(ci) <==> CarbonWidth(ci) > TargetWidth()
  {
    ci > CarbonTarget
  }

  /** A bar is flagged exactly when it extends past the target marker. */
  lemma AboveTargetIffPastMarker(ci: real)
    ensures IsAboveTarget(ci) <==> CarbonWidth(ci) > TargetWidth()
    ensures !IsAboveTarget(CarbonTarget)
  {
  }

  /** No point of any series is above the target. */
  lemma NoPointAboveTarget(t: TimeRange)
    ensures forall k :: 0 <= k < |GenerateTrendData(t)| ==>
      !IsAboveTarget(GenerateTrendData(t)[k].carbonIntensity)
  {
  }

  // ---------------------------------------------------------------------
  // The breakdown table's cost-vs-baseline cell
  // ---------------------------------------------------------------------

  /** How the cell is styled: the sign prefix and whether it is green. */
  datatype BaselineStyle = BaselineStyle(prefix: string, green: bool)

  /** `costVsBaseline > 0 ? '+' : ''`, green when below the baseline and
      red otherwise. */
  function BaselineDisplay(v: real): (r: BaselineStyle)
    ensures r.prefix == "+" <==> v > 0.0
    ensures r.prefix == "" <==> v <= 0.0
    ensures r.green <==> v < 0.0
  {
    BaselineStyle(if v > 0.0 then "+" else "", v < 0.0)
  }

  /** A zero difference is shown without a sign, and in red. */
  lemma ZeroShowsUnsignedRed()
    ensures BaselineDisplay(0.0) == BaselineStyle("", false)
  {
  }

  /** Every breakdown row is below its baseline, so the whole table is
      green with no '+' prefix. */
  lemma BreakdownAllGreen(t: TimeRange)
    ensures forall k :: 0 <= k < |GeneratePerformanceBreakdown(t)| ==>
      BaselineDisplay(GeneratePerformanceBreakdown(t)[k].costVsBaseline) == BaselineStyle("", true)
  {
  }
}
