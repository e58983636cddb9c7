/** The cost panel of the dashboard: the daily cost table with its running
    total, the cost summary over the last 24 hours, 7 days and 30 days, and
    the averages shown in the panel's header and period analysis. */
module Cost {
  import opened Optional
  import opened Seqs
  import opened Stats
  import opened Timeline
  import opened Tracker

  /** One row of the daily cost table. */
  datatype DailyCostRow = DailyCostRow(
    day: int,
    totalCost: real,
    queries: nat,
    avgCostPerQuery: Option<real>,
    cumulativeCost: real)

  /** The costs of day `d`, with the running total from day `lo` up to and including `d`. */
  function DayCost(rows: seq<CostRecord>, lo: int, d: int): (r: DailyCostRow)
    ensures r.day == d
    ensures r.totalCost == SumOf(InDay(rows, CostStampOf, d), CostOf)
    ensures r.queries == |InDay(rows, CostStampOf, d)|
    ensures r.avgCostPerQuery.None? <==> r.queries == 0
    ensures r.avgCostPerQuery.Some? ==> Scale(r.queries, r.avgCostPerQuery.value) == r.totalCost
    ensures r.cumulativeCost == DaysTotal(rows, CostStampOf, CostOf, lo, d)
  {
    var day := InDay(rows, CostStampOf, d);
    var total := SumOf(day, CostOf);
    DailyCostRow(d, total, |day|, PerItem(total, |day|), DaysTotal(rows, CostStampOf, CostOf, lo, d))
  }

  /** The rows of days `hi` down to `lo`. */
  function CostDaysDown(rows: seq<CostRecord>, hi: int, lo: int): (r: seq<DailyCostRow>)
    ensures |r| == if hi < lo then 0 else hi - lo + 1
    ensures forall i :: 0 <= i < |r| ==> r[i].day == hi - i
    decreases hi - lo
  {
    if hi < lo then [] else [DayCost(rows, lo, hi)] + CostDaysDown(rows, hi - 1, lo)
  }

  /** Each row of the list is the cost row of its own day. */
  lemma {:induction false} CostDaysDownRows(rows: seq<CostRecord>, hi: int, lo: int)
    ensures forall i :: 0 <= i < |CostDaysDown(rows, hi, lo)| ==>
              CostDaysDown(rows, hi, lo)[i] == DayCost(rows, lo, CostDaysDown(rows, hi, lo)[i].day)
    decreases hi - lo
  {
    if lo <= hi {
      CostDaysDownRows(rows, hi - 1, lo);
      var r, rest := CostDaysDown(rows, hi, lo), CostDaysDown(rows, hi - 1, lo);
      assert r == [DayCost(rows, lo, hi)] + rest;
      forall i | 1 <= i < |r| ensures r[i] == DayCost(rows, lo, r[i].day) {
        assert r[i] == rest[i - 1];
      }
    }
  }

  /** The daily cost table (`resample('D')`, running total in ascending day
      order, then sorted latest first): empty for an empty table; otherwise
      one row for every calendar day from the last down to the first,
      including days without any query, whose average is undefined. */
  function AnalyzeDailyCosts(rows: seq<CostRecord>): (r: seq<DailyCostRow>)
    ensures rows == [] ==> r == []
    ensures rows != [] ==> |r| == LastDay(rows, CostStampOf) - FirstDay(rows, CostStampOf) + 1
    ensures rows != [] ==> forall i :: 0 <= i < |r| ==> r[i].day == LastDay(rows, CostStampOf) - i
    ensures rows != [] ==> forall i :: 0 <= i < |r| ==> r[i] == DayCost(rows, FirstDay(rows, CostStampOf), r[i].day)
  {
    if rows == [] then []
    else
      var lo, hi := FirstDay(rows, CostStampOf), LastDay(rows, CostStampOf);
      DaySpan(rows, CostStampOf);
      CostDaysDownRows(rows, hi, lo);
      CostDaysDown(rows, hi, lo)
  }

  /** The running total on the latest day (the first row) is the total cost of the table. */
  lemma LatestCumulativeIsTotal(rows: seq<CostRecord>)
    requires rows != []
    ensures AnalyzeDailyCosts(rows)[0].cumulativeCost == SumOf(rows, CostOf)
  {
    var lo, hi := FirstDay(rows, CostStampOf), LastDay(rows, CostStampOf);
    DaySpan(rows, CostStampOf);
    DaysPartition(rows, CostStampOf, CostOf, lo, hi);
  }

  /** With non-negative costs, the running total never grows going down the
      table (towards earlier days). */
  lemma CumulativeMonotone(rows: seq<CostRecord>, i: nat, j: nat)
    requires forall k :: 0 <= k < |rows| ==> rows[k].cost >= 0.0
    requires i <= j < |AnalyzeDailyCosts(rows)|
    ensures AnalyzeDailyCosts(rows)[j].cumulativeCost <= AnalyzeDailyCosts(rows)[i].cumulativeCost
  {
    var r := AnalyzeDailyCosts(rows);
    var lo, hi := FirstDay(rows, CostStampOf), LastDay(rows, CostStampOf);
    DaysTotalMonotone(rows, CostStampOf, CostOf, lo, r[j].day, r[i].day);
  }

  /** Every day's cost lies in the table: the per-day totals add up to the total cost. */
  lemma DailyCostsAddUp(rows: seq<CostRecord>)
    requires rows != []
    ensures DaysTotal(rows, CostStampOf, CostOf, FirstDay(rows, CostStampOf), LastDay(rows, CostStampOf))
         == SumOf(rows, CostOf)
  {
    DaySpan(rows, CostStampOf);
    DaysPartition(rows, CostStampOf, CostOf, FirstDay(rows, CostStampOf), LastDay(rows, CostStampOf));
  }

  /** The windows of the cost panel: rows strictly after `now` minus 24 hours, 7 days and 30 days. */
  function Last24h(rows: seq<CostRecord>, now: int): seq<CostRecord> { Since(rows, CostStampOf, now - 24 * SecondsPerHour) }
  function Last7d(rows: seq<CostRecord>, now: int): seq<CostRecord> { Since(rows, CostStampOf, now - 7 * SecondsPerDay) }
  function Last30d(rows: seq<CostRecord>, now: int): seq<CostRecord> { Since(rows, CostStampOf, now - 30 * SecondsPerDay) }

  /** The windows are nested: each narrower window is a selection from the wider one. */
  lemma WindowsNested(rows: seq<CostRecord>, now: int)
    ensures Last24h(Last7d(rows, now), now) == Last24h(rows, now)
    ensures Last7d(Last30d(rows, now), now) == Last7d(rows, now)
  {
    SinceNested(rows, CostStampOf, now - 7 * SecondsPerDay, now - 24 * SecondsPerHour);
    SinceNested(rows, CostStampOf, now - 30 * SecondsPerDay, now - 7 * SecondsPerDay);
  }

  /** With non-negative costs the window sums are ordered and bounded by the total cost. */
  lemma WindowSumsOrdered(rows: seq<CostRecord>, now: int)
    requires forall k :: 0 <= k < |rows| ==> rows[k].cost >= 0.0
    ensures SumOf(Last24h(rows, now), CostOf) <= SumOf(Last7d(rows, now), CostOf)
    ensures SumOf(Last7d(rows, now), CostOf) <= SumOf(Last30d(rows, now), CostOf)
    ensures SumOf(Last30d(rows, now), CostOf) <= SumOf(rows, CostOf)
  {
    SinceSumMonotone(rows, CostStampOf, CostOf, now - 7 * SecondsPerDay, now - 24 * SecondsPerHour);
    SinceSumMonotone(rows, CostStampOf, CostOf, now - 30 * SecondsPerDay, now - 7 * SecondsPerDay);
    SinceSumAtMost(rows, CostStampOf, CostOf, now - 30 * SecondsPerDay);
  }

  /** A window's sum spread over `days` days, and 0 for an empty window. */
  function WindowDailyAverage(window: seq<CostRecord>, days: nat): (r: real)
    requires days > 0
    ensures window == [] ==> r == 0.0
    ensures window != [] ==> Scale(days, r) == SumOf(window, CostOf)
  {
    if window == [] then 0.0
    else
      ScaleShare(days, SumOf(window, CostOf));
      SumOf(window, CostOf) / days as real
  }

  /** The dictionary returned by `get_cost_summary` for a non-empty table. */
  datatype CostSummary = CostSummary(
    totalCost: real,
    avgCostPerQuery: real,
    last24hCost: real,
    last7dCost: real,
    last30dCost: real,
    dailyAverage: real,
    totalQueries: nat,
    costTrend: Option<real>)

  /** The last 24 hours against the average day of the last week: 0 when the
      week is empty, and undefined (a division by zero) when the week's costs
      sum to 0. */
  function CostTrend(day: seq<CostRecord>, week: seq<CostRecord>): (r: Option<real>)
    ensures week == [] ==> r == Some(0.0)
    ensures r.None? <==> week != [] && SumOf(week, CostOf) == 0.0
    ensures r.Some? && week != [] ==>
              r.value * SumOf(week, CostOf) == 7.0 * SumOf(day, CostOf)
  {
    if week == [] then Some(0.0)
    else
      var weekly := SumOf(week, CostOf);
      if weekly == 0.0 then None
      else
        TrendIdentity(SumOf(day, CostOf), weekly);
        Some(SumOf(day, CostOf) / (weekly / 7.0))
  }

  lemma TrendIdentity(day: real, week: real)
    requires week != 0.0
    ensures day / (week / 7.0) * week == 7.0 * day
  {
  }

  /** The cost summary at time `now`: nothing (`{}`) for an empty table;
      otherwise the total, the mean cost per query between the cheapest and
      the dearest query, the three window sums, the 30-day daily average, the
      number of queries and the trend. */
  function GetCostSummary(rows: seq<CostRecord>, now: int): (r: Option<CostSummary>)
    ensures r.None? <==> rows == []
    ensures r.Some? ==> r.value.totalQueries == |rows|
    ensures r.Some? ==> r.value.totalCost == SumOf(rows, CostOf)
    ensures r.Some? ==> MinOf(rows, CostOf) <= r.value.avgCostPerQuery <= MaxOf(rows, CostOf)
    ensures r.Some? ==> Scale(|rows|, r.value.avgCostPerQuery) == r.value.totalCost
    ensures r.Some? ==> r.value.last24hCost == SumOf(Last24h(rows, now), CostOf)
    ensures r.Some? ==> r.value.last7dCost == SumOf(Last7d(rows, now), CostOf)
    ensures r.Some? ==> r.value.last30dCost == SumOf(Last30d(rows, now), CostOf)
    ensures r.Some? ==> r.value.dailyAverage == WindowDailyAverage(Last30d(rows, now), 30)
    ensures r.Some? ==> r.value.costTrend == CostTrend(Last24h(rows, now), Last7d(rows, now))
  {
    if rows == [] then None
    else
      var month := Last30d(rows, now);
      Some(CostSummary(
        SumOf(rows, CostOf),
        MeanOf(rows, CostOf),
        SumOf(Last24h(rows, now), CostOf),
        SumOf(Last7d(rows, now), CostOf),
        SumOf(month, CostOf),
        WindowDailyAverage(month, 30),
        |rows|,
        CostTrend(Last24h(rows, now), Last7d(rows, now))))
  }

  /** The figures of the cost panel's header and period analysis. */
  datatype CostFigures = CostFigures(
    totalCost: real,
    dailyAverage: real,
    last24hCost: real,
    last24hDelta: real,
    avgCostPerQuery: real,
    weekDailyAverage: real,
    monthDailyAverage: real,
    allTimeDailyAverage: real)

  /** The number of whole days between the first and the last query
      (`(max - min).days`), plus one: the all-time divisor. */
  function AllTimeDays(rows: seq<CostRecord>): (n: nat)
    requires rows != []
    ensures n >= 1
  {
    (LatestOf(rows, CostStampOf) - EarliestOf(rows, CostStampOf)) / SecondsPerDay + 1
  }

  /** The all-time divisor counts elapsed whole days, not calendar days: it is
      at most the number of rows of the daily table, and at most one fewer. */
  lemma AllTimeDaysAgainstCalendar(rows: seq<CostRecord>)
    requires rows != []
    ensures LastDay(rows, CostStampOf) - FirstDay(rows, CostStampOf) <= AllTimeDays(rows)
    ensures AllTimeDays(rows) <= LastDay(rows, CostStampOf) - FirstDay(rows, CostStampOf) + 1
  {
    var a, b := EarliestOf(rows, CostStampOf), LatestOf(rows, CostStampOf);
    assert SecondsPerDay * ((b - a) / SecondsPerDay) <= b - a < SecondsPerDay * ((b - a) / SecondsPerDay + 1);
  }

  /** The panel's figures at time `now`, shown only for a non-empty table. */
  function CostDisplayFigures(rows: seq<CostRecord>, now: int): (r: Option<CostFigures>)
    ensures r.None? <==> rows == []
    ensures r.Some? ==> r.value.dailyAverage == r.value.monthDailyAverage
    ensures r.Some? ==> r.value.last24hDelta == r.value.last24hCost - r.value.dailyAverage
    ensures r.Some? ==> Scale(AllTimeDays(rows), r.value.allTimeDailyAverage) == r.value.totalCost
    ensures r.Some? ==> r.value.weekDailyAverage == WindowDailyAverage(Last7d(rows, now), 7)
  {
    if rows == [] then None
    else
      var total := SumOf(rows, CostOf);
      var dailyAvg := WindowDailyAverage(Last30d(rows, now), 30);
      var last24h := SumOf(Last24h(rows, now), CostOf);
      ScaleShare(AllTimeDays(rows), total);
      Some(CostFigures(
        total,
        dailyAvg,
        last24h,
        last24h - dailyAvg,
        MeanOf(rows, CostOf),
        WindowDailyAverage(Last7d(rows, now), 7),
        dailyAvg,
        total / AllTimeDays(rows) as real))
  }

  /** The panel and the summary agree on the figures they share. */
  lemma FiguresAgreeWithSummary(rows: seq<CostRecord>, now: int)
    requires rows != []
    ensures CostDisplayFigures(rows, now).value.totalCost == GetCostSummary(rows, now).value.totalCost
    ensures CostDisplayFigures(rows, now).value.dailyAverage == GetCostSummary(rows, now).value.dailyAverage
    ensures CostDisplayFigures(rows, now).value.last24hCost == GetCostSummary(rows, now).value.last24hCost
    ensures CostDisplayFigures(rows, now).value.avgCostPerQuery == GetCostSummary(rows, now).value.avgCostPerQuery
  {
  }
}
