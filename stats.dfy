/** `services/stats.service.js`: one row per reporting period with its
    counters and rates, the aggregates over all rows (totals, overall rates,
    per-period averages, first-half/second-half trends), and the insights
    derived from them. Rates are exact rationals rounded to two decimals. */
module Stats {
  import opened Wrappers
  import opened Json
  import opened Numbers

  datatype Metric = Accepted | Delivered | Failed | Opened | Clicked | Unsubscribed | Complained | Stored

  /** The keys of `totals`, in order. */
  const TOTAL_METRICS: seq<Metric> := [Accepted, Delivered, Failed, Opened, Clicked, Unsubscribed, Complained, Stored]
  /** The metrics `calculateTrends` compares. */
  const TREND_METRICS: seq<Metric> := [Accepted, Delivered, Failed, Opened, Clicked]

  function Index(m: Metric): (i: nat)
    ensures i < |TOTAL_METRICS| && TOTAL_METRICS[i] == m
  {
    match m
    case Accepted => 0
    case Delivered => 1
    case Failed => 2
    case Opened => 3
    case Clicked => 4
    case Unsubscribed => 5
    case Complained => 6
    case Stored => 7
  }

  function MetricName(m: Metric): string {
    match m
    case Accepted => "accepted"
    case Delivered => "delivered"
    case Failed => "failed"
    case Opened => "opened"
    case Clicked => "clicked"
    case Unsubscribed => "unsubscribed"
    case Complained => "complained"
    case Stored => "stored"
  }

  datatype Rates = Rates(deliveryRate: real, openRate: real, clickRate: real,
                         bounceRate: real, complaintRate: real, unsubscribeRate: real)

  datatype StatRow = StatRow(time: Value, accepted: int, delivered: int, failed: int, opens: int,
                             clicked: int, unsubscribed: int, complained: int, stored: int, rates: Rates)

  function Count(row: StatRow, m: Metric): int {
    match m
    case Accepted => row.accepted
    case Delivered => row.delivered
    case Failed => row.failed
    case Opened => row.opens
    case Clicked => row.clicked
    case Unsubscribed => row.unsubscribed
    case Complained => row.complained
    case Stored => row.stored
  }

  /** `v || 0` read as a number; counters that are not numbers read as 0. */
  function NumberOr0(v: Value): int {
    if v.Num? then v.n else 0
  }

  /** `stat[name]?.total || 0`. */
  function Counter(stat: Value, name: string): int {
    NumberOr0(Get(Get(stat, name), "total"))
  }

  /** `calculateRate(numerator, denominator)`: a percentage, and 0 whenever
      the denominator is 0. */
  function CalculateRate(numerator: int, denominator: int): (r: real)
    ensures denominator == 0 ==> r == 0.0
    ensures numerator == 0 ==> r == 0.0
    ensures 0 <= numerator && 0 < denominator ==> r >= 0.0
  {
    if denominator == 0 then 0.0
    else Round2(numerator as real / denominator as real * 100.0)
  }

  /** A rate never exceeds 100% when the part does not exceed the whole. */
  lemma RateAtMostHundred(numerator: int, denominator: int)
    requires 0 <= numerator <= denominator
    ensures 0.0 <= CalculateRate(numerator, denominator) <= 100.0
  {
    if denominator > 0 {
      var x := numerator as real / denominator as real * 100.0;
      assert numerator as real / denominator as real <= 1.0;
      assert x * 100.0 <= 10000.0;
      assert RoundHalfUp(x * 100.0) <= 10000;
    }
  }

  function RatesOf(accepted: int, delivered: int, failed: int, opens: int,
                   clicked: int, unsubscribed: int, complained: int): Rates {
    Rates(CalculateRate(delivered, accepted), CalculateRate(opens, delivered), CalculateRate(clicked, delivered),
          CalculateRate(failed, accepted), CalculateRate(complained, delivered), CalculateRate(unsubscribed, delivered))
  }

  /** One element of `statsData.stats.map(...)`. */
  function ProcessStatRow(stat: Value): StatRow {
    var accepted := Counter(stat, "accepted");
    var delivered := Counter(stat, "delivered");
    var failed := Counter(stat, "failed");
    var opens := Counter(stat, "opened");
    var clicked := Counter(stat, "clicked");
    var unsubscribed := Counter(stat, "unsubscribed");
    var complained := Counter(stat, "complained");
    StatRow(Get(stat, "time"), accepted, delivered, failed, opens, clicked, unsubscribed, complained,
            Counter(stat, "stored"), RatesOf(accepted, delivered, failed, opens, clicked, unsubscribed, complained))
  }

  /** The sum of metric `m` over `rows`, accumulated front to back. */
  function SumOf(rows: seq<StatRow>, m: Metric): int {
    if rows == [] then 0 else SumOf(rows[..|rows| - 1], m) + Count(rows[|rows| - 1], m)
  }

  lemma {:induction false} SumOfAppend(rows: seq<StatRow>, more: seq<StatRow>, m: Metric)
    ensures SumOf(rows + more, m) == SumOf(rows, m) + SumOf(more, m)
    decreases |more|
  {
    if more == [] {
      assert rows + more == rows;
    } else {
      assert (rows + more)[..|rows + more| - 1] == rows + more[..|more| - 1];
      SumOfAppend(rows, more[..|more| - 1], m);
    }
  }

  const ALL_METRICS: set<Metric> := {Accepted, Delivered, Failed, Opened, Clicked, Unsubscribed, Complained, Stored}

  lemma AllMetricsListed()
    ensures forall m: Metric :: m in ALL_METRICS
  {
    forall m: Metric
      ensures m in ALL_METRICS
    {
      assert TOTAL_METRICS[Index(m)] == m;
    }
  }

  function TotalsOf(rows: seq<StatRow>): (totals: map<Metric, int>)
    ensures totals.Keys == ALL_METRICS
  {
    map m | m in ALL_METRICS :: SumOf(rows, m)
  }

  function AveragesOf(rows: seq<StatRow>): (averages: map<Metric, int>)
    requires rows != []
    ensures averages.Keys == ALL_METRICS
  {
    map m | m in ALL_METRICS :: RoundedAverage(SumOf(rows, m), |rows|)
  }

  datatype Trend = Trend(change: int, changePercent: real, trend: string)

  /** `Math.floor(n / 2)` rows in the first half, the rest in the second. */
  function Halves(rows: seq<StatRow>): (h: (seq<StatRow>, seq<StatRow>))
    ensures h.0 + h.1 == rows
    ensures |h.0| == |rows| / 2 && |h.1| == |rows| - |rows| / 2
  {
    (rows[..|rows| / 2], rows[|rows| / 2..])
  }

  function Average(rows: seq<StatRow>, m: Metric): real
    requires rows != []
  {
    SumOf(rows, m) as real / |rows| as real
  }

  function TrendOf(first: seq<StatRow>, second: seq<StatRow>, m: Metric): Trend
    requires first != [] && second != []
  {
    var firstAvg := Average(first, m);
    var change := Average(second, m) - firstAvg;
    var changePercent := if firstAvg > 0.0 then change / firstAvg * 100.0 else 0.0;
    Trend(RoundHalfUp(change), Round2(changePercent),
          if change > 0.0 then "up" else if change < 0.0 then "down" else "stable")
  }

  /** `calculateTrends(stats)`: nothing below 4 rows, and from 4 rows on one
      trend for each of the five trend metrics and for no other. */
  function CalculateTrends(rows: seq<StatRow>): (t: map<Metric, Trend>)
    ensures |rows| < 4 ==> t == map[]
    ensures |rows| >= 4 ==> forall m :: m in t <==> m in TREND_METRICS
  {
    if |rows| < 4 then map[]
    else
      var (first, second) := Halves(rows);
      map m | m in TREND_METRICS :: TrendOf(first, second, m)
  }

  datatype Aggregates = Aggregates(totals: map<Metric, int>, overallRates: Option<Rates>,
                                   averages: map<Metric, int>, trends: map<Metric, Trend>)

  function OverallRates(totals: map<Metric, int>): Rates
    requires totals.Keys == ALL_METRICS
  {
    RatesOf(totals[Accepted], totals[Delivered], totals[Failed], totals[Opened],
            totals[Clicked], totals[Unsubscribed], totals[Complained])
  }

  /** What `calculateAggregates(stats)` returns; with no rows, empty totals,
      averages and trends, and no overall rates at all. */
  function AggregatesOf(rows: seq<StatRow>): Aggregates {
    if rows == [] then Aggregates(map[], None, map[], map[])
    else
      var totals := TotalsOf(rows);
      Aggregates(totals, Some(OverallRates(totals)), AveragesOf(rows), CalculateTrends(rows))
  }

  /** Each total is its metric summed over the rows, and each average is
      that total divided by the number of rows, rounded to the nearest
      integer with halves rounded up. */
  lemma AggregatesMeaning(rows: seq<StatRow>, m: Metric)
    requires rows != []
    ensures var a := AggregatesOf(rows);
            m in a.totals && m in a.averages && a.overallRates.Some?
            && a.totals[m] == SumOf(rows, m)
            && a.averages[m] == RoundedAverage(a.totals[m], |rows|)
  {
    AllMetricsListed();
    var a := AggregatesOf(rows);
    assert a.totals == TotalsOf(rows) && a.averages == AveragesOf(rows);
  }

  lemma MultiplyBounds(lo: real, x: real, hi: real, n: real)
    requires lo <= x < hi && n > 0.0
    ensures lo * n <= x * n < hi * n
  {
  }

  /** The sign of the difference of two averages, without division. */
  lemma CompareAverages(a: int, p: int, b: int, q: int)
    requires p > 0 && q > 0
    ensures var d := b as real / q as real - a as real / p as real;
            (d > 0.0 <==> b * p > a * q) && (d < 0.0 <==> b * p < a * q)
  {
    var d := b as real / q as real - a as real / p as real;
    var pq := p as real * q as real;
    assert d * pq == b as real * p as real - a as real * q as real;
    assert (b * p) as real == b as real * p as real;
    assert (a * q) as real == a as real * q as real;
    if d > 0.0 {
      MultiplyBounds(0.0, d, d + 1.0, pq);
    } else if d < 0.0 {
      MultiplyBounds(d, d, 0.0, pq);
    }
  }

  /** The trend label compares the two halves' averages: "up" exactly when
      the second half's average is higher, "down" exactly when it is lower. */
  lemma TrendLabel(rows: seq<StatRow>, m: Metric)
    requires |rows| >= 4 && m in TREND_METRICS
    ensures var (first, second) := Halves(rows);
            var t := CalculateTrends(rows)[m];
            (t.trend == "up" <==> SumOf(second, m) * |first| > SumOf(first, m) * |second|)
            && (t.trend == "down" <==> SumOf(second, m) * |first| < SumOf(first, m) * |second|)
            && (t.trend == "stable" <==> SumOf(second, m) * |first| == SumOf(first, m) * |second|)
  {
    var (first, second) := Halves(rows);
    CompareAverages(SumOf(first, m), |first|, SumOf(second, m), |second|);
  }

  /** One pass of the inner `Object.keys(totals).forEach`: every key of
      `totals` grows by the row's counter. */
  method AddRow(totals: map<Metric, int>, row: StatRow) returns (next: map<Metric, int>)
    requires totals.Keys == ALL_METRICS
    ensures next.Keys == ALL_METRICS
    ensures forall m :: m in next ==> next[m] == totals[m] + Count(row, m)
  {
    AllMetricsListed();
    next := totals;
    var j := 0;
    while j < |TOTAL_METRICS|
      invariant 0 <= j <= |TOTAL_METRICS|
      invariant next.Keys == ALL_METRICS
      invariant forall m :: m in next ==> next[m] == totals[m] + (if Index(m) < j then Count(row, m) else 0)
    {
      var key := TOTAL_METRICS[j];
      next := next[key := next[key] + Count(row, key)];
      j := j + 1;
    }
  }

  /** The totals loop: every metric summed over all rows. */
  method SumTotals(rows: seq<StatRow>) returns (totals: map<Metric, int>)
    ensures totals == TotalsOf(rows)
  {
    AllMetricsListed();
    totals := map m | m in ALL_METRICS :: 0;
    var i := 0;
    while i < |rows|
      invariant 0 <= i <= |rows|
      invariant totals.Keys == ALL_METRICS
      invariant forall m :: m in totals ==> totals[m] == SumOf(rows[..i], m)
    {
      totals := AddRow(totals, rows[i]);
      assert rows[..i + 1][..i] == rows[..i];
      i := i + 1;
    }
    assert rows[..|rows|] == rows;
  }

  /** The averages loop: each total over the number of rows, rounded. */
  method AveragesLoop(rows: seq<StatRow>, totals: map<Metric, int>) returns (averages: map<Metric, int>)
    requires rows != [] && totals == TotalsOf(rows)
    ensures averages == AveragesOf(rows)
  {
    AllMetricsListed();
    averages := map[];
    var k := 0;
    while k < |TOTAL_METRICS|
      invariant 0 <= k <= |TOTAL_METRICS|
      invariant forall m :: m in averages <==> Index(m) < k
      invariant forall m :: m in averages ==> averages[m] == RoundedAverage(totals[m], |rows|)
    {
      var key := TOTAL_METRICS[k];
      averages := averages[key := RoundedAverage(totals[key], |rows|)];
      k := k + 1;
    }
  }

  /** `calculateAggregates(stats)`: the totals in a nested loop over rows and
      keys, then the averages, then the trends. */
  method CalculateAggregates(rows: seq<StatRow>) returns (aggregates: Aggregates)
    ensures aggregates == AggregatesOf(rows)
  {
    if |rows| == 0 {
      return Aggregates(map[], None, map[], map[]);
    }
    var totals := SumTotals(rows);
    var averages := AveragesLoop(rows, totals);
    aggregates := Aggregates(totals, Some(OverallRates(totals)), averages, CalculateTrends(rows));
  }

  datatype TimeRange = TimeRange(start: Value, end: Value, resolution: Value)
  datatype ProcessedStats = ProcessedStats(timeRange: TimeRange, stats: seq<StatRow>, aggregates: Aggregates)

  /** The index of the first `null` or `undefined` element, or the length
      when there is none. */
  function FirstNullish(items: seq<Value>): (k: nat)
    ensures k <= |items|
    ensures forall j :: 0 <= j < k ==> !(items[j].Null? || items[j].Undefined?)
    ensures k < |items| ==> items[k].Null? || items[k].Undefined?
  {
    if items == [] || items[0].Null? || items[0].Undefined? then 0 else 1 + FirstNullish(items[1..])
  }

  /** `processStats(statsData)`: one row per element of `statsData.stats`
      when that is an array, none otherwise. Reading a field of a `null`
      body or row throws. */
  function ProcessStats(data: Value): (r: Result<ProcessedStats, string>)
    ensures r.Ok? ==> r.value.aggregates == AggregatesOf(r.value.stats)
    ensures r.Ok? && Get(data, "stats").Arr? ==> |r.value.stats| == |Get(data, "stats").items|
    ensures r.Ok? && !Get(data, "stats").Arr? ==> r.value.stats == []
    ensures r.Err? <==> data.Null? || data.Undefined?
                        || (Get(data, "stats").Arr?
                            && exists i :: 0 <= i < |Get(data, "stats").items|
                                           && (Get(data, "stats").items[i].Null? || Get(data, "stats").items[i].Undefined?))
  {
    if data.Null? || data.Undefined? then Err("TypeError: Cannot read properties of " + ToString(data) + " (reading 'start')")
    else
      var raw := Get(data, "stats");
      var range := TimeRange(Get(data, "start"), Get(data, "end"), Get(data, "resolution"));
      if raw.Arr? then
        var k := FirstNullish(raw.items);
        if k < |raw.items|
        then Err("TypeError: Cannot read properties of " + ToString(raw.items[k]) + " (reading 'time')")
        else
          var rows := seq(|raw.items|, i requires 0 <= i < |raw.items| => ProcessStatRow(raw.items[i]));
          Ok(ProcessedStats(range, rows, AggregatesOf(rows)))
      else Ok(ProcessedStats(range, [], AggregatesOf([])))
  }

  /** A row's counters come from the matching `stat` fields, missing ones as 0. */
  lemma ProcessedRowCounters(data: Value, i: nat, m: Metric)
    requires ProcessStats(data).Ok? && Get(data, "stats").Arr? && i < |Get(data, "stats").items|
    ensures Count(ProcessStats(data).value.stats[i], m) == Counter(Get(data, "stats").items[i], MetricName(m))
    ensures Get(Get(data, "stats").items[i], MetricName(m)).Undefined?
            ==> Count(ProcessStats(data).value.stats[i], m) == 0
  {
    var stat := Get(data, "stats").items[i];
    assert ProcessStats(data).value.stats[i] == ProcessStatRow(stat);
    match m
    case Accepted =>
    case Delivered =>
    case Failed =>
    case Opened =>
    case Clicked =>
    case Unsubscribed =>
    case Complained =>
    case Stored =>
  }

  /** An insight's type, category and (for trends) metric; the message
      text is not modelled. */
  datatype Category = Delivery | Engagement | Reputation | ListQuality | Trends

  function CategoryName(c: Category): string {
    match c
    case Delivery => "delivery"
    case Engagement => "engagement"
    case Reputation => "reputation"
    case ListQuality => "list_quality"
    case Trends => "trends"
  }

  datatype Insight = Insight(kind: string, category: Category, metric: Option<Metric>)

  function DeliveryInsight(rate: real): seq<Insight> {
    if rate < 95.0 then [Insight("warning", Delivery, None)]
    else if rate > 98.0 then [Insight("success", Delivery, None)] else []
  }

  function EngagementInsight(rate: real): seq<Insight> {
    if rate < 15.0 then [Insight("warning", Engagement, None)]
    else if rate > 25.0 then [Insight("success", Engagement, None)] else []
  }

  function ReputationInsight(rate: real): seq<Insight> {
    if rate > 0.1 then [Insight("alert", Reputation, None)] else []
  }

  function ListQualityInsight(rate: real): seq<Insight> {
    if rate > 2.0 then [Insight("warning", ListQuality, None)] else []
  }

  function Abs(x: real): real {
    if x < 0.0 then -x else x
  }

  /** One insight per trend whose change exceeds 20%, in key order. */
  function TrendInsights(trends: map<Metric, Trend>, metrics: seq<Metric>): seq<Insight> {
    if metrics == [] then []
    else
      var m := metrics[0];
      (if m in trends && Abs(trends[m].changePercent) > 20.0
       then [Insight(if trends[m].trend == "up" then "info" else "warning", Trends, Some(m))] else [])
      + TrendInsights(trends, metrics[1..])
  }

  function InsightsOf(r: Rates, trends: map<Metric, Trend>): seq<Insight> {
    DeliveryInsight(r.deliveryRate) + EngagementInsight(r.openRate) + ReputationInsight(r.complaintRate)
    + ListQualityInsight(r.bounceRate) + TrendInsights(trends, TREND_METRICS)
  }

  /** `generateInsights(stats)` as written: no aggregates give no insights,
      but for an empty stats list the aggregates have no `overallRates`, and
      reading `deliveryRate` of it throws. */
  function GenerateInsightsAsWritten(aggregates: Option<Aggregates>): (r: Result<seq<Insight>, string>)
    ensures aggregates.None? ==> r == Ok([])
    ensures r.Err? <==> aggregates.Some? && aggregates.value.overallRates.None?
    ensures r.Ok? ==> r.value == GenerateInsights(aggregates)
  {
    match aggregates
    case None => Ok([])
    case Some(a) =>
      match a.overallRates
      case None => Err("TypeError: Cannot read properties of undefined (reading 'deliveryRate')")
      case Some(r) => Ok(InsightsOf(r, a.trends))
  }

  /** The insights of one category, in order. */
  function Select(insights: seq<Insight>, category: Category): (r: seq<Insight>)
    ensures |r| <= |insights|
  {
    if insights == [] then []
    else (if insights[0].category == category then [insights[0]] else []) + Select(insights[1..], category)
  }

  lemma {:induction false} SelectAppend(a: seq<Insight>, b: seq<Insight>, category: Category)
    ensures Select(a + b, category) == Select(a, category) + Select(b, category)
  {
    if a == [] {
      assert a + b == b;
    } else {
      var head := if a[0].category == category then [a[0]] else [];
      assert (a + b)[0] == a[0] && (a + b)[1..] == a[1..] + b;
      SelectAppend(a[1..], b, category);
      assert Select(a + b, category) == head + (Select(a[1..], category) + Select(b, category));
      assert head + (Select(a[1..], category) + Select(b, category))
             == (head + Select(a[1..], category)) + Select(b, category);
    }
  }

  lemma {:induction false} SelectTrends(trends: map<Metric, Trend>, metrics: seq<Metric>, category: Category)
    ensures Select(TrendInsights(trends, metrics), category)
            == if category == Trends then TrendInsights(trends, metrics) else []
  {
    if metrics != [] {
      var m := metrics[0];
      var head := if m in trends && Abs(trends[m].changePercent) > 20.0
                  then [Insight(if trends[m].trend == "up" then "info" else "warning", Trends, Some(m))] else [];
      SelectAppend(head, TrendInsights(trends, metrics[1..]), category);
      SelectTrends(trends, metrics[1..], category);
    }
  }

  /** `generateInsights(stats)` with missing rates read as "no insight". */
  function GenerateInsights(aggregates: Option<Aggregates>): (insights: seq<Insight>)
    ensures aggregates.None? || aggregates.value.overallRates.None? ==> insights == []
    ensures aggregates.Some? && aggregates.value.overallRates.Some? ==>
              var r := aggregates.value.overallRates.value;
              Select(insights, Delivery) == DeliveryInsight(r.deliveryRate)
              && Select(insights, Engagement) == EngagementInsight(r.openRate)
              && Select(insights, Reputation) == ReputationInsight(r.complaintRate)
              && Select(insights, ListQuality) == ListQualityInsight(r.bounceRate)
              && Select(insights, Trends) == TrendInsights(aggregates.value.trends, TREND_METRICS)
  {
    match aggregates
    case None => []
    case Some(a) =>
      match a.overallRates
      case None => []
      case Some(r) =>
        InsightsByCategory(r, a.trends);
        InsightsOf(r, a.trends)
  }

  /** Each category of the insights is exactly what its own rule yields. */
  lemma InsightsByCategory(r: Rates, trends: map<Metric, Trend>)
    ensures var insights := InsightsOf(r, trends);
            Select(insights, Delivery) == DeliveryInsight(r.deliveryRate)
            && Select(insights, Engagement) == EngagementInsight(r.openRate)
            && Select(insights, Reputation) == ReputationInsight(r.complaintRate)
            && Select(insights, ListQuality) == ListQualityInsight(r.bounceRate)
            && Select(insights, Trends) == TrendInsights(trends, TREND_METRICS)
  {
    SplitCategory(r, trends, Delivery);
    SplitCategory(r, trends, Engagement);
    SplitCategory(r, trends, Reputation);
    SplitCategory(r, trends, ListQuality);
    SplitCategory(r, trends, Trends);
  }

  /** The insights one category's rule yields. */
  function RuleFor(r: Rates, trends: map<Metric, Trend>, category: Category): seq<Insight> {
    match category
    case Delivery => DeliveryInsight(r.deliveryRate)
    case Engagement => EngagementInsight(r.openRate)
    case Reputation => ReputationInsight(r.complaintRate)
    case ListQuality => ListQualityInsight(r.bounceRate)
    case Trends => TrendInsights(trends, TREND_METRICS)
  }

  lemma SplitCategory(r: Rates, trends: map<Metric, Trend>, category: Category)
    ensures Select(InsightsOf(r, trends), category) == RuleFor(r, trends, category)
  {
    var d, e, c, q, t := RuleFor(r, trends, Delivery), RuleFor(r, trends, Engagement),
      RuleFor(r, trends, Reputation), RuleFor(r, trends, ListQuality), RuleFor(r, trends, Trends);
    assert InsightsOf(r, trends) == d + e + c + q + t;
    SelectFive(d, e, c, q, t, category);
    SelectRule(r, trends, Delivery, category);
    SelectRule(r, trends, Engagement, category);
    SelectRule(r, trends, Reputation, category);
    SelectRule(r, trends, ListQuality, category);
    SelectRule(r, trends, Trends, category);
    match category
    case Delivery => assert d + [] + [] + [] + [] == d;
    case Engagement => assert [] + e + [] + [] + [] == e;
    case Reputation => assert [] + [] + c + [] + [] == c;
    case ListQuality => assert [] + [] + [] + q + [] == q;
    case Trends => assert [] + [] + [] + [] + t == t;
  }

  /** Each rule yields insights of its own category only. */
  lemma SelectRule(r: Rates, trends: map<Metric, Trend>, own: Category, category: Category)
    ensures Select(RuleFor(r, trends, own), category) == if category == own then RuleFor(r, trends, own) else []
  {
    if own == Trends {
      SelectTrends(trends, TREND_METRICS, category);
    } else {
      SelectOne(RuleFor(r, trends, own), own, category);
    }
  }

  lemma SelectFive(d: seq<Insight>, e: seq<Insight>, c: seq<Insight>, q: seq<Insight>, t: seq<Insight>, category: Category)
    ensures Select(d + e + c + q + t, category)
            == Select(d, category) + Select(e, category) + Select(c, category) + Select(q, category) + Select(t, category)
  {
    SelectAppend(d + e + c + q, t, category);
    SelectAppend(d + e + c, q, category);
    SelectAppend(d + e, c, category);
    SelectAppend(d, e, category);
  }

  /** At most one insight, of the given category. */
  predicate AtMostOneOf(insights: seq<Insight>, own: Category) {
    |insights| <= 1 && (insights != [] ==> insights[0].category == own)
  }

  lemma SelectOne(insights: seq<Insight>, own: Category, category: Category)
    requires AtMostOneOf(insights, own)
    ensures Select(insights, category) == if category == own then insights else []
  {
    if insights != [] {
      assert insights[1..] == [];
    }
  }

  /** An empty stats list makes the insights as written throw, where the
      corrected version gives none. */
  lemma EmptyStatsBreakInsights()
    ensures GenerateInsightsAsWritten(Some(AggregatesOf([]))).Err?
    ensures GenerateInsights(Some(AggregatesOf([]))) == []
  {
  }

  /** With at least one row the insights as written always succeed. */
  lemma InsightsDefinedForNonEmptyStats(rows: seq<StatRow>)
    requires rows != []
    ensures GenerateInsightsAsWritten(Some(AggregatesOf(rows))).Ok?
  {
  }
}
