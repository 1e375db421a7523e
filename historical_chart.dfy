/** The historical chart of the dashboard (src/HistoricalChart.js): rows
    fetched for a date range, summary statistics of the selected metrics,
    and the placeholder series drawn when the history cannot be fetched. */
module HistoricalChart {
  import opened Common
  import opened Text
  import opened MetricSelection
  import opened LiveChart

  /** A history row: metric name to value, `None` standing for JSON null;
      a metric the row lacks is undefined. */
  type HistoryRow = seq<(string, Option<real>)>

  // ---------------------------------------------------------------------------
  // calculateSummary
  // ---------------------------------------------------------------------------

  /** The defined, non-null values of a metric over the rows, in row order. */
  function ValuesOf(rows: seq<HistoryRow>, metric: string): (vs: seq<real>)
    ensures |vs| <= |rows|
  {
    if |rows| == 0 then []
    else
      var rest := ValuesOf(rows[..|rows| - 1], metric);
      match Lookup<Option<real>>(rows[|rows| - 1], metric)
      case Some(Some(x)) => rest + [x]
      case _ => rest
  }

  function Sum(vs: seq<real>): real
  {
    if |vs| == 0 then 0.0 else Sum(vs[..|vs| - 1]) + vs[|vs| - 1]
  }

  /** `Math.min(...vs)`. */
  function SeqMin(vs: seq<real>): (m: real)
    requires |vs| > 0
    ensures m in vs && forall v :: v in vs ==> m <= v
  {
    if |vs| == 1 then vs[0]
    else
      var rest := SeqMin(vs[..|vs| - 1]);
      assert forall v :: v in vs ==> v in vs[..|vs| - 1] || v == vs[|vs| - 1];
      if vs[|vs| - 1] < rest then vs[|vs| - 1] else rest
  }

  /** `Math.max(...vs)`. */
  function SeqMax(vs: seq<real>): (m: real)
    requires |vs| > 0
    ensures m in vs && forall v :: v in vs ==> v <= m
  {
    if |vs| == 1 then vs[0]
    else
      var rest := SeqMax(vs[..|vs| - 1]);
      assert forall v :: v in vs ==> v in vs[..|vs| - 1] || v == vs[|vs| - 1];
      if vs[|vs| - 1] > rest then vs[|vs| - 1] else rest
  }

  /** The summary of one metric. */
  datatype Stats = Stats(min: real, max: real, avg: real, total: real)

  function StatsOf(vs: seq<real>): Stats
    requires |vs| > 0
  {
    Stats(SeqMin(vs), SeqMax(vs), Sum(vs) / (|vs| as real), Sum(vs))
  }

  /** A sum lies between the count times any lower and any upper bound. */
  lemma {:induction false} SumBetween(vs: seq<real>, lo: real, hi: real)
    requires forall v :: v in vs ==> lo <= v <= hi
    ensures (|vs| as real) * lo <= Sum(vs) <= (|vs| as real) * hi
  {
    if |vs| > 0 {
      var init := vs[..|vs| - 1];
      var n := |init| as real;
      assert forall v :: v in init ==> v in vs;
      SumBetween(init, lo, hi);
      assert vs[|vs| - 1] in vs;
      assert (|vs| as real) * lo == n * lo + lo;
      assert (|vs| as real) * hi == n * hi + hi;
    }
  }

  /** Dividing by a positive count keeps bounds on the quotient. */
  lemma MeanBetween(total: real, n: real, lo: real, hi: real)
    requires n > 0.0 && n * lo <= total <= n * hi
    ensures lo <= total / n <= hi
    ensures total / n * n == total
  {
    var a := total / n;
    assert a * n == total;
  }

  /** The minimum and maximum are values of the metric bounding all the
      others, the average lies between them, and the total is the average
      times the count. */
  lemma StatsSpec(vs: seq<real>)
    requires |vs| > 0
    ensures var s := StatsOf(vs);
      s.min in vs && s.max in vs
      && (forall v :: v in vs ==> s.min <= v <= s.max)
      && s.min <= s.avg <= s.max
      && s.avg * (|vs| as real) == s.total
  {
    var s := StatsOf(vs);
    SumBetween(vs, s.min, s.max);
    MeanBetween(s.total, |vs| as real, s.min, s.max);
  }

  /** The summary entries of the selected metrics, one per metric that has
      at least one value, in selection order. */
  function SummaryEntries(rows: seq<HistoryRow>, selected: seq<string>): seq<(string, Stats)>
  {
    if |selected| == 0 then []
    else
      var acc := SummaryEntries(rows, selected[..|selected| - 1]);
      var metric := selected[|selected| - 1];
      var vs := ValuesOf(rows, metric);
      if |vs| > 0 then Assign(acc, metric, StatsOf(vs)) else acc
  }

  /** `calculateSummary`: no summary for missing or empty data. */
  function SummaryOf(data: Option<seq<HistoryRow>>, selected: seq<string>): (r: Option<seq<(string, Stats)>>)
    ensures r.None? <==> data.None? || |data.value| == 0
  {
    if data.None? || |data.value| == 0 then None
    else Some(SummaryEntries(data.value, selected))
  }

  /** A metric is summarised exactly when it is selected and has a value,
      and then with the statistics of its values. */
  lemma {:induction false} SummaryLookup(rows: seq<HistoryRow>, selected: seq<string>, metric: string)
    ensures Lookup(SummaryEntries(rows, selected), metric)
            == if metric in selected && |ValuesOf(rows, metric)| > 0 then Some(StatsOf(ValuesOf(rows, metric))) else None
  {
    if |selected| > 0 {
      var init := selected[..|selected| - 1];
      SummaryLookup(rows, init, metric);
      assert forall m :: m in selected <==> m in init || m == selected[|selected| - 1];
    }
  }

  // ---------------------------------------------------------------------------
  // generateMockData
  // ---------------------------------------------------------------------------

  /** The time label of a placeholder point: "i:00" by hour, the date i days
      after the range start by day, "Month i+1" otherwise. */
  datatype MockTime = Clock(text: string) | DayAfterStart(days: nat) | MonthLabel(text: string)

  /** How many placeholder points a granularity gets; `diffDays` is the
      length of the range in whole days, rounded up. */
  function PointCount(granularity: string, diffDays: nat): nat
  {
    var points := 24;
    var points1 := if granularity == "day" then diffDays else points;
    if granularity == "month" then 12 else points1
  }

  function MockTimestamp(granularity: string, i: nat): MockTime
  {
    if granularity == "hour" then Clock(NatToString(i) + ":00")
    else if granularity == "day" then DayAfterStart(i)
    else MonthLabel("Month " + NatToString(i + 1))
  }

  /** The counted loop of `generateMockData`, keeping each point's time
      label; the point's metric values are random and are not modelled. */
  method GenerateMockTimes(granularity: string, diffDays: nat) returns (times: seq<MockTime>)
    ensures |times| == PointCount(granularity, diffDays)
    ensures forall i :: 0 <= i < |times| ==> times[i] == MockTimestamp(granularity, i)
  {
    var points := 24;
    if granularity == "day" {
      points := diffDays;
    }
    if granularity == "month" {
      points := 12;
    }
    times := [];
    var i := 0;
    while i < points
      invariant 0 <= i <= points
      invariant |times| == i
      invariant forall k :: 0 <= k < i ==> times[k] == MockTimestamp(granularity, k)
    {
      var t;
      if granularity == "hour" {
        t := Clock(NatToString(i) + ":00");
      } else if granularity == "day" {
        t := DayAfterStart(i);
      } else {
        t := MonthLabel("Month " + NatToString(i + 1));
      }
      times := times + [t];
      i := i + 1;
    }
  }

  /** A day of hourly points, one point per day of the range, a year of
      monthly points; any other granularity falls back to 24 points. */
  lemma PointCounts(diffDays: nat, other: string)
    requires other != "day" && other != "month"
    ensures PointCount("hour", diffDays) == 24
    ensures PointCount("day", diffDays) == diffDays
    ensures PointCount("month", diffDays) == 12
    ensures PointCount(other, diffDays) == 24
  {
  }

  lemma SuffixCancels(a: string, b: string, s: string)
    requires a + s == b + s
    ensures a == b
  {
    assert a == (a + s)[..|a|];
    assert b == (b + s)[..|b|];
  }

  lemma PrefixCancels(s: string, a: string, b: string)
    requires s + a == s + b
    ensures a == b
  {
    assert a == (s + a)[|s|..];
    assert b == (s + b)[|s|..];
  }

  /** Different points of a placeholder series carry different time labels. */
  lemma MockTimestampsDistinct(granularity: string, i: nat, j: nat)
    requires i != j
    ensures MockTimestamp(granularity, i) != MockTimestamp(granularity, j)
  {
    if granularity == "hour" {
      if NatToString(i) + ":00" == NatToString(j) + ":00" {
        SuffixCancels(NatToString(i), NatToString(j), ":00");
        NatToStringInjective(i, j);
      }
    } else if granularity != "day" {
      if "Month " + NatToString(i + 1) == "Month " + NatToString(j + 1) {
        PrefixCancels("Month ", NatToString(i + 1), NatToString(j + 1));
        NatToStringInjective(i + 1, j + 1);
      }
    }
  }

  // ---------------------------------------------------------------------------
  // The metric list
  // ---------------------------------------------------------------------------

  /** The inverter fields the historical chart offers, in its order. */
  const InverterFields: seq<string> := ["PV1_V", "PV1_I", "PV2_V", "PV2_I", "Vbat", "Ibat", "Vout", "Iout", "Pout"]

  /** The metrics offered from the start. */
  const InitialMetrics: seq<Metric> := [
    Metric("total_pv_power", "Total PV Power (W)", "Calculated"),
    Metric("battery_soc", "Battery SoC (%)", "Calculated"),
    Metric("battery_voltage", "Battery Voltage (V)", "Calculated"),
    Metric("battery_power", "Battery Power (W)", "Calculated"),
    Metric("consumption_power", "Consumption Power (W)", "Calculated"),
    Metric("daily_energy", "Daily Energy (kWh)", "Calculated"),
    Metric("INVD_PV1_V", "Inverter PV1 Voltage (V)", "Inverter"),
    Metric("INVD_PV1_I", "Inverter PV1 Current (A)", "Inverter"),
    Metric("INVD_PV2_V", "Inverter PV2 Voltage (V)", "Inverter"),
    Metric("INVD_PV2_I", "Inverter PV2 Current (A)", "Inverter"),
    Metric("INVD_Vbat", "Inverter Battery Voltage (V)", "Inverter"),
    Metric("INVD_Ibat", "Inverter Battery Current (A)", "Inverter"),
    Metric("INVD_Vout", "Inverter Output Voltage (V)", "Inverter"),
    Metric("INVD_Iout", "Inverter Output Current (A)", "Inverter"),
    Metric("INVD_Pout", "Inverter Output Power (W)", "Inverter")]

  /** The historical chart's inverter metrics have the column ids and the
      names the live chart gives the same inverter fields. */
  lemma InverterMetricsAgreeWithLiveChart(assignments: Option<seq<(string, seq<string>)>>)
    ensures |InitialMetrics| == 6 + |InverterFields|
    ensures forall k :: 0 <= k < |InverterFields| ==>
      InitialMetrics[6 + k].id == FieldKey("INVD", InverterFields[k])
      && InitialMetrics[6 + k].name == ReadableName("INVD", InverterFields[k], assignments)
  {
    InverterLabelKeysDistinct();
    forall k | 0 <= k < |InverterFields|
      ensures InitialMetrics[6 + k].id == FieldKey("INVD", InverterFields[k])
      ensures InitialMetrics[6 + k].name == ReadableName("INVD", InverterFields[k], assignments)
    {
      InverterRowsAligned(k);
      LookupAt(InverterLabels, k);
    }
  }

  lemma InverterLabelKeysDistinct()
    ensures forall i, j :: 0 <= i < j < |InverterLabels| ==> InverterLabels[i].0 != InverterLabels[j].0
  {
  }

  /** The k-th inverter metric, label and field line up. */
  lemma InverterRowsAligned(k: nat)
    requires k < |InverterFields|
    ensures InverterLabels[k] == (InverterFields[k], InitialMetrics[6 + k].name)
    ensures InitialMetrics[6 + k].id == FieldKey("INVD", InverterFields[k])
  {
  }

  /** Looking up the key of an entry no earlier entry shares finds that entry. */
  lemma {:induction false} LookupAt<V>(entries: seq<(string, V)>, k: nat)
    requires k < |entries|
    requires forall j :: 0 <= j < k ==> entries[j].0 != entries[k].0
    ensures Lookup(entries, entries[k].0) == Some(entries[k].1)
  {
    if k > 0 {
      assert entries[1..][k - 1] == entries[k];
      LookupAt(entries[1..], k - 1);
    }
  }

  // ---------------------------------------------------------------------------
  // The component's state
  // ---------------------------------------------------------------------------

  /** The historical chart's state: its rows, the selected metric ids, the
      offered metrics and the current summary. */
  class HistoricalChartView {
    var chartData: seq<HistoryRow>
    var selectedMetrics: seq<string>
    var availableMetrics: seq<Metric>
    var summary: Option<seq<(string, Stats)>>

    ghost predicate Valid()
      reads this
    {
      |selectedMetrics| <= MaxSelected && Distinct(selectedMetrics)
    }

    constructor()
      ensures Valid()
      ensures chartData == [] && selectedMetrics == ["total_pv_power"]
      ensures availableMetrics == InitialMetrics && summary == None
    {
      chartData := [];
      selectedMetrics := ["total_pv_power"];
      availableMetrics := InitialMetrics;
      summary := None;
    }

    /** Rows fetched for the range are shown and summarised. */
    method ShowData(data: seq<HistoryRow>)
      modifies this
      ensures chartData == data
      ensures summary == SummaryOf(Some(data), selectedMetrics)
      ensures selectedMetrics == old(selectedMetrics) && availableMetrics == old(availableMetrics)
    {
      chartData := data;
      summary := SummaryOf(Some(data), selectedMetrics);
    }

    /** `handleMetricToggle`. */
    method ToggleMetric(id: string)
      requires Valid()
      modifies this
      ensures Valid()
      ensures selectedMetrics == Toggle(old(selectedMetrics), id)
      ensures chartData == old(chartData) && availableMetrics == old(availableMetrics) && summary == old(summary)
    {
      ToggleKeepsDistinct(selectedMetrics, id);
      selectedMetrics := Toggle(selectedMetrics, id);
    }
  }
}
