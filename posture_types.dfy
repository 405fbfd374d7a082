/**
 * `convertPostureMetricsToAnalyticsMetric`: per-range posture statistics
 * turned into the analytics view's charts. The source spells the same object
 * out once per range; here it is built once, for a range given as a parameter.
 */
module PostureTypes {
  import opened Optional
  import opened AnalyticsTypes

  datatype PostureStats = PostureStats(
    averageScore: real,
    degradationData: seq<real>,
    eyeFixData: seq<real>,
    averageDegradationTime: real,
    averageEyeFixDuration: real)

  datatype PostureMetrics = PostureMetrics(day: PostureStats, week: PostureStats, month: PostureStats, year: PostureStats)

  function Stats(m: PostureMetrics, r: TimeRange): PostureStats
  {
    match r
    case Day => m.day
    case Week => m.week
    case Month => m.month
    case Year => m.year
  }

  const DegradationIdPrefix := "posture-degradation-"
  const EyeFixIdPrefix := "eye-fix-"

  function DegradationChart(s: PostureStats, r: TimeRange): ChartData
  {
    ChartData(DegradationIdPrefix + RangeName(r), Line, "Posture Degradation", s.degradationData, "Score",
      "You usually hit poor posture after", s.averageDegradationTime, "minutes", Some(true), Some(true))
  }

  function EyeFixChart(s: PostureStats, r: TimeRange): ChartData
  {
    ChartData(EyeFixIdPrefix + RangeName(r), Bar, "Eye Fix Duration", s.eyeFixData, "Minutes",
      "You average", s.averageEyeFixDuration, "minutes before taking a break", Some(false), None)
  }

  /** One range's entry: the range's score, the degradation line chart, then the eye-fix bar chart. */
  function RangeData(s: PostureStats, r: TimeRange): (d: TimeRangeData)
    ensures d.score == s.averageScore && |d.charts| == 2
    ensures d.charts[0].id == DegradationIdPrefix + RangeName(r) && d.charts[1].id == EyeFixIdPrefix + RangeName(r)
    ensures d.charts[0].chartType == Line && d.charts[0].data == s.degradationData
    ensures d.charts[0].descriptionValue == s.averageDegradationTime
    ensures d.charts[0].yAxisLabel == "Score" && d.charts[0].showGrid == Some(true)
    ensures d.charts[1].chartType == Bar && d.charts[1].data == s.eyeFixData
    ensures d.charts[1].descriptionValue == s.averageEyeFixDuration
    ensures d.charts[1].yAxisLabel == "Minutes" && d.charts[1].showGrid == Some(false)
  {
    TimeRangeData(s.averageScore, [DegradationChart(s, r), EyeFixChart(s, r)])
  }

  /** Every range gets an entry built from that range's statistics; the headline score is the week's. */
  function Convert(m: PostureMetrics): (a: AnalyticsMetric)
    ensures a.averageScore == m.week.averageScore
    ensures a.data.Keys == {Day, Week, Month, Year}
    ensures forall r :: r in a.data ==> a.data[r] == RangeData(Stats(m, r), r)
  {
    AnalyticsMetric(m.week.averageScore,
      map[Day := RangeData(m.day, Day), Week := RangeData(m.week, Week),
          Month := RangeData(m.month, Month), Year := RangeData(m.year, Year)])
  }

  lemma PrefixedInjective(p: string, a: string, b: string)
    requires p + a == p + b
    ensures a == b
  {
    assert a == (p + a)[|p|..];
    assert b == (p + b)[|p|..];
  }

  /** The id of chart i of range r. */
  function ChartId(m: PostureMetrics, r: TimeRange, i: nat): string
    requires i < 2
  {
    assert r.Day? || r.Week? || r.Month? || r.Year?;
    Convert(m).data[r].charts[i].id
  }

  function IdPrefix(i: nat): string
  {
    if i == 0 then DegradationIdPrefix else EyeFixIdPrefix
  }

  lemma ChartIdSpelling(m: PostureMetrics, r: TimeRange, i: nat)
    requires i < 2
    ensures ChartId(m, r, i) == IdPrefix(i) + RangeName(r)
  {
    assert r in Convert(m).data;
  }

  /** The eight chart ids ("posture-degradation-" or "eye-fix-" followed by the range) are pairwise distinct. */
  lemma ChartIdsDistinct(m: PostureMetrics, r1: TimeRange, i: nat, r2: TimeRange, j: nat)
    requires i < 2 && j < 2 && (r1, i) != (r2, j)
    ensures ChartId(m, r1, i) != ChartId(m, r2, j)
  {
    ChartIdSpelling(m, r1, i);
    ChartIdSpelling(m, r2, j);
    var id1, id2 := IdPrefix(i) + RangeName(r1), IdPrefix(j) + RangeName(r2);
    if i != j {
      assert id1[0] == IdPrefix(i)[0] != IdPrefix(j)[0] == id2[0];
    } else if id1 == id2 {
      PrefixedInjective(IdPrefix(i), RangeName(r1), RangeName(r2));
      RangeNameInjective(r1, r2);
    }
  }
}
