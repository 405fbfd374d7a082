/** The analytics view's data: per time range, a score and the charts shown for it. */
module AnalyticsTypes {
  import opened Optional

  datatype TimeRange = Day | Week | Month | Year

  /** The range's key as written in the frontend ("day", "week", ...). */
  function RangeName(r: TimeRange): (s: string)
    ensures |s| > 0
  {
    match r
    case Day => "day"
    case Week => "week"
    case Month => "month"
    case Year => "year"
  }

  lemma RangeNameInjective(r1: TimeRange, r2: TimeRange)
    requires RangeName(r1) == RangeName(r2)
    ensures r1 == r2
  {
    assert RangeName(r1)[0] == RangeName(r2)[0];
  }

  datatype ChartType = Line | Bar

  /** One chart; the optional fields are `None` where the object literal leaves them out. */
  datatype ChartData = ChartData(
    id: string,
    chartType: ChartType,
    title: string,
    data: seq<real>,
    yAxisLabel: string,
    description: string,
    descriptionValue: real,
    descriptionSuffix: string,
    showGrid: Option<bool>,
    showPoints: Option<bool>)

  datatype TimeRangeData = TimeRangeData(score: real, charts: seq<ChartData>)

  /** `data` has an entry for every time range. */
  datatype AnalyticsMetric = AnalyticsMetric(averageScore: real, data: map<TimeRange, TimeRangeData>)
}
