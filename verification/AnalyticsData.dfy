/**
 * The analytics hook: the summary it derives from a history snapshot on
 * every refresh, and the duration text it shows for the average.
 */
module AnalyticsData {
  import opened Js
  import opened AnalyticsService

  datatype AnalyticsData = AnalyticsData(
    sessionData: seq<Session>,
    durationChart: ChartData,
    dailyCountChart: ChartData,
    avgDurationChart: ChartData,
    timeDistribution: ChartData,
    completedSessions: seq<Session>,
    totalDuration: int,
    avgDuration: int)

  const NoChart := ChartData([], [])

  predicate IsEmpty(chart: ChartData) { chart.labels == [] && chart.values == [] }

  /**
   * One run of `fetchData` over the history `data`. `today`, `hourOf` and
   * `dateLabel` stand for the clock, the local time zone and the locale.
   */
  function FetchData(data: seq<Session>, today: int, hourOf: int -> Hour, dateLabel: int -> string): (r: AnalyticsData)
    ensures r.sessionData == data
    ensures forall s :: s in r.completedSessions <==> s in data && s.duration.Some?
    ensures r.totalDuration == TotalDuration(r.completedSessions)
    ensures r.completedSessions == [] ==> r.avgDuration == 0
    ensures var n := |r.completedSessions|;
            n > 0 ==> r.avgDuration * (2 * n) - n <= 2 * r.totalDuration < r.avgDuration * (2 * n) + n
    ensures r.completedSessions == [] <==>
              IsEmpty(r.durationChart) && IsEmpty(r.dailyCountChart) && IsEmpty(r.avgDurationChart) && IsEmpty(r.timeDistribution)
    ensures r.completedSessions == Completed(data)
    ensures r.avgDuration == Average(r.totalDuration, |r.completedSessions|)
    ensures r.completedSessions != [] ==>
              && r.durationChart == SessionDurationChart(data, 10)
              && r.dailyCountChart == DailySessionCountChart(data, 7, today, dateLabel)
              && r.avgDurationChart == DailyAverageDurationChart(data, 7, today, dateLabel)
              && r.timeDistribution == SessionTimeDistribution(data, hourOf)
    ensures r.completedSessions != [] ==>
              && |r.durationChart.values| == Min(10, |r.completedSessions|)
              && |r.dailyCountChart.values| == 7 && |r.avgDurationChart.values| == 7
  {
    var completedSessions := Completed(data);
    var totalDuration := TotalDuration(completedSessions);
    var avgDuration := Average(totalDuration, |completedSessions|);
    if |completedSessions| > 0 then
      var durationChart := SessionDurationChart(data, 10);
      var dailyCountChart := DailySessionCountChart(data, 7, today, dateLabel);
      var avgDurationChart := DailyAverageDurationChart(data, 7, today, dateLabel);
      var timeDistribution := SessionTimeDistribution(data, hourOf);
      AnalyticsData(data, durationChart, dailyCountChart, avgDurationChart, timeDistribution,
        completedSessions, totalDuration, avgDuration)
    else
      AnalyticsData(data, NoChart, NoChart, NoChart, NoChart, completedSessions, totalDuration, avgDuration)
  }

  /** The whole minutes and the leftover whole seconds of a duration in milliseconds. */
  function DurationParts(ms: int): (p: (int, int))
    ensures ms >= 0 ==> 0 <= p.0 && 0 <= p.1 < 60 && ms - 1000 < p.0 * 60000 + p.1 * 1000 <= ms
  {
    (ms / 60000, Rem(ms, 60000) / 1000)
  }

  /** `formatDuration(ms)` */
  function FormatDuration(ms: int): (r: string)
    ensures r == "0 min" <==> ms == 0
    ensures ms > 0 && DurationParts(ms).0 > 0 ==>
              r == NatToString(DurationParts(ms).0) + " min " + NatToString(DurationParts(ms).1) + " sec"
    ensures ms > 0 && DurationParts(ms).0 == 0 ==> r == NatToString(DurationParts(ms).1) + " sec"
  {
    if ms == 0 then "0 min"
    else
      var (minutes, seconds) := DurationParts(ms);
      if minutes > 0 then IntToString(minutes) + " min " + IntToString(seconds) + " sec"
      else
        var r := IntToString(seconds) + " sec";
        assert r[|r| - 1] == 'c';
        r
  }

  lemma FormatDurationExamples()
    ensures FormatDuration(0) == "0 min"
    ensures FormatDuration(90_500) == "1 min 30 sec"
    ensures FormatDuration(59_999) == "59 sec"
  {
    assert DurationParts(90_500) == (1, 30);
    assert NatToString(1) == "1";
    assert NatToString(30) == "30" by { assert NatToString(3) == "3"; }
    assert DurationParts(59_999) == (0, 59);
    assert NatToString(59) == "59" by { assert NatToString(5) == "5"; }
  }
}
