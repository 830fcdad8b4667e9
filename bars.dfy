/** One symbol's daily bars, as the pipeline receives them. */
module Bars {

  /** An ISO calendar week; weeks are ordered by year, then week number. */
  datatype WeekKey = WeekKey(year: int, week: int)

  predicate WeekBefore(a: WeekKey, b: WeekKey)
  {
    a.year < b.year || (a.year == b.year && a.week < b.week)
  }

  /** A daily bar. The calendar is an input: `month` numbers the bar's calendar
      month consecutively (year * 12 + month - 1), so the month before `m` is
      `m - 1`, and `week` is the bar's ISO (year, week). */
  datatype Bar = Bar(open: real, high: real, low: real, close: real, volume: real,
                     month: int, week: WeekKey)

  function Closes(bars: seq<Bar>): (s: seq<real>)
    ensures |s| == |bars| && forall t :: 0 <= t < |bars| ==> s[t] == bars[t].close
  {
    seq(|bars|, t requires 0 <= t < |bars| => bars[t].close)
  }

  function Volumes(bars: seq<Bar>): (s: seq<real>)
    ensures |s| == |bars| && forall t :: 0 <= t < |bars| ==> s[t] == bars[t].volume
  {
    seq(|bars|, t requires 0 <= t < |bars| => bars[t].volume)
  }

  function Months(bars: seq<Bar>): (s: seq<int>)
    ensures |s| == |bars| && forall t :: 0 <= t < |bars| ==> s[t] == bars[t].month
  {
    seq(|bars|, t requires 0 <= t < |bars| => bars[t].month)
  }

  function Weeks(bars: seq<Bar>): (s: seq<WeekKey>)
    ensures |s| == |bars| && forall t :: 0 <= t < |bars| ==> s[t] == bars[t].week
  {
    seq(|bars|, t requires 0 <= t < |bars| => bars[t].week)
  }

  /** High never below Low: true of every bar a market publishes. */
  ghost predicate WellFormed(bars: seq<Bar>)
  {
    forall t :: 0 <= t < |bars| ==> bars[t].low <= bars[t].high
  }
}
