/** Central pivot ranges of engine/indicators.py: the monthly band, computed once
    from the calendar month before the last bar's month, and the weekly band,
    computed per row from the ISO week before the row's own. */
module Cpr {
  import opened Wrappers
  import opened Windows
  import opened Bars

  /** High, low and last close of one calendar period. */
  datatype PeriodAgg = PeriodAgg(high: real, low: real, close: real)

  /** A pivot band: top and bottom lines (undefined without a prior period) and the narrow flag. */
  datatype Band = Band(top: Option<real>, bottom: Option<real>, narrow: bool)

  const NoBand := Band(None, None, false)

  /** The aggregates of the rows whose key is `k` (`groupby` with max, min and last);
      undefined when no row has that key. */
  function GroupAgg<K(==)>(bars: seq<Bar>, keys: seq<K>, k: K): Option<PeriodAgg>
    requires |keys| == |bars|
  {
    if bars == [] then None
    else
      var n := |bars| - 1;
      var rest := GroupAgg(bars[..n], keys[..n], k);
      if keys[n] != k then rest
      else match rest
        case None => Some(PeriodAgg(bars[n].high, bars[n].low, bars[n].close))
        case Some(a) => Some(PeriodAgg(Max2(a.high, bars[n].high), Min2(a.low, bars[n].low), bars[n].close))
  }

  /** The group aggregate exists iff some row has the key; it is then the highest high
      and the lowest low of those rows, and the close of the last of them. */
  lemma {:induction false} GroupAggSpec<K>(bars: seq<Bar>, keys: seq<K>, k: K)
    requires |keys| == |bars|
    ensures GroupAgg(bars, keys, k).Some? <==> k in keys
    ensures GroupAgg(bars, keys, k).Some? ==>
      var a := GroupAgg(bars, keys, k).value;
      && (forall t :: 0 <= t < |bars| && keys[t] == k ==> a.low <= bars[t].low && bars[t].high <= a.high)
      && (exists t :: 0 <= t < |bars| && keys[t] == k && bars[t].high == a.high)
      && (exists t :: 0 <= t < |bars| && keys[t] == k && bars[t].low == a.low)
      && (exists t :: 0 <= t < |bars| && keys[t] == k && bars[t].close == a.close
                      && forall u :: t < u < |bars| ==> keys[u] != k)
  {
    if bars != [] {
      var n := |bars| - 1;
      GroupAggSpec(bars[..n], keys[..n], k);
      assert keys == keys[..n] + [keys[n]];
      var rest := GroupAgg(bars[..n], keys[..n], k);
      if keys[n] == k && rest.Some? {
        var a := rest.value;
        var ta :| 0 <= ta < n && keys[ta] == k && bars[ta].high == a.high;
        var tb :| 0 <= tb < n && keys[tb] == k && bars[tb].low == a.low;
        assert keys[..n][ta] == k && keys[..n][tb] == k;
      } else if keys[n] != k && rest.Some? {
        var a := rest.value;
        var ta :| 0 <= ta < n && keys[..n][ta] == k && bars[..n][ta].high == a.high;
        var tb :| 0 <= tb < n && keys[..n][tb] == k && bars[..n][tb].low == a.low;
        var tc :| 0 <= tc < n && keys[..n][tc] == k && bars[..n][tc].close == a.close
                  && forall u :: tc < u < n ==> keys[..n][u] != k;
        assert keys[ta] == k && keys[tb] == k && keys[tc] == k;
      }
    }
  }

  /** The pivot of a period: the mean of its high, low and close. */
  function Pivot(a: PeriodAgg): real { (a.high + a.low + a.close) / 3.0 }

  /** Pivot (H+L+C)/3, bottom central line (H+L)/2, top central line 2*pivot - bc;
      the band runs from the lower to the higher of the two lines and is narrow when
      the lines are closer than 0.5% of the period's close. */
  function BandOf(a: PeriodAgg): (b: Band)
    ensures b.top.Some? && b.bottom.Some?
  {
    var pivot := Pivot(a);
    var bc := (a.high + a.low) / 2.0;
    var tc := (pivot - bc) + pivot;
    Band(Some(Max2(tc, bc)), Some(Min2(tc, bc)), Abs(tc - bc) < a.close * 0.005)
  }

  /** The band straddles the pivot symmetrically, and the narrow flag compares its width with 0.5% of the close. */
  lemma BandAroundPivot(a: PeriodAgg)
    ensures BandOf(a).bottom.value <= Pivot(a) <= BandOf(a).top.value
    ensures BandOf(a).top.value + BandOf(a).bottom.value == 2.0 * Pivot(a)
    ensures BandOf(a).narrow <==> BandOf(a).top.value - BandOf(a).bottom.value < 0.005 * a.close
  {
  }

  /** The monthly band, written identically to every row: computed from the calendar
      month before the last bar's month, or no band when no bar falls in that month. */
  function MonthlyCpr(bars: seq<Bar>): (b: Band)
    requires |bars| > 0
  {
    var prev := bars[|bars| - 1].month - 1;
    match GroupAgg(bars, Months(bars), prev)
    case None => NoBand
    case Some(a) => BandOf(a)
  }

  /** Without a bar in the prior month the monthly band is undefined and not narrow;
      otherwise it is the band of that month's aggregates. */
  lemma MonthlyCprSource(bars: seq<Bar>)
    requires |bars| > 0
    ensures var prev := bars[|bars| - 1].month - 1;
      && ((forall t :: 0 <= t < |bars| ==> bars[t].month != prev) <==> MonthlyCpr(bars) == NoBand)
      && ((exists t :: 0 <= t < |bars| && bars[t].month == prev) ==>
            MonthlyCpr(bars) == BandOf(GroupAgg(bars, Months(bars), prev).value))
  {
    var prev := bars[|bars| - 1].month - 1;
    GroupAggSpec(bars, Months(bars), prev);
    var a := GroupAgg(bars, Months(bars), prev);
    if a.Some? {
      assert BandOf(a.value) != NoBand;
    }
  }

  /** The greatest key of `keys` strictly before `k`: the group that `shift(1)`
      places before `k`'s group in sorted group order. */
  function PrevWeek(keys: seq<WeekKey>, k: WeekKey): Option<WeekKey>
  {
    if keys == [] then None
    else
      var rest := PrevWeek(keys[1..], k);
      if !WeekBefore(keys[0], k) then rest
      else match rest
        case None => Some(keys[0])
        case Some(r) => if WeekBefore(r, keys[0]) then Some(keys[0]) else rest
  }

  /** `PrevWeek` finds a present week before `k` with no present week between
      them, and finds none exactly when no present week precedes `k`. */
  lemma {:induction false} PrevWeekSpec(keys: seq<WeekKey>, k: WeekKey)
    ensures PrevWeek(keys, k).None? <==> forall q :: q in keys ==> !WeekBefore(q, k)
    ensures PrevWeek(keys, k).Some? ==>
      var p := PrevWeek(keys, k).value;
      && p in keys && WeekBefore(p, k)
      && forall q :: q in keys ==> !(WeekBefore(p, q) && WeekBefore(q, k))
  {
    if keys != [] {
      PrevWeekSpec(keys[1..], k);
      assert forall q :: q in keys <==> q == keys[0] || q in keys[1..];
    }
  }

  /** The weekly band of every row: no band at all on fewer than 7 rows; otherwise
      each row takes the band of the week before its own, and none in the first week. */
  function WeeklyCpr(bars: seq<Bar>): (r: seq<Band>)
    ensures |r| == |bars|
  {
    var weeks := Weeks(bars);
    seq(|bars|, t requires 0 <= t < |bars| =>
      if |bars| < 7 then NoBand
      else match PrevWeek(weeks, weeks[t])
        case None => NoBand
        case Some(p) =>
          match GroupAgg(bars, weeks, p)
          case None => NoBand
          case Some(a) => BandOf(a))
  }

  /** A row of a series of at least 7 bars gets the band of the latest week before
      its own; rows of the earliest week, and every row of a shorter series, get no band. */
  lemma WeeklyCprSource(bars: seq<Bar>, t: nat)
    requires t < |bars|
    ensures |bars| < 7 ==> WeeklyCpr(bars)[t] == NoBand
    ensures |bars| >= 7 && (forall u :: 0 <= u < |bars| ==> !WeekBefore(bars[u].week, bars[t].week)) ==>
      WeeklyCpr(bars)[t] == NoBand
    ensures |bars| >= 7 && (exists u :: 0 <= u < |bars| && WeekBefore(bars[u].week, bars[t].week)) ==>
      exists p :: && p in Weeks(bars) && WeekBefore(p, bars[t].week)
                  && (forall u :: 0 <= u < |bars| ==> !(WeekBefore(p, bars[u].week) && WeekBefore(bars[u].week, bars[t].week)))
                  && GroupAgg(bars, Weeks(bars), p).Some?
                  && WeeklyCpr(bars)[t] == BandOf(GroupAgg(bars, Weeks(bars), p).value)
  {
    var weeks := Weeks(bars);
    PrevWeekSpec(weeks, weeks[t]);
    var prev := PrevWeek(weeks, weeks[t]);
    if prev.Some? {
      GroupAggSpec(bars, weeks, prev.value);
      assert forall u :: 0 <= u < |bars| ==> weeks[u] in weeks;
    } else if |bars| >= 7 {
      assert forall u :: 0 <= u < |bars| ==> weeks[u] in weeks;
    }
  }
}
