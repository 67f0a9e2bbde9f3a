/** The snapshot that a backtest rebuilds from history for one decision, and when it needs no bar that
    had not closed by then. */
module Snapshots {
  import opened Market

  datatype Interval = FiveMinutes | QuarterHour | HalfHour | Hour | FourHours | Daily

  function Length(i: Interval): Time {
    match i
    case FiveMinutes => FIVE_MINUTES
    case QuarterHour => 15 * MINUTE
    case HalfHour => 30 * MINUTE
    case Hour => 60 * MINUTE
    case FourHours => 240 * MINUTE
    case Daily => DAY
  }

  /** The intervals whose features a decision sees, all but the daily one; each is also a cadence. */
  const LADDER: seq<Interval> := [FiveMinutes, QuarterHour, HalfHour, Hour, FourHours]
  type Cadence = i: Interval | i != Daily witness FiveMinutes

  const WARMUP_BARS: nat := 200
  const FEWEST_BARS: nat := 20
  const DAILY_PERIOD: nat := 20

  datatype Kline = Kline(candle: Candle, volume: real, quoteVolume: real)

  type Klines = map<Interval, seq<Kline>>

  /** The ladder and the daily bars are all there. */
  predicate Complete(series: Klines) {
    forall i: Interval :: i in series
  }

  /** Ascending bars on the grid of their interval, as the market delivers them. */
  ghost predicate OnGrid(bars: seq<Kline>, i: Interval) {
    && (forall k :: 0 <= k < |bars| ==> bars[k].candle.timestamp % Length(i) == 0)
    && Ascending(bars)
  }

  ghost predicate Ascending(bars: seq<Kline>) {
    forall j, k :: 0 <= j < k < |bars| ==> bars[j].candle.timestamp < bars[k].candle.timestamp
  }

  ghost predicate Sound(series: Klines) {
    Complete(series) && forall i :: OnGrid(series[i], i)
  }

  // ----- what had closed, and what had traded

  /** bisect_left over the open times. */
  function OpenedBefore(bars: seq<Kline>, t: Time): (n: nat)
    ensures n <= |bars|
    ensures forall k :: 0 <= k < n ==> bars[k].candle.timestamp < t
    ensures n < |bars| ==> t <= bars[n].candle.timestamp
  {
    if bars == [] || t <= bars[0].candle.timestamp then 0 else 1 + OpenedBefore(bars[1..], t)
  }

  /** bisect_right over the close times. */
  function ClosedCount(bars: seq<Kline>, i: Interval, t: Time): (n: nat)
    ensures n <= |bars|
    ensures forall k :: 0 <= k < n ==> bars[k].candle.timestamp + Length(i) <= t
    ensures n < |bars| ==> t < bars[n].candle.timestamp + Length(i)
  {
    if bars == [] || t < bars[0].candle.timestamp + Length(i) then 0 else 1 + ClosedCount(bars[1..], i, t)
  }

  function Closed(bars: seq<Kline>, i: Interval, t: Time): seq<Kline> {
    bars[..ClosedCount(bars, i, t)]
  }

  function Latest(bars: seq<Kline>, n: nat): seq<Kline> {
    if n < |bars| then bars[|bars| - n..] else bars
  }

  function VolumeOf(bars: seq<Kline>): real {
    if bars == [] then 0.0 else VolumeOf(bars[..|bars| - 1]) + bars[|bars| - 1].quoteVolume
  }

  /** What traded in the bars that opened from `from` on and before `until`. */
  function Traded(bars: seq<Kline>, from: Time, until: Time): real {
    if bars == [] then 0.0
    else
      var last := bars[|bars| - 1];
      Traded(bars[..|bars| - 1], from, until)
      + if from <= last.candle.timestamp < until then last.quoteVolume else 0.0
  }

  lemma {:induction false} OpenedOfFront(bars: seq<Kline>, t: Time)
    requires bars != [] && Ascending(bars)
    ensures var n, m := OpenedBefore(bars, t), OpenedBefore(bars[..|bars| - 1], t);
            if bars[|bars| - 1].candle.timestamp < t then n == |bars| && m == |bars| - 1 else n == m
  {
    if |bars| > 1 {
      OpenedOfFront(bars[1..], t);
      assert bars[1..][..|bars| - 2] == bars[..|bars| - 1][1..];
      assert bars[0].candle.timestamp < bars[|bars| - 1].candle.timestamp;
    }
  }

  /** The difference of two running totals is what traded between the two instants. */
  lemma {:induction false} TotalsGiveTraded(bars: seq<Kline>, from: Time, until: Time)
    requires Ascending(bars) && from <= until
    ensures VolumeOf(bars[..OpenedBefore(bars, until)]) - VolumeOf(bars[..OpenedBefore(bars, from)])
         == Traded(bars, from, until)
  {
    hide OpenedBefore;
    if bars != [] {
      var front := bars[..|bars| - 1];
      TotalsGiveTraded(front, from, until);
      OpenedOfFront(bars, from);
      OpenedOfFront(bars, until);
      assert bars[..|bars|] == bars && front[..|front|] == front;
      assert forall k :: 0 <= k <= |front| ==> front[..k] == bars[..k];
    }
  }

  // ----- the snapshot

  /** `ladder` and `daily` are the bars that the features are computed from, with the mark; the book is
      quoted at the mark on both sides. */
  datatype Snapshot = Snapshot(
    cadence: Cadence, at: Time, mark: real, ladder: seq<seq<Kline>>, daily: seq<Kline>,
    quoteVolume24h: real, fundingRate: real)

  /** A snapshot, or the first interval with too few closed bars. */
  datatype Answer = Built(snapshot: Snapshot) | TooFew(interval: Interval, closed: nat)

  /** The latest closed bars of each interval, up to the first interval that has too few. */
  function Ladder(series: Klines, intervals: seq<Interval>, at: Time): (r: (seq<seq<Kline>>, Option<Interval>))
    requires Complete(series)
    ensures r.1.None? ==> |r.0| == |intervals|
    ensures r.1.None? ==> forall i :: i in intervals ==> |Closed(series[i], i, at)| >= FEWEST_BARS
    ensures r.1.Some? ==> r.1.value in intervals
    decreases |intervals|
  {
    if intervals == [] then ([], None)
    else
      var i := intervals[0];
      var closed := Closed(series[i], i, at);
      if |closed| < FEWEST_BARS then ([], Some(i))
      else
        var rest := Ladder(series, intervals[1..], at);
        ([Latest(closed, WARMUP_BARS)] + rest.0, rest.1)
  }

  function Snapshotted(series: Klines, cadence: Cadence, at: Time): Answer
    requires Complete(series)
  {
    var (ladder, short) := Ladder(series, LADDER, at);
    if short.Some? then TooFew(short.value, |Closed(series[short.value], short.value, at)|)
    else
      var daily, decided := Closed(series[Daily], Daily, at), Closed(series[cadence], cadence, at);
      if |daily| < DAILY_PERIOD then TooFew(Daily, |daily|)
      else
        assert cadence in LADDER;
        var last := decided[|decided| - 1].candle;
        Built(Snapshot(cadence, at, last.close, ladder, Latest(daily, DAILY_PERIOD),
                       Traded(series[HalfHour], at - DAY, at), last.fundingRate))
  }

  lemma LadderStep(series: Klines, n: nat, at: Time)
    requires n < |LADDER| && Complete(series)
    ensures var i := LADDER[n];
            var closed, rest := Closed(series[i], i, at), Ladder(series, LADDER[n + 1..], at);
            Ladder(series, LADDER[n..], at) == if |closed| < FEWEST_BARS then ([], Some(i))
                                               else ([Latest(closed, WARMUP_BARS)] + rest.0, rest.1)
  {
    hide Closed, Latest;
    assert LADDER[n..][0] == LADDER[n] && LADDER[n..][1..] == LADDER[n + 1..];
  }

  lemma OneMore<T>(before: seq<T>, next: T, after: seq<T>)
    ensures before + ([next] + after) == (before + [next]) + after
  {
  }

  lemma LadderDone(series: Klines, at: Time)
    requires Complete(series)
    ensures LADDER[0..] == LADDER && Ladder(series, LADDER[|LADDER|..], at) == ([], None)
  {
  }

  class HistoricalSnapshotBuilder {
    const series: Klines
    var quoteVolumePrefix: seq<real>

    ghost predicate Valid()
      reads this
    {
      && Complete(series) && Ascending(series[HalfHour])
      && |quoteVolumePrefix| == |series[HalfHour]| + 1
      && forall n :: 0 <= n < |quoteVolumePrefix| ==> quoteVolumePrefix[n] == VolumeOf(series[HalfHour][..n])
    }

    constructor (series: Klines)
      requires Complete(series) && Ascending(series[HalfHour])
      ensures Valid() && this.series == series
    {
      this.series := series;
      new;
      var bars := series[HalfHour];
      quoteVolumePrefix := [0.0];
      var i := 0;
      while i < |bars|
        invariant 0 <= i <= |bars| && |quoteVolumePrefix| == i + 1
        invariant forall n :: 0 <= n <= i ==> quoteVolumePrefix[n] == VolumeOf(bars[..n])
      {
        assert bars[..i + 1][..i] == bars[..i];
        quoteVolumePrefix := quoteVolumePrefix + [quoteVolumePrefix[i] + bars[i].quoteVolume];
        i := i + 1;
      }
    }

    /** A history that lacks an interval is refused. */
    static method FromSeries(series: Klines) returns (r: Option<HistoricalSnapshotBuilder>)
      requires HalfHour in series ==> Ascending(series[HalfHour])
      ensures r.Some? <==> Complete(series)
      ensures r.Some? ==> fresh(r.value) && r.value.Valid() && r.value.series == series
    {
      if !Complete(series) {
        return None;
      }
      var builder := new HistoricalSnapshotBuilder(series);
      return Some(builder);
    }

    method QuoteVolume24h(cutoff: Time) returns (volume: real)
      requires Valid()
      ensures volume == Traded(series[HalfHour], cutoff - DAY, cutoff)
    {
      var bars := series[HalfHour];
      var start, end := OpenedBefore(bars, cutoff - DAY), OpenedBefore(bars, cutoff);
      TotalsGiveTraded(bars, cutoff - DAY, cutoff);
      volume := quoteVolumePrefix[end] - quoteVolumePrefix[start];
    }

    /** The bars of each interval, or the first interval that has too few. */
    method Rows(at: Time) returns (rows: seq<seq<Kline>>, short: Option<Interval>)
      requires Valid()
      ensures (rows, short) == Ladder(series, LADDER, at)
    {
      hide Closed, VolumeOf, Latest, Ladder;
      rows := [];
      var n := 0;
      LadderDone(series, at);
      ghost var all := Ladder(series, LADDER, at);
      while n < |LADDER|
        invariant 0 <= n <= |LADDER|
        invariant rows + Ladder(series, LADDER[n..], at).0 == all.0
        invariant Ladder(series, LADDER[n..], at).1 == all.1
      {
        var i := LADDER[n];
        LadderStep(series, n, at);
        var closed := Closed(series[i], i, at);
        if |closed| < FEWEST_BARS {
          assert rows + [] == rows;
          return rows, Some(i);
        }
        OneMore(rows, Latest(closed, WARMUP_BARS), Ladder(series, LADDER[n + 1..], at).0);
        rows := rows + [Latest(closed, WARMUP_BARS)];
        n := n + 1;
      }
      assert rows + [] == rows;
      short := None;
    }

    method Build(cadence: Cadence, at: Time) returns (r: Answer)
      requires Valid()
      ensures r == Snapshotted(series, cadence, at)
    {
      hide Closed, Traded, VolumeOf, Latest, Ladder;
      var rows, short := Rows(at);
      if short.Some? {
        return TooFew(short.value, |Closed(series[short.value], short.value, at)|);
      }
      assert cadence in LADDER;
      var daily, decided := Closed(series[Daily], Daily, at), Closed(series[cadence], cadence, at);
      if |daily| < DAILY_PERIOD {
        return TooFew(Daily, |daily|);
      }
      var last := decided[|decided| - 1].candle;
      var volume := QuoteVolume24h(at);
      r := Built(Snapshot(cadence, at, last.close, rows, Latest(daily, DAILY_PERIOD), volume, last.fundingRate));
    }
  }

  // ----- what the snapshot needs to know

  /** The two histories do not differ in any bar that had closed by `at`. */
  ghost predicate SameClosed(a: Klines, b: Klines, at: Time)
    requires Complete(a) && Complete(b)
  {
    forall i :: Closed(a[i], i, at) == Closed(b[i], i, at)
  }

  /** No other future of the same past gives another snapshot. */
  ghost predicate NeedsNoFuture(a: Klines, cadence: Cadence, at: Time)
    requires Complete(a)
  {
    forall b: Klines :: Sound(b) && SameClosed(a, b, at) ==> Snapshotted(b, cadence, at) == Snapshotted(a, cadence, at)
  }

  lemma {:induction false} SameLadder(a: Klines, b: Klines, intervals: seq<Interval>, at: Time)
    requires Complete(a) && Complete(b) && SameClosed(a, b, at)
    ensures Ladder(a, intervals, at) == Ladder(b, intervals, at)
    decreases |intervals|
  {
    hide Closed, Latest;
    if intervals != [] {
      SameLadder(a, b, intervals[1..], at);
    }
  }

  /** Everything but the volume is computed from closed bars. */
  lemma SameButVolume(a: Klines, b: Klines, cadence: Cadence, at: Time)
    requires Complete(a) && Complete(b) && SameClosed(a, b, at)
    ensures Snapshotted(a, cadence, at).Built? == Snapshotted(b, cadence, at).Built?
    ensures Snapshotted(a, cadence, at) == Snapshotted(b, cadence, at)
       <==> (Snapshotted(a, cadence, at).Built? ==>
               Traded(a[HalfHour], at - DAY, at) == Traded(b[HalfHour], at - DAY, at))
  {
    hide Closed, Latest, Ladder, Traded;
    assert cadence in LADDER;
    SameLadder(a, b, LADDER, at);
  }

  lemma {:induction false} LaterAddsNothing(bars: seq<Kline>, n: nat, from: Time, until: Time)
    requires n <= |bars| && forall k :: n <= k < |bars| ==> until <= bars[k].candle.timestamp
    ensures Traded(bars, from, until) == Traded(bars[..n], from, until)
  {
    if n == |bars| {
      assert bars[..n] == bars;
    } else {
      LaterAddsNothing(bars[..|bars| - 1], n, from, until);
      assert bars[..|bars| - 1][..n] == bars[..n];
    }
  }

  /** On the half hour every bar that has opened before has also closed. */
  lemma OnTheHalfHour(bars: seq<Kline>, at: Time)
    requires OnGrid(bars, HalfHour) && at % Length(HalfHour) == 0
    ensures Traded(bars, at - DAY, at) == Traded(Closed(bars, HalfHour, at), at - DAY, at)
  {
    hide ClosedCount, Traded;
    var n := ClosedCount(bars, HalfHour, at);
    forall k | n <= k < |bars| ensures at <= bars[k].candle.timestamp {
      assert bars[n].candle.timestamp <= bars[k].candle.timestamp;
      GridStep(bars[k].candle.timestamp, at);
    }
    LaterAddsNothing(bars, n, at - DAY, at);
  }

  lemma GridStep(open: Time, at: Time)
    requires open % Length(HalfHour) == 0 && at % Length(HalfHour) == 0 && at < open + Length(HalfHour)
    ensures at <= open
  {
  }

  /** The bar under way at `at` and off the grid, with the given volume. */
  function UnderWay(at: Time, quoteVolume: real): Kline {
    Kline(Candle(at - at % Length(HalfHour), 1.0, 1.0, 1.0, 1.0, 0.0), 1.0, quoteVolume)
  }

  lemma {:induction false} CountIs(bars: seq<Kline>, i: Interval, at: Time, n: nat)
    requires n <= |bars|
    requires forall k :: 0 <= k < n ==> bars[k].candle.timestamp + Length(i) <= at
    requires n < |bars| ==> at < bars[n].candle.timestamp + Length(i)
    ensures ClosedCount(bars, i, at) == n
    decreases n
  {
    if n > 0 {
      CountIs(bars[1..], i, at, n - 1);
    }
  }

  /** A history may go on with any volume in the bar under way, and between half hours it is counted. */
  lemma VolumeUnderWay(bars: seq<Kline>, at: Time, quoteVolume: real)
    requires OnGrid(bars, HalfHour) && at % Length(HalfHour) != 0
    ensures var closed := Closed(bars, HalfHour, at);
            var other := closed + [UnderWay(at, quoteVolume)];
            && OnGrid(other, HalfHour) && Closed(other, HalfHour, at) == closed
            && Traded(other, at - DAY, at) == Traded(closed, at - DAY, at) + quoteVolume
  {
    hide ClosedCount;
    var closed := Closed(bars, HalfHour, at);
    var other := closed + [UnderWay(at, quoteVolume)];
    var open := at - at % Length(HalfHour);
    assert open % Length(HalfHour) == 0;
    forall k | 0 <= k < |closed| ensures closed[k].candle.timestamp < open {
      GridStep(open, closed[k].candle.timestamp + Length(HalfHour));
    }
    CountIs(other, HalfHour, at, |closed|);
    assert other[..|closed|] == closed;
  }

  lemma SomeOtherFuture(a: Klines, cadence: Cadence, at: Time) returns (b: Klines)
    requires Sound(a) && Snapshotted(a, cadence, at).Built? && at % Length(HalfHour) != 0
    ensures Sound(b) && SameClosed(a, b, at) && Snapshotted(b, cadence, at) != Snapshotted(a, cadence, at)
  {
    hide ClosedCount, Closed, Traded, OnGrid, UnderWay, Snapshotted;
    var bars := a[HalfHour];
    var closed := Closed(bars, HalfHour, at);
    var known := Traded(closed, at - DAY, at);
    var quoteVolume := if Traded(bars, at - DAY, at) == known + 1.0 then 2.0 else 1.0;
    VolumeUnderWay(bars, at, quoteVolume);
    b := a[HalfHour := closed + [UnderWay(at, quoteVolume)]];
    SameButVolume(a, b, cadence, at);
  }

  /** A rebuilt snapshot needs no bar that had not closed exactly when the decision is due on a half
      hour: between two half hours its 24-hour volume counts the bar that is still open. */
  lemma NeedsNoFutureIff(a: Klines, cadence: Cadence, at: Time)
    requires Sound(a) && Snapshotted(a, cadence, at).Built?
    ensures NeedsNoFuture(a, cadence, at) <==> at % Length(HalfHour) == 0
  {
    hide Closed, Traded, Snapshotted, OnGrid;
    if at % Length(HalfHour) == 0 {
      forall b: Klines | Sound(b) && SameClosed(a, b, at)
        ensures Snapshotted(b, cadence, at) == Snapshotted(a, cadence, at)
      {
        OnTheHalfHour(a[HalfHour], at);
        OnTheHalfHour(b[HalfHour], at);
        SameButVolume(a, b, cadence, at);
      }
    } else {
      var b := SomeOtherFuture(a, cadence, at);
      assert !NeedsNoFuture(a, cadence, at);
    }
  }

  // ----- a decision at a quarter past

  const DAYS: nat := 40

  function Steady(i: Interval): seq<Kline> {
    seq(DAYS * DAY / Length(i), (k: nat) => Kline(Candle(k * Length(i), 10.0, 10.0, 10.0, 10.0, 0.0), 1.0, 10.0))
  }

  const HISTORY: Klines := map i: Interval | true :: Steady(i)
  const QUARTER_PAST: Time := 30 * DAY + 15 * MINUTE

  lemma OnTheGrid(i: Interval, k: nat)
    ensures (k * Length(i)) % Length(i) == 0
  {
    match i
    case FiveMinutes =>
    case QuarterHour =>
    case HalfHour =>
    case Hour =>
    case FourHours =>
    case Daily =>
  }

  lemma Grows(j: nat, k: nat, length: Time)
    requires j < k && length > 0
    ensures j * length < k * length
  {
  }

  lemma LongEnough(i: Interval)
    ensures DAYS <= DAYS * DAY / Length(i) && 0 < Length(i) <= DAY
  {
  }

  lemma SteadyIsOnGrid(i: Interval)
    ensures OnGrid(Steady(i), i)
  {
    hide Length;
    LongEnough(i);
    var bars := Steady(i);
    forall k | 0 <= k < |bars| ensures bars[k].candle.timestamp % Length(i) == 0 {
      OnTheGrid(i, k);
    }
    forall j, k | 0 <= j < k < |bars| ensures bars[j].candle.timestamp < bars[k].candle.timestamp {
      Grows(j, k, Length(i));
    }
  }

  lemma {:induction false} AtLeast(bars: seq<Kline>, i: Interval, at: Time, n: nat)
    requires n <= |bars| && forall k :: 0 <= k < n ==> bars[k].candle.timestamp + Length(i) <= at
    ensures |Closed(bars, i, at)| >= n
    decreases n
  {
    hide Length;
    if n > 0 {
      AtLeast(bars[1..], i, at, n - 1);
    }
  }

  lemma ClosesEarly(k: nat, length: Time)
    requires k < 30 && length <= DAY
    ensures k * length + length <= 30 * DAY
  {
    assert k * length <= k * DAY;
  }

  lemma SteadyIsLong(i: Interval)
    ensures |Closed(Steady(i), i, QUARTER_PAST)| >= 30
  {
    hide Length, Closed;
    LongEnough(i);
    var bars := Steady(i);
    forall k | 0 <= k < 30 ensures bars[k].candle.timestamp + Length(i) <= QUARTER_PAST {
      ClosesEarly(k, Length(i));
    }
    AtLeast(bars, i, QUARTER_PAST, 30);
  }

  /** Forty quiet days: the snapshot for a quarter past is built, and another future changes it. */
  lemma QuarterPastLooksAhead()
    ensures Sound(HISTORY) && Snapshotted(HISTORY, QuarterHour, QUARTER_PAST).Built?
    ensures !NeedsNoFuture(HISTORY, QuarterHour, QUARTER_PAST)
  {
    hide Closed, OnGrid, Steady, Traded, NeedsNoFuture;
    forall i: Interval ensures i in HISTORY && OnGrid(HISTORY[i], i)
                               && |Closed(HISTORY[i], i, QUARTER_PAST)| >= 30 {
      SteadyIsOnGrid(i);
      SteadyIsLong(i);
    }
    NeedsNoFutureIff(HISTORY, QuarterHour, QUARTER_PAST);
  }
}
