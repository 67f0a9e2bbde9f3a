/** Attribution of funding events to bars: each event is charged in exactly one bar, the one that
    ends at or after it. */
module Funding {
  import opened Market

  datatype Row = Row(openTime: Time, open: real, high: real, low: real, close: real)
  datatype Event = Event(at: Time, rate: real)

  const INTERVALS: map<string, Time> := map[
    "1m" := 60_000, "5m" := 300_000, "15m" := 900_000, "30m" := 1_800_000,
    "1h" := 3_600_000, "4h" := 14_400_000, "1d" := 86_400_000]

  /** The open of the bar an event belongs to: a boundary event goes to the bar that ends there. */
  function BarOf(at: Time, step: Time): Time
    requires step > 0
  {
    (at - 1) / step * step
  }

  /** The summed rate of the events that belong to the bar opening at `open`. */
  function RateAt(events: seq<Event>, step: Time, open: Time): real
    requires step > 0
  {
    if events == [] then 0.0 else
    var last := events[|events| - 1];
    RateAt(events[..|events| - 1], step, open) + if BarOf(last.at, step) == open then last.rate else 0.0
  }

  function ToCandle(row: Row, rate: real): Candle {
    Candle(row.openTime, row.open, row.high, row.low, row.close, rate)
  }

  /** None is the error for an unsupported interval. */
  method BuildBacktestCandles(rows: seq<Row>, events: seq<Event>, interval: string)
    returns (candles: Option<seq<Candle>>)
    ensures candles.Some? <==> interval in INTERVALS
    ensures candles.Some? ==>
              && |candles.value| == |rows|
              && forall i :: 0 <= i < |rows| ==>
                   candles.value[i] == ToCandle(rows[i], RateAt(events, INTERVALS[interval], rows[i].openTime))
  {
    if interval !in INTERVALS {
      return None;
    }
    var step := INTERVALS[interval];
    var ratesByOpen: map<Time, real> := map[];
    for n := 0 to |events|
      invariant forall open :: (if open in ratesByOpen then ratesByOpen[open] else 0.0) == RateAt(events[..n], step, open)
    {
      var event := events[n];
      assert events[..n + 1][..n] == events[..n];
      var open := BarOf(event.at, step);
      ratesByOpen := ratesByOpen[open := (if open in ratesByOpen then ratesByOpen[open] else 0.0) + event.rate];
    }
    assert events[..|events|] == events;
    var built := [];
    for i := 0 to |rows|
      invariant |built| == i
      invariant forall j :: 0 <= j < i ==> built[j] == ToCandle(rows[j], RateAt(events, step, rows[j].openTime))
    {
      var open := rows[i].openTime;
      built := built + [ToCandle(rows[i], if open in ratesByOpen then ratesByOpen[open] else 0.0)];
    }
    return Some(built);
  }

  // ----- one bar per event

  /** An aligned bar owns the events after its open, up to and including its close. */
  lemma BarOwnsHalfOpenInterval(at: Time, step: Time, open: Time)
    requires step > 0 && open % step == 0
    ensures BarOf(at, step) == open <==> open < at <= open + step
  {
    var q := (at - 1) / step;
    var k := open / step;
    assert q * step <= at - 1 < q * step + step && open == k * step;
    StepsApart(q - k, step);
    StepsApart(k - q, step);
    assert (q - k) * step == q * step - open && (k - q) * step == open - q * step;
  }

  lemma StepsApart(d: int, step: Time)
    requires step > 0
    ensures d >= 1 ==> d * step >= step
    ensures d == 0 ==> d * step == 0
  {
  }

  /** Bars without a gap, aligned to the interval. */
  ghost predicate Contiguous(rows: seq<Row>, step: Time) {
    step > 0
    && (rows != [] ==> rows[0].openTime % step == 0)
    && (forall i :: 0 < i < |rows| ==> rows[i].openTime == rows[i - 1].openTime + step)
  }

  lemma {:induction false} OpensAreAligned(rows: seq<Row>, step: Time, i: nat)
    requires Contiguous(rows, step) && i < |rows|
    ensures rows[i].openTime % step == 0 && rows[i].openTime == rows[0].openTime + i * step
    decreases i
  {
    if i > 0 {
      OpensAreAligned(rows, step, i - 1);
      AlignedStep(rows[i - 1].openTime, step);
      assert i * step == (i - 1) * step + step;
    }
  }

  lemma {:induction false} OpensAreInOrder(rows: seq<Row>, step: Time, i: nat)
    requires Contiguous(rows, step) && i < |rows|
    ensures rows[i].openTime % step == 0 && rows[0].openTime <= rows[i].openTime
    decreases i
  {
    if i > 0 {
      OpensAreInOrder(rows, step, i - 1);
      AlignedStep(rows[i - 1].openTime, step);
    }
  }

  lemma AlignedStep(t: Time, step: Time)
    requires step > 0 && t % step == 0
    ensures (t + step) % step == 0
  {
    var q, r := (t + step) / step, (t + step) % step;
    var k := t / step;
    assert (k + 1 - q) * step == r;
    StepsApart(k + 1 - q, step);
    StepsApart(q - k - 1, step);
    assert (q - k - 1) * step == -r;
  }

  function RowRates(rows: seq<Row>, events: seq<Event>, step: Time): real
    requires step > 0
  {
    if rows == [] then 0.0
    else RowRates(rows[..|rows| - 1], events, step) + RateAt(events, step, rows[|rows| - 1].openTime)
  }

  /** The summed rate of the events after `from` and up to `until`. */
  function EventRates(events: seq<Event>, from: Time, until: Time): real {
    if events == [] then 0.0 else
    var last := events[|events| - 1];
    EventRates(events[..|events| - 1], from, until) + if from < last.at <= until then last.rate else 0.0
  }

  lemma {:induction false} BarRateIsItsEvents(events: seq<Event>, step: Time, open: Time)
    requires step > 0 && open % step == 0
    ensures RateAt(events, step, open) == EventRates(events, open, open + step)
    decreases |events|
  {
    if events != [] {
      BarOwnsHalfOpenInterval(events[|events| - 1].at, step, open);
      BarRateIsItsEvents(events[..|events| - 1], step, open);
    }
  }

  lemma {:induction false} EventRatesSplit(events: seq<Event>, a: Time, b: Time, c: Time)
    requires a <= b <= c
    ensures EventRates(events, a, c) == EventRates(events, a, b) + EventRates(events, b, c)
    decreases |events|
  {
    if events != [] {
      EventRatesSplit(events[..|events| - 1], a, b, c);
    }
  }

  lemma {:induction false} EmptySpanHasNoEvents(events: seq<Event>, a: Time)
    ensures EventRates(events, a, a) == 0.0
    decreases |events|
  {
    if events != [] {
      EmptySpanHasNoEvents(events[..|events| - 1], a);
    }
  }

  /** Funding conservation: over contiguous aligned bars the bar rates add up to the rates of the
      events after the first open and up to the last close. */
  lemma {:induction false} FundingIsChargedOnce(rows: seq<Row>, events: seq<Event>, step: Time)
    requires Contiguous(rows, step) && rows != []
    ensures RowRates(rows, events, step)
         == EventRates(events, rows[0].openTime, rows[|rows| - 1].openTime + step)
    decreases |rows|
  {
    hide RateAt, EventRates;
    var n := |rows| - 1;
    var open := rows[n].openTime;
    OpensAreInOrder(rows, step, n);
    BarRateIsItsEvents(events, step, open);
    if n == 0 {
      assert rows[..n] == [];
    } else {
      FundingIsChargedOnce(rows[..n], events, step);
      assert rows[n - 1].openTime + step == open;
      EventRatesSplit(events, rows[0].openTime, open, open + step);
    }
  }

  /** Each event inside the span belongs to one of the bars, and to no other. */
  lemma EventHasOneBar(rows: seq<Row>, at: Time, step: Time) returns (i: nat)
    requires Contiguous(rows, step) && rows != []
    requires rows[0].openTime < at <= rows[|rows| - 1].openTime + step
    ensures i < |rows| && BarOf(at, step) == rows[i].openTime
    ensures forall j :: 0 <= j < |rows| && BarOf(at, step) == rows[j].openTime ==> j == i
  {
    i := 0;
    while rows[i].openTime + step < at
      invariant i < |rows| && rows[i].openTime < at
      decreases |rows| - i
    {
      i := i + 1;
    }
    OpensAreAligned(rows, step, i);
    BarOwnsHalfOpenInterval(at, step, rows[i].openTime);
    forall j | 0 <= j < |rows| && j != i ensures rows[j].openTime != rows[i].openTime {
      OpensAreAligned(rows, step, j);
      StepsApart(j - i, step);
      StepsApart(i - j, step);
      assert (j - i) * step == rows[j].openTime - rows[i].openTime;
      assert (i - j) * step == rows[i].openTime - rows[j].openTime;
    }
  }
}
