/** Over a whole replay, no position is ever charged for a funding event at or before its entry. */
module FundingLaws {
  import opened Market
  import opened Bookkeeping
  import opened Replay
  import opened ClockLaws
  import Funding

  /** The position the bar is about to charge was entered before every event attributed to the bar. */
  ghost predicate ChargedLate(l: Ledger, s: Symbol, c: Candle) {
    s in l.positions ==>
      forall at: Time :: Funding.BarOf(at, FIVE_MINUTES) == c.timestamp ==> l.positions[s].entryTime < at
  }

  /** `ChargedLate` at each bar of a settlement, in the state in which that bar is settled. */
  ghost predicate BarsChargeLate(cfg: Config, l: Ledger, s: Symbol, bars: seq<Candle>)
    decreases |bars|
  {
    if bars == [] then true else
    var active := ActivateScheduled(cfg, l, s, bars[0].timestamp);
    active.Success? ==>
      && ChargedLate(active.value, s, bars[0])
      && var settled := SettleCandle(cfg, active.value, s, bars[0]);
         settled.Success? ==> BarsChargeLate(cfg, settled.value, s, bars[1..])
  }

  /** The same at each bar of a settlement of several symbols. */
  ghost predicate AllChargeLate(input: Input, st: Clocked, symbols: seq<Symbol>, through: Time)
    requires forall s :: s in symbols ==> s in input.series
    decreases |symbols|
  {
    if symbols == [] then true else
    var s := symbols[0];
    && BarsChargeLate(input.config, st.ledger, s,
                      Slice(input.series[s], Cursor(input, st.cursor, s), ClosedBy(input.series[s], through)))
    && var next := SettleUntil(input, st, s, through);
       next.Success? ==> AllChargeLate(input, next.value, symbols[1..], through)
  }

  predicate Aligned(cs: seq<Candle>) {
    forall i :: 0 <= i < |cs| ==> cs[i].timestamp % FIVE_MINUTES == 0
  }

  lemma EnteredIsLate(l: Ledger, s: Symbol, c: Candle)
    requires EnteredBy(l, s, c.timestamp) && c.timestamp % FIVE_MINUTES == 0
    ensures ChargedLate(l, s, c)
  {
    forall at: Time | Funding.BarOf(at, FIVE_MINUTES) == c.timestamp ensures c.timestamp < at {
      Funding.BarOwnsHalfOpenInterval(at, FIVE_MINUTES, c.timestamp);
    }
  }

  lemma {:induction false} SettlementChargesLate(cfg: Config, l: Ledger, s: Symbol, cs: seq<Candle>, n: nat, stop: nat)
    requires Spaced(cs) && Aligned(cs) && n <= stop <= |cs| && Ahead(l, s, cs, n)
    ensures BarsChargeLate(cfg, l, s, cs[n..stop])
    decreases stop - n
  {
    hide ActivateScheduled, SettleCandle, ChargedLate, Ahead;
    if n < stop {
      assert cs[n..stop][0] == cs[n] && cs[n..stop][1..] == cs[n + 1..stop];
      SettleNextBar(cfg, l, s, cs, n);
      var active := ActivateScheduled(cfg, l, s, cs[n].timestamp);
      if active.Success? {
        EnteredIsLate(active.value, s, cs[n]);
        var settled := SettleCandle(cfg, active.value, s, cs[n]);
        if settled.Success? {
          SettlementChargesLate(cfg, settled.value, s, cs, n + 1, stop);
        }
      }
    }
  }

  lemma {:induction false} AdvanceChargesLate(input: Input, st: Clocked, symbols: seq<Symbol>, now: Time, through: Time)
    requires Consistent(input) && forall s :: s in input.series ==> Aligned(input.series[s])
    requires forall s :: s in symbols ==> s in input.series
    requires Crossing(input, st, now, through) && now <= through && AllEnteredBy(st.ledger, through)
    ensures AllChargeLate(input, st, symbols, through)
    decreases |symbols|
  {
    hide SettleUntil, BarsChargeLate, AllEnteredBy, Ahead;
    if symbols != [] {
      var s := symbols[0];
      var cs := input.series[s];
      var n, closed := Cursor(input, st.cursor, s), ClosedBy(cs, through);
      SettlementChargesLate(input.config, st.ledger, s, cs, n, Later(n, closed));
      assert Slice(cs, n, closed) == cs[n..Later(n, closed)];
      CrossOne(input, st, s, now, through);
      var next := SettleUntil(input, st, s, through);
      if next.Success? {
        AdvanceChargesLate(input, next.value, symbols[1..], now, through);
      }
    }
  }

  lemma ClockCrosses(input: Input, st: Clocked, now: Time, through: Time)
    requires Clock(input, st, now) && now <= through
    ensures Crossing(input, st, now, through) && AllEnteredBy(st.ledger, through)
  {
    hide OnTime;
  }

  /** Whenever a batch settles bars, and whichever bars those are, each position they charge was
      entered before every funding event attributed to the bar that charges it. */
  lemma FundingIsNeverRetroactive(input: Input, batches: seq<Batch>, l: Ledger, k: nat)
    requires WellFormed(input, batches) && Chronological(input, batches) && Startable(l, input.start)
    requires forall s :: s in input.series ==> Aligned(input.series[s])
    requires k < |batches|
    ensures var r := RunPrefix(input, batches, l, k);
            r.Success? && r.value.Continue? ==>
              AllChargeLate(input, r.value.progress.clocked, input.seriesOrder, batches[k].when)
  {
    hide OnTime, AllChargeLate, RunPrefix, AllEnteredBy, Crossing;
    PrefixIsOnTime(input, batches, l, k);
    var r := RunPrefix(input, batches, l, k);
    if r.Success? && r.value.Continue? {
      var now := if k == 0 then input.start else batches[k - 1].when;
      ClockCrosses(input, r.value.progress.clocked, now, batches[k].when);
      AdvanceChargesLate(input, r.value.progress.clocked, input.seriesOrder, now, batches[k].when);
    }
  }

  /** Through an instant that has passed nothing is settled, so nothing is charged. */
  lemma {:induction false} PastChargesNothing(input: Input, st: Clocked, symbols: seq<Symbol>, now: Time, through: Time)
    requires forall s :: s in symbols ==> s in input.series
    requires (forall s :: s in input.series ==> OnTime(input, st, s, now)) && through <= now
    ensures AllChargeLate(input, st, symbols, through)
    decreases |symbols|
  {
    hide SettleUntil, OnTime;
    if symbols != [] {
      var s := symbols[0];
      NothingToSettle(input, st, s, now, through);
      SettlingAgainIsIdle(input, st, s, now, through);
      var next := st.(cursor := st.cursor[s := Cursor(input, st.cursor, s)]);
      forall t | t in input.series && t != s ensures OnTime(input, next, t, now) {
        SameElsewhereRefl(st.ledger, s);
        OthersStayOnTime(input, st, next, s, t, now);
      }
      PastChargesNothing(input, next, symbols[1..], now, through);
    }
  }

  lemma NothingToSettle(input: Input, st: Clocked, s: Symbol, now: Time, through: Time)
    requires s in input.series && OnTime(input, st, s, now) && through <= now
    ensures Slice(input.series[s], Cursor(input, st.cursor, s), ClosedBy(input.series[s], through)) == []
  {
    OpenIsNotClosed(input.series[s], Cursor(input, st.cursor, s), through);
  }

  /** The same for the settlement that completes a run after its last batch. */
  lemma LastFundingIsNotRetroactive(input: Input, batches: seq<Batch>, l: Ledger)
    requires WellFormed(input, batches) && Chronological(input, batches) && Startable(l, input.start)
    requires forall s :: s in input.series ==> Aligned(input.series[s])
    ensures var r := RunPrefix(input, batches, l, |batches|);
            r.Success? && r.value.Continue? ==>
              AllChargeLate(input, r.value.progress.clocked, input.symbols, input.end)
  {
    hide OnTime, AllChargeLate, RunPrefix, AllEnteredBy, Crossing;
    PrefixIsOnTime(input, batches, l, |batches|);
    var r := RunPrefix(input, batches, l, |batches|);
    if r.Success? && r.value.Continue? {
      var last := LastInstant(input, batches);
      if last <= input.end {
        ClockCrosses(input, r.value.progress.clocked, last, input.end);
        AdvanceChargesLate(input, r.value.progress.clocked, input.symbols, last, input.end);
      } else {
        PastChargesNothing(input, r.value.progress.clocked, input.symbols, last, input.end);
      }
    }
  }
}
