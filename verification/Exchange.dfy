/** The simulated exchange as the object it is: fields updated in place, each method proved to
    compute the function of the same name in module Bookkeeping on the whole state. */
module Exchange {
  import opened Market
  import opened Sums
  import opened EquityWindow
  import opened Bookkeeping
  import LedgerLaws

  class SimulatedExchange {
    const config: Config
    var cash: real
    var positions: map<Symbol, Position>
    var pending: map<Symbol, PendingOrder>
    var scheduled: map<Symbol, ScheduledOrder>
    var cooldownUntil: map<Symbol, Time>
    var trades: seq<Trade>
    var equityWindow: seq<EquityPoint>

    /** The clerk's tape, and every equity sample ever taken. */
    ghost var blotter: seq<Entry>
    ghost var stray: real
    ghost var samples: seq<EquityPoint>

    ghost function State(): Ledger
      reads this
    {
      Ledger(cash, positions, pending, scheduled, cooldownUntil, trades, equityWindow, blotter, stray)
    }

    /** The pruned window agrees with the complete history of samples. */
    ghost predicate Valid()
      reads this
    {
      Increasing(samples) && IsWindowOf(equityWindow, samples)
    }

    constructor (config: Config)
      ensures Valid() && this.config == config && samples == []
      ensures State() == Ledger(config.initialEquity, map[], map[], map[], map[], [], [], [], 0.0)
    {
      this.config := config;
      cash := config.initialEquity;
      positions, pending, scheduled, cooldownUntil := map[], map[], map[], map[];
      trades, equityWindow := [], [];
      blotter, stray, samples := [], 0.0, [];
    }

    static method CarriedPnl(views: map<Symbol, PositionView>) returns (carried: real)
      ensures carried == Sum(map s | s in views :: views[s].unrealizedPnl)
    {
      carried := 0.0;
      var rest := views.Keys;
      ghost var seen: map<Symbol, real> := map[];
      while rest != {}
        invariant rest <= views.Keys
        invariant seen == map s | s in views && s !in rest :: views[s].unrealizedPnl
        invariant carried == Sum(seen)
        decreases rest
      {
        var s :| s in rest;
        carried := carried + views[s].unrealizedPnl;
        SumPut(seen, s, views[s].unrealizedPnl);
        assert seen - {s} == seen;
        seen := seen[s := views[s].unrealizedPnl];
        rest := rest - {s};
      }
      assert seen == map s | s in views :: views[s].unrealizedPnl;
    }

    /** Starts from a recorded account: cash is its equity without the PnL its positions carry. */
    static method FromPortfolio(config: Config, initial: Portfolio, at: Time)
      returns (r: Result<SimulatedExchange>)
      ensures r.Success? <==> initial.equity == config.initialEquity
      ensures r.Failure? ==> r.error == EquityMismatch
      ensures r.Success? ==> fresh(r.value) && r.value.Valid() && r.value.config == config
                             && r.value.samples == [] && r.value.State() == Carried(initial, at)
    {
      if initial.equity != config.initialEquity {
        return Failure(EquityMismatch);
      }
      var e := new SimulatedExchange(config);
      var carried := CarriedPnl(initial.positions);
      e.cash := initial.equity - carried;
      e.cooldownUntil := initial.cooldownUntil;
      e.positions := map s | s in initial.positions :: CarriedPosition(initial.positions[s], at);
      return Success(e);
    }

    /** A copy that shares no state with the original. */
    method DeepCopy() returns (copy: SimulatedExchange)
      requires Valid()
      ensures fresh(copy) && copy.Valid() && copy.config == config
      ensures copy.State() == State() && copy.samples == samples
    {
      copy := new SimulatedExchange(config);
      copy.cash, copy.positions, copy.pending, copy.scheduled := cash, positions, pending, scheduled;
      copy.cooldownUntil, copy.trades, copy.equityWindow := cooldownUntil, trades, equityWindow;
      copy.blotter, copy.stray, copy.samples := blotter, stray, samples;
    }

    predicate HasPending(s: Symbol)
      reads this
    {
      s in pending || s in scheduled
    }

    // ----- valuation

    /** The loop over open positions: unrealised PnL, margin and the view of each position. */
    method Value(marks: map<Symbol, real>)
      returns (unrealized: real, margin: real, views: map<Symbol, PositionView>)
      ensures unrealized == Total(positions, PnlAt(marks))
      ensures margin == Total(positions, MarginAt(marks))
      ensures views == ViewsOf(positions, marks)
    {
      hide PnlOf, MarginOf, ViewOf, Total;
      unrealized, margin, views := 0.0, 0.0, map[];
      LedgerLaws.TotalOfNothing(PnlAt(marks));
      LedgerLaws.TotalOfNothing(MarginAt(marks));
      var rest := positions.Keys;
      ghost var seen: map<Symbol, Position> := map[];
      while rest != {}
        invariant rest <= positions.Keys
        invariant seen.Keys == views.Keys == positions.Keys - rest
        invariant forall s :: s in seen ==> seen[s] == positions[s]
        invariant forall s :: s in views ==> views[s] == ViewOf(positions[s], MarkOf(marks, s, positions[s]))
        invariant unrealized == Total(seen, PnlAt(marks))
        invariant margin == Total(seen, MarginAt(marks))
        decreases rest
      {
        var s :| s in rest;
        var p := positions[s];
        var mark := MarkOf(marks, s, p);
        unrealized := unrealized + PnlOf(p, mark);
        margin := margin + MarginOf(p, mark);
        views := views[s := ViewOf(p, mark)];
        LedgerLaws.TotalGrows(seen, s, p, PnlAt(marks));
        LedgerLaws.TotalGrows(seen, s, p, MarginAt(marks));
        seen := seen[s := p];
        rest := rest - {s};
      }
      assert seen == positions;
    }

    method PruneFront(cutoff: Time)
      modifies this`equityWindow
      ensures equityWindow == Prune(old(equityWindow), cutoff)
    {
      while |equityWindow| > 1 && equityWindow[1].timestamp <= cutoff
        invariant Prune(equityWindow, cutoff) == Prune(old(equityWindow), cutoff)
        decreases |equityWindow|
      {
        equityWindow := equityWindow[1..];
      }
    }

    /** Records the equity at `now` and drops samples the 24-hour window no longer needs. */
    method Sample(equity: real, now: Time) returns (r: Result<real>)
      requires Valid()
      modifies this`equityWindow, this`samples
      ensures Valid()
      ensures r.Failure? <==> old(equityWindow) != [] && now < old(equityWindow)[|old(equityWindow)| - 1].timestamp
      ensures r.Failure? ==> r.error == TimeMovedBackwards
                             && equityWindow == old(equityWindow) && samples == old(samples)
      ensures r.Success? ==> equityWindow == Prune(Record(old(equityWindow), EquityPoint(now, equity)), now - DAY)
      ensures r.Success? ==> samples == Record(old(samples), EquityPoint(now, equity))
      ensures r.Success? ==> equityWindow != [] && samples != []
                             && r.value == equityWindow[0].equity == samples[Reference(samples, now - DAY)].equity
    {
      hide Increasing, IsWindowOf, Prune, Reference;
      LastSample(equityWindow, samples);
      if equityWindow != [] && now < equityWindow[|equityWindow| - 1].timestamp {
        return Failure(TimeMovedBackwards);
      }
      var point := EquityPoint(now, equity);
      SampleKeepsWindow(equityWindow, samples, point);
      if equityWindow != [] && now == equityWindow[|equityWindow| - 1].timestamp {
        equityWindow := equityWindow[..|equityWindow| - 1] + [point];
      } else {
        equityWindow := equityWindow + [point];
      }
      samples := Record(samples, point);
      PruneFront(now - DAY);
      return Success(equityWindow[0].equity);
    }

    /** Samples the equity at `now`. The reported 24-hour PnL is measured from the last sample at
        or before 24 hours ago in the complete history, or from the earliest sample. */
    method PortfolioStateAt(marks: map<Symbol, real>, now: Time) returns (r: Result<Portfolio>)
      requires Valid()
      modifies this
      ensures Valid()
      ensures r.Failure? ==> ObserveAt(old(State()), marks, now) == Failure(r.error)
      ensures r.Failure? ==> State() == old(State()) && samples == old(samples)
      ensures r.Success? ==> ObserveAt(old(State()), marks, now) == Success((State(), r.value))
      ensures r.Success? ==> samples == Record(old(samples), EquityPoint(now, Equity(old(State()), marks)))
      ensures r.Success? ==>
                r.value.pnl24h == Equity(State(), marks) - samples[Reference(samples, now - DAY)].equity
    {
      hide Gain, MarginOf, ViewOf, ViewsOf, IsWindowOf, Prune, Record, Reference, Total;
      var unrealized, margin, views := Value(marks);
      var equity := cash + unrealized;
      var windowStart := Sample(equity, now);
      if windowStart.Failure? {
        return Failure(windowStart.error);
      }
      r := Success(Portfolio(
        Max(EQUITY_FLOOR, equity), Max(0.0, equity - margin), equity - windowStart.value,
        |positions|, margin, views, Cooling(cooldownUntil, Some(now))));
    }

    /** The portfolio without an instant: nothing is sampled. */
    method PortfolioState(marks: map<Symbol, real>) returns (r: Portfolio)
      ensures r == Observe(State(), marks, WindowStart(config, State()), None)
    {
      var unrealized, margin, views := Value(marks);
      var equity := cash + unrealized;
      var windowStart := config.initialEquity;
      if equityWindow != [] {
        windowStart := equityWindow[0].equity;
      }
      r := Portfolio(Max(EQUITY_FLOOR, equity), Max(0.0, equity - margin), equity - windowStart,
                     |positions|, margin, views, Cooling(cooldownUntil, None));
    }

    method EquityValue(marks: map<Symbol, real>) returns (equity: real)
      ensures equity == Max(EQUITY_FLOOR, Equity(State(), marks))
    {
      var portfolio := PortfolioState(marks);
      equity := portfolio.equity;
    }

    // ----- booking

    method Book(s: Symbol, quantity: real, exit: real, when: Time, fee: real, reason: ExitReason)
      returns (r: Result<()>)
      requires Valid() && s in positions && 0.0 < quantity <= positions[s].quantity
      modifies this
      ensures Valid() && samples == old(samples)
      ensures pending == old(pending) && scheduled == old(scheduled)
      ensures r.Success? ==> Bookkeeping.Book(old(State()), s, quantity, exit, when, fee, reason) == Success(State())
      ensures r.Failure? ==> Bookkeeping.Book(old(State()), s, quantity, exit, when, fee, reason) == Failure(r.error)
    {
      var p := positions[s];
      if when < p.entryTime {
        return Failure(ExitBeforeEntry);
      }
      var lifetimeGross := Gain(quantity, p.entryPrice, exit, p.side);
      var carried := Share(p.carriedPnl, quantity, p.quantity);
      var gross := lifetimeGross - carried;
      var entryFees := Share(p.fees, quantity, p.quantity);
      var funding := Share(p.funding, quantity, p.quantity);
      cash := cash + lifetimeGross;
      var trade := Trade(s, p.side, quantity, p.entryTime, p.entryPrice, when, exit,
                         gross - entryFees - fee - funding, entryFees + fee, funding, reason);
      trades := trades + [trade];
      if reason in {StopLoss, TakeProfit} && trade.netPnl < 0.0 {
        cooldownUntil := cooldownUntil[s := when + REENTRY_COOLDOWN];
      }
      var left := p.quantity - quantity;
      if left <= 0.0 {
        positions := positions - {s};
      } else {
        positions := positions[s := p.(quantity := left, fees := p.fees - entryFees,
                                       funding := p.funding - funding, carriedPnl := p.carriedPnl - carried)];
      }
      return Success(());
    }

    method CloseAt(s: Symbol, price: real, when: Time, reason: ExitReason) returns (r: Result<()>)
      requires Valid() && s in positions
      modifies this
      ensures Valid() && samples == old(samples)
      ensures pending == old(pending) && scheduled == old(scheduled)
      ensures r.Success? ==> Bookkeeping.CloseAt(config, old(State()), s, price, when, reason) == Success(State())
      ensures r.Failure? ==> Bookkeeping.CloseAt(config, old(State()), s, price, when, reason) == Failure(r.error)
    {
      var p := positions[s];
      var fill := Slipped(config, price, ExitSide(p.side));
      var fee := FeeOf(config, fill, p.quantity);
      cash := cash - fee;
      blotter := blotter + [Charged(fee)] + [Traded(s, ExitSide(p.side), p.quantity, fill)];
      r := Book(s, p.quantity, fill, when, fee, reason);
    }

    method OpenOrAdd(order: OrderPlan, fill: real, when: Time, leverage: Leverage, fee: real)
      returns (r: Result<()>)
      requires Valid()
      modifies this
      ensures Valid() && samples == old(samples)
      ensures r.Success? ==> Bookkeeping.OpenOrAdd(old(State()), order, fill, when, leverage, fee) == Success(State())
      ensures r.Failure? ==> Bookkeeping.OpenOrAdd(old(State()), order, fill, when, leverage, fee) == Failure(r.error)
    {
      cash := cash - fee;
      blotter := blotter + [Charged(fee)] + [Traded(order.symbol, order.side, order.quantity, fill)];
      if order.symbol !in positions {
        if order.stopPrice.None? {
          return Failure(MissingStop);
        }
        positions := positions[order.symbol := Position(
          if order.side.Buy? then Long else Short, order.quantity, fill, when, leverage,
          order.stopPrice.value, order.takeProfit, fee, 0.0, 0.0)];
        return Success(());
      }
      var p := positions[order.symbol];
      p := p.(entryPrice := AveragePrice(p.entryPrice, p.quantity, fill, order.quantity),
              quantity := p.quantity + order.quantity, leverage := leverage, fees := p.fees + fee);
      if order.stopPrice.Some? {
        p := p.(stopLoss := order.stopPrice.value);
      }
      if order.takeProfit.Some? {
        p := p.(takeProfit := order.takeProfit);
      }
      positions := positions[order.symbol := p];
      return Success(());
    }

    method Reduce(order: OrderPlan, fill: real, when: Time, fee: real) returns (r: Result<()>)
      requires Valid()
      modifies this
      ensures Valid() && samples == old(samples)
      ensures r.Success? ==> Bookkeeping.Reduce(old(State()), order, fill, when, fee) == Success(State())
      ensures r.Failure? ==> Bookkeeping.Reduce(old(State()), order, fill, when, fee) == Failure(r.error)
    {
      cash := cash - fee;
      if order.symbol !in positions {
        blotter := blotter + [Charged(fee)] + [];
        stray := stray + fee;
        return Success(());
      }
      var quantity := Min(order.quantity, positions[order.symbol].quantity);
      blotter := blotter + [Charged(fee)] + [Traded(order.symbol, order.side, quantity, fill)];
      r := Book(order.symbol, quantity, fill, when, fee, ModelExit);
    }

    method Fill(order: OrderPlan, base: real, when: Time, leverage: Leverage) returns (r: Result<Report>)
      requires Valid()
      modifies this
      ensures Valid() && samples == old(samples)
      ensures r.Success? ==> Bookkeeping.Fill(config, old(State()), order, base, when, leverage) == Success(State())
      ensures r.Failure? ==> Bookkeeping.Fill(config, old(State()), order, base, when, leverage) == Failure(r.error)
      ensures r.Success? ==>
                r.value == Report(Filled, order.quantity, Some(FillPrice(config, order, base)), when)
    {
      var fill := Slipped(config, base, order.side);
      if order.limit.Some? {
        if order.side.Buy? {
          fill := Min(fill, order.limit.value);
        } else {
          fill := Max(fill, order.limit.value);
        }
      }
      var fee := FeeOf(config, fill, order.quantity);
      var booked: Result<()>;
      if order.reduceOnly {
        booked := Reduce(order, fill, when, fee);
      } else {
        booked := OpenOrAdd(order, fill, when, leverage, fee);
      }
      if booked.Failure? {
        return Failure(booked.error);
      }
      return Success(Report(Filled, order.quantity, Some(fill), when));
    }

    // ----- orders

    method ExecuteAtCandle(order: OrderPlan, c: Candle, leverage: Leverage) returns (r: Result<Report>)
      requires Valid()
      modifies this
      ensures Valid() && samples == old(samples)
      ensures r.Success? ==> Bookkeeping.ExecuteAtCandle(config, old(State()), order, c, leverage) == Success(State())
      ensures r.Failure? ==> Bookkeeping.ExecuteAtCandle(config, old(State()), order, c, leverage) == Failure(r.error)
      ensures r.Success? ==> r.value == ExecutionReport(config, order, c, None)
    {
      if order.limit.Some? {
        if !Marketable(order.side, order.limit.value, c.open) {
          pending := pending[order.symbol := PendingOrder(order, c.timestamp, leverage)];
          return Success(Report(New, 0.0, None, c.timestamp));
        }
      }
      r := Fill(order, c.open, c.timestamp, leverage);
    }

    method Execute(order: OrderPlan, c: Candle, leverage: Leverage, submittedAt: Option<Time>)
      returns (r: Result<Report>)
      requires Valid()
      modifies this
      ensures Valid() && samples == old(samples)
      ensures r.Success? ==>
                Bookkeeping.Execute(config, old(State()), order, c, leverage, submittedAt) == Success(State())
      ensures r.Failure? ==>
                Bookkeeping.Execute(config, old(State()), order, c, leverage, submittedAt) == Failure(r.error)
      ensures r.Success? ==> r.value == ExecutionReport(config, order, c, submittedAt)
    {
      if submittedAt.Some? && c.timestamp > submittedAt.value {
        scheduled := scheduled[order.symbol := ScheduledOrder(order, submittedAt.value, c, leverage)];
        return Success(Report(New, 0.0, None, submittedAt.value));
      }
      r := ExecuteAtCandle(order, c, leverage);
    }

    method ActivateScheduled(s: Symbol, through: Time) returns (r: Result<()>)
      requires Valid()
      modifies this
      ensures Valid() && samples == old(samples)
      ensures r.Success? ==> Bookkeeping.ActivateScheduled(config, old(State()), s, through) == Success(State())
      ensures r.Failure? ==> Bookkeeping.ActivateScheduled(config, old(State()), s, through) == Failure(r.error)
    {
      if s !in scheduled || scheduled[s].fillCandle.timestamp > through {
        return Success(());
      }
      var o := scheduled[s];
      scheduled := scheduled - {s};
      if o.order.reduceOnly && s !in positions {
        return Success(());
      }
      var report := ExecuteAtCandle(o.order, o.fillCandle, o.leverage);
      r := if report.Failure? then Failure(report.error) else Success(());
    }

    // ----- settlement

    method Protect(s: Symbol, c: Candle, allowTarget: bool) returns (r: Result<()>)
      requires Valid()
      modifies this
      ensures Valid() && samples == old(samples)
      ensures r.Success? ==> Bookkeeping.Protect(config, old(State()), s, c, allowTarget) == Success(State())
      ensures r.Failure? ==> Bookkeeping.Protect(config, old(State()), s, c, allowTarget) == Failure(r.error)
    {
      hide Bookkeeping.CloseAt, Touched, IsWindowOf, Increasing;
      r := Success(());
      if s in positions {
        var touched := Touched(positions[s], c, allowTarget);
        if touched.Some? {
          r := CloseAt(s, touched.value.0, c.timestamp, touched.value.1);
        }
      }
    }

    method SettleCandle(s: Symbol, c: Candle) returns (r: Result<()>)
      requires Valid()
      modifies this
      ensures Valid() && samples == old(samples)
      ensures r.Success? ==> Bookkeeping.SettleCandle(config, old(State()), s, c) == Success(State())
      ensures r.Failure? ==> Bookkeeping.SettleCandle(config, old(State()), s, c) == Failure(r.error)
    {
      hide Bookkeeping.CloseAt, Touched, Bookkeeping.FillResting, IsWindowOf, Increasing;
      if s in positions {
        var p := positions[s];
        var funding := FundingOf(p, c);
        positions := positions[s := p.(funding := p.funding + funding)];
        cash := cash - funding;
        blotter := blotter + [Charged(funding)] + [];
        assert State() == ChargeFunding(old(State()), s, c);
        r := Protect(s, c, true);
        if r.Failure? {
          return;
        }
      }
      assert Bookkeeping.Protect(config, ChargeFunding(old(State()), s, c), s, c, true) == Success(State());
      r := FillResting(s, c);
    }

    /** The resting order of the bar's symbol, once the open position has been guarded. */
    method FillResting(s: Symbol, c: Candle) returns (r: Result<()>)
      requires Valid()
      modifies this
      ensures Valid() && samples == old(samples)
      ensures r.Success? ==> Bookkeeping.FillResting(config, old(State()), s, c) == Success(State())
      ensures r.Failure? ==> Bookkeeping.FillResting(config, old(State()), s, c) == Failure(r.error)
    {
      hide Bookkeeping.Protect, Bookkeeping.Fill, IsWindowOf, Increasing;
      if s !in pending || c.timestamp < pending[s].submittedAt {
        return Success(());
      }
      var resting := pending[s];
      var order: OrderPlan := resting.order;
      var touched := if order.side.Buy? then c.low <= order.limit.value else c.high >= order.limit.value;
      if !touched {
        return Success(());
      }
      if order.reduceOnly && s !in positions {
        pending := pending - {s};
        return Success(());
      }
      var marketableAtOpen := Marketable(order.side, order.limit.value, c.open);
      var base := if marketableAtOpen then c.open else order.limit.value;
      pending := pending - {s};
      var filled := Fill(order, base, c.timestamp, resting.leverage);
      if filled.Failure? {
        return Failure(filled.error);
      }
      if order.reduceOnly {
        return Success(());
      }
      r := Protect(s, c, marketableAtOpen);
    }

    method CloseEach(order: seq<Symbol>, marks: map<Symbol, real>, when: Time) returns (r: Result<()>)
      requires Valid() && ListsPositions(State(), order)
      modifies this
      ensures Valid() && samples == old(samples)
      ensures r.Success? ==> Bookkeeping.CloseEach(config, old(State()), order, marks, when) == Success(State())
      ensures r.Failure? ==> Bookkeeping.CloseEach(config, old(State()), order, marks, when) == Failure(r.error)
      ensures pending == old(pending) && scheduled == old(scheduled)
    {
      hide Bookkeeping.CloseAt, Increasing, IsWindowOf;
      var i := 0;
      while i < |order|
        invariant 0 <= i <= |order|
        invariant Valid() && samples == old(samples)
        invariant pending == old(pending) && scheduled == old(scheduled)
        invariant forall s :: s in order[i..] ==> s in positions
        invariant Bookkeeping.CloseEach(config, State(), order[i..], marks, when)
               == Bookkeeping.CloseEach(config, old(State()), order, marks, when)
      {
        var s := order[i];
        ghost var before := State();
        assert s in order[i..];
        var closed := CloseAt(s, MarkOf(marks, s, positions[s]), when, RunEnd);
        CloseEachStep(config, before, order, i, marks, when);
        if closed.Failure? {
          return Failure(closed.error);
        }
        i := i + 1;
      }
      return Success(());
    }

    /** Flattens in the given iteration order and reports how many resting orders it cancelled. */
    method CloseAll(order: seq<Symbol>, marks: map<Symbol, real>, when: Time) returns (r: Result<nat>)
      requires Valid() && ListsPositions(State(), order)
      modifies this
      ensures Valid() && samples == old(samples)
      ensures r.Success? ==> Bookkeeping.CloseAll(config, old(State()), order, marks, when) == Success(State())
      ensures r.Failure? ==> Bookkeeping.CloseAll(config, old(State()), order, marks, when) == Failure(r.error)
      ensures r.Success? ==> r.value == |old(pending)| + |old(scheduled)|
    {
      var closed := CloseEach(order, marks, when);
      if closed.Failure? {
        return Failure(closed.error);
      }
      var cancelled := |pending| + |scheduled|;
      pending, scheduled := map[], map[];
      return Success(cancelled);
    }
  }

  /** A recorded position as it enters the replay: its PnL so far is carried, its costs are not. */
  function CarriedPosition(v: PositionView, at: Time): Position {
    Position(v.side, v.quantity, v.entryPrice, at, v.leverage,
             if v.stopLoss.Some? then v.stopLoss.value else v.entryPrice, v.takeProfit,
             0.0, 0.0, v.unrealizedPnl)
  }

  ghost function Carried(initial: Portfolio, at: Time): Ledger {
    Ledger(
      initial.equity - Sum(map s | s in initial.positions :: initial.positions[s].unrealizedPnl),
      map s | s in initial.positions :: CarriedPosition(initial.positions[s], at),
      map[], map[], initial.cooldownUntil, [], [], [], 0.0)
  }

  /** A recorded account starts balanced: cash plus carried PnL is its equity. */
  lemma CarriedIsBalanced(initial: Portfolio, at: Time)
    ensures LedgerLaws.Balanced(Carried(initial, at), initial.equity)
  {
    var l := Carried(initial, at);
    assert (map s | s in l.positions :: LedgerLaws.OpenAccount()(s, l.positions[s]))
        == (map s | s in initial.positions :: initial.positions[s].unrealizedPnl);
  }
}
