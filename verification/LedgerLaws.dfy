/** Conservation laws of the ledger: the cash identity that `summarize` relies on, and the
    refinement of average-cost accounts to a plain blotter of fills. */
module LedgerLaws {
  import opened Market
  import opened Sums
  import opened Bookkeeping

  // ----- sums over open positions

  lemma TotalOfNothing(f: (Symbol, Position) -> real)
    ensures Total(map[], f) == 0.0
  {
  }

  lemma TotalGrows(ps: map<Symbol, Position>, s: Symbol, p: Position, f: (Symbol, Position) -> real)
    requires s !in ps
    ensures Total(ps[s := p], f) == Total(ps, f) + f(s, p)
  {
    TotalPut(ps, s, p, f);
    assert ps - {s} == ps;
  }

  lemma TotalPut(ps: map<Symbol, Position>, s: Symbol, p: Position, f: (Symbol, Position) -> real)
    ensures Total(ps[s := p], f) == Total(ps - {s}, f) + f(s, p)
  {
    var m := map t | t in ps :: f(t, ps[t]);
    SumPut(m, s, f(s, p));
    var put := ps[s := p];
    assert (map t | t in put :: f(t, put[t])) == m[s := f(s, p)];
    var rest := ps - {s};
    assert (map t | t in rest :: f(t, rest[t])) == m - {s};
  }

  lemma TotalDrop(ps: map<Symbol, Position>, s: Symbol, f: (Symbol, Position) -> real)
    ensures Total(ps, f) == Total(ps - {s}, f) + if s in ps then f(s, ps[s]) else 0.0
  {
    if s in ps {
      TotalPut(ps, s, ps[s], f);
      assert ps[s := ps[s]] == ps;
    } else {
      assert ps - {s} == ps;
    }
  }

  // ----- the cash identity

  function NetPnl(trades: seq<Trade>): real {
    if trades == [] then 0.0 else NetPnl(trades[..|trades| - 1]) + trades[|trades| - 1].netPnl
  }

  lemma NetPnlAppend(trades: seq<Trade>, t: Trade)
    ensures NetPnl(trades + [t]) == NetPnl(trades) + t.netPnl
  {
    assert (trades + [t])[..|trades|] == trades;
  }

  /** What an open position still has to bring to its trades: carried PnL and unbooked costs. */
  function OpenAccount(): (Symbol, Position) -> real {
    (s: Symbol, p: Position) => p.carriedPnl + p.fees + p.funding
  }

  /** cash + open (carried PnL + fees + funding) - sum of trade net PnL. */
  ghost function Backing(l: Ledger): real {
    l.cash + Total(l.positions, OpenAccount()) - NetPnl(l.trades)
  }

  /** The ledger identity: the backing is the initial equity. */
  ghost predicate Balanced(l: Ledger, initialEquity: real) {
    Backing(l) == initialEquity
  }

  /** The fee of a reduce-only fill that finds no position: charged, but booked to no trade. */
  function StrayFee(cfg: Config, l: Ledger, order: OrderPlan, base: real): real {
    if order.reduceOnly && order.symbol !in l.positions
    then FeeOf(cfg, FillPrice(cfg, order, base), order.quantity) else 0.0
  }

  lemma WholeShare(p: Position)
    ensures forall total :: Share(total, p.quantity, p.quantity) == total
  {
    assert p.quantity / p.quantity == 1.0;
  }

  lemma BookBacking(l: Ledger, s: Symbol, quantity: real, exit: real, when: Time, fee: real,
                    reason: ExitReason)
    requires s in l.positions && 0.0 < quantity <= l.positions[s].quantity
    requires Book(l, s, quantity, exit, when, fee, reason).Success?
    ensures Backing(Book(l, s, quantity, exit, when, fee, reason).value) == Backing(l) + fee
    ensures Book(l, s, quantity, exit, when, fee, reason).value.stray == l.stray
  {
    var r := Book(l, s, quantity, exit, when, fee, reason).value;
    TotalDrop(l.positions, s, OpenAccount());
    NetPnlAppend(l.trades, r.trades[|l.trades|]);
    if quantity < l.positions[s].quantity {
      TotalPut(l.positions, s, r.positions[s], OpenAccount());
    } else {
      WholeShare(l.positions[s]);
    }
  }

  /** What a booking moves is neither lost nor doubled: quantity, fees, funding and carried PnL are
      split between the trade and what stays open, and a cooldown starts exactly after a losing
      protective exit. */
  lemma BookSplits(l: Ledger, s: Symbol, quantity: real, exit: real, when: Time, fee: real, reason: ExitReason)
    requires s in l.positions && 0.0 < quantity <= l.positions[s].quantity
    requires Book(l, s, quantity, exit, when, fee, reason).Success?
    ensures var p, r := l.positions[s], Book(l, s, quantity, exit, when, fee, reason).value;
            && r.trades != [] && r.trades[..|r.trades| - 1] == l.trades
            && var t := r.trades[|r.trades| - 1];
            && (s in r.positions <==> quantity < p.quantity)
            && (s in r.positions ==>
                  && r.positions[s].quantity + t.quantity == p.quantity
                  && r.positions[s].fees + t.fees == p.fees + fee
                  && r.positions[s].funding + t.funding == p.funding
                  && t.netPnl + t.fees + t.funding
                     == Gain(quantity, p.entryPrice, exit, p.side) - (p.carriedPnl - r.positions[s].carriedPnl))
            && (s !in r.positions ==>
                  && t.quantity == p.quantity && t.fees == p.fees + fee && t.funding == p.funding
                  && t.netPnl + t.fees + t.funding == Gain(quantity, p.entryPrice, exit, p.side) - p.carriedPnl)
            && (if reason in {StopLoss, TakeProfit} && t.netPnl < 0.0
                then s in r.cooldownUntil && r.cooldownUntil[s] == when + REENTRY_COOLDOWN
                else r.cooldownUntil == l.cooldownUntil)
            && r.positions - {s} == l.positions - {s}
            && r.pending == l.pending && r.scheduled == l.scheduled
  {
    hide Gain, Share;
    if quantity == l.positions[s].quantity {
      ShareOfWhole(l.positions[s]);
    }
  }

  lemma ShareOfWhole(p: Position)
    ensures Share(p.fees, p.quantity, p.quantity) == p.fees
    ensures Share(p.funding, p.quantity, p.quantity) == p.funding
    ensures Share(p.carriedPnl, p.quantity, p.quantity) == p.carriedPnl
  {
    WholeShare(p);
  }

  /** An addition adds quantities, costs and fees, takes the new leverage, and keeps the triggers that
      the order does not replace; a first order needs a stop. */
  lemma AdditionAddsUp(l: Ledger, order: OrderPlan, fill: real, when: Time, leverage: Leverage, fee: real)
    ensures var s, r := order.symbol, OpenOrAdd(l, order, fill, when, leverage, fee);
            && (r.Failure? <==> s !in l.positions && order.stopPrice.None?)
            && (r.Success? && s in l.positions ==>
                  var p, q := l.positions[s], r.value.positions[s];
                  && q.quantity == p.quantity + order.quantity
                  && q.quantity * q.entryPrice == p.quantity * p.entryPrice + order.quantity * fill
                  && q.fees == p.fees + fee && q.funding == p.funding && q.carriedPnl == p.carriedPnl
                  && q.side == p.side && q.entryTime == p.entryTime && q.leverage == leverage
                  && q.stopLoss == (if order.stopPrice.Some? then order.stopPrice.value else p.stopLoss)
                  && q.takeProfit == (if order.takeProfit.Some? then order.takeProfit else p.takeProfit))
  {
    hide AveragePrice;
    if order.symbol in l.positions {
      var p := l.positions[order.symbol];
      AverageTimesTotal(p.entryPrice, p.quantity, fill, order.quantity);
    }
  }

  lemma AverageTimesTotal(p0: real, q0: Quantity, p1: real, q1: Quantity)
    ensures (q0 + q1) * AveragePrice(p0, q0, p1, q1) == q0 * p0 + q1 * p1
  {
    var total := q0 + q1;
    assert total * AveragePrice(p0, q0, p1, q1) == p0 * q0 + p1 * q1;
  }

  lemma CloseAtBacking(cfg: Config, l: Ledger, s: Symbol, price: real, when: Time, reason: ExitReason)
    requires s in l.positions && CloseAt(cfg, l, s, price, when, reason).Success?
    ensures Backing(CloseAt(cfg, l, s, price, when, reason).value) == Backing(l)
    ensures CloseAt(cfg, l, s, price, when, reason).value.stray == l.stray
  {
    var p := l.positions[s];
    var fill := Slipped(cfg, price, ExitSide(p.side));
    var fee := FeeOf(cfg, fill, p.quantity);
    var paid := Pay(l, fee, [Traded(s, ExitSide(p.side), p.quantity, fill)]);
    BookBacking(paid, s, p.quantity, fill, when, fee, reason);
  }

  lemma ReduceBacking(l: Ledger, order: OrderPlan, fill: real, when: Time, fee: real)
    requires Reduce(l, order, fill, when, fee).Success?
    ensures Backing(Reduce(l, order, fill, when, fee).value)
         == Backing(l) - if order.symbol in l.positions then 0.0 else fee
    ensures Reduce(l, order, fill, when, fee).value.stray
         == l.stray + if order.symbol in l.positions then 0.0 else fee
  {
    if order.symbol in l.positions {
      var quantity := Min(order.quantity, l.positions[order.symbol].quantity);
      var paid := Pay(l, fee, [Traded(order.symbol, order.side, quantity, fill)]);
      BookBacking(paid, order.symbol, quantity, fill, when, fee, ModelExit);
    }
  }

  lemma OpenBacking(l: Ledger, order: OrderPlan, fill: real, when: Time, leverage: Leverage, fee: real)
    requires OpenOrAdd(l, order, fill, when, leverage, fee).Success?
    ensures Backing(OpenOrAdd(l, order, fill, when, leverage, fee).value) == Backing(l)
    ensures OpenOrAdd(l, order, fill, when, leverage, fee).value.stray == l.stray
  {
    var s := order.symbol;
    TotalDrop(l.positions, s, OpenAccount());
    TotalPut(l.positions, s, OpenOrAdd(l, order, fill, when, leverage, fee).value.positions[s], OpenAccount());
  }

  /** Every fill keeps the identity, except that a reduce-only fill without a position loses
      exactly its fee. */
  lemma FillBacking(cfg: Config, l: Ledger, order: OrderPlan, base: real, when: Time, leverage: Leverage)
    requires Fill(cfg, l, order, base, when, leverage).Success?
    ensures Backing(Fill(cfg, l, order, base, when, leverage).value)
         == Backing(l) - StrayFee(cfg, l, order, base)
    ensures Fill(cfg, l, order, base, when, leverage).value.stray == l.stray + StrayFee(cfg, l, order, base)
  {
    var fill := FillPrice(cfg, order, base);
    var fee := FeeOf(cfg, fill, order.quantity);
    if order.reduceOnly {
      ReduceBacking(l, order, fill, when, fee);
    } else {
      OpenBacking(l, order, fill, when, leverage, fee);
    }
  }

  lemma ExecuteBacking(cfg: Config, l: Ledger, order: OrderPlan, c: Candle, leverage: Leverage)
    requires ExecuteAtCandle(cfg, l, order, c, leverage).Success?
    ensures Backing(ExecuteAtCandle(cfg, l, order, c, leverage).value)
         == Backing(l) - if Rests(order, c) then 0.0 else StrayFee(cfg, l, order, c.open)
  {
    if !Rests(order, c) {
      FillBacking(cfg, l, order, c.open, c.timestamp, leverage);
    }
  }

  /** An order executed on arrival keeps the identity exactly when it is not a chargeable
      reduce-only fill without a position. */
  lemma ExecuteKeepsIdentityIff(cfg: Config, l: Ledger, order: OrderPlan, c: Candle,
                                leverage: Leverage, submittedAt: Option<Time>, initialEquity: real)
    requires Execute(cfg, l, order, c, leverage, submittedAt).Success?
    requires Balanced(l, initialEquity)
    ensures Balanced(Execute(cfg, l, order, c, leverage, submittedAt).value, initialEquity)
       <==> (Deferred(c, submittedAt) || Rests(order, c) || !order.reduceOnly
             || order.symbol in l.positions || FillPrice(cfg, order, c.open) * cfg.feeRate == 0.0)
  {
    if !Deferred(c, submittedAt) {
      ExecuteBacking(cfg, l, order, c, leverage);
      if StrayFee(cfg, l, order, c.open) != 0.0 {
        assert FillPrice(cfg, order, c.open) * cfg.feeRate != 0.0;
      }
    }
  }

  /** Activation is guarded against stray reduce-only orders, so it always keeps the identity. */
  lemma ActivateBacking(cfg: Config, l: Ledger, s: Symbol, through: Time)
    requires ActivateScheduled(cfg, l, s, through).Success?
    requires s in l.scheduled ==> l.scheduled[s].order.symbol == s
    ensures Backing(ActivateScheduled(cfg, l, s, through).value) == Backing(l)
  {
    if Due(l, s, through) {
      var o := l.scheduled[s];
      var taken := l.(scheduled := l.scheduled - {s});
      assert Backing(taken) == Backing(l);
      if !o.order.reduceOnly || s in l.positions {
        ExecuteBacking(cfg, taken, o.order, o.fillCandle, o.leverage);
      }
    }
  }

  lemma ProtectBacking(cfg: Config, l: Ledger, s: Symbol, c: Candle, allowTarget: bool)
    requires Protect(cfg, l, s, c, allowTarget).Success?
    ensures Backing(Protect(cfg, l, s, c, allowTarget).value) == Backing(l)
    ensures Protect(cfg, l, s, c, allowTarget).value.stray == l.stray
  {
    if s in l.positions {
      match Touched(l.positions[s], c, allowTarget)
      case None =>
      case Some((price, reason)) => CloseAtBacking(cfg, l, s, price, c.timestamp, reason);
    }
  }

  lemma FundingBacking(l: Ledger, s: Symbol, c: Candle)
    ensures Backing(ChargeFunding(l, s, c)) == Backing(l)
    ensures ChargeFunding(l, s, c).stray == l.stray
  {
    if s in l.positions {
      TotalDrop(l.positions, s, OpenAccount());
      TotalPut(l.positions, s, ChargeFunding(l, s, c).positions[s], OpenAccount());
    }
  }

  lemma FillRestingBacking(cfg: Config, l: Ledger, s: Symbol, c: Candle)
    requires FillResting(cfg, l, s, c).Success?
    requires s in l.pending ==> l.pending[s].order.symbol == s
    ensures Backing(FillResting(cfg, l, s, c).value) == Backing(l)
  {
    if s in l.pending && l.pending[s].submittedAt <= c.timestamp {
      var order: OrderPlan := l.pending[s].order;
      if Reaches(order.side, order.limit.value, c) {
        var taken := l.(pending := l.pending - {s});
        assert Backing(taken) == Backing(l);
        if !order.reduceOnly || s in l.positions {
          var atOpen := Marketable(order.side, order.limit.value, c.open);
          var base := if atOpen then c.open else order.limit.value;
          FillBacking(cfg, taken, order, base, c.timestamp, l.pending[s].leverage);
          var filled := Fill(cfg, taken, order, base, c.timestamp, l.pending[s].leverage).value;
          if !order.reduceOnly {
            ProtectBacking(cfg, filled, s, c, atOpen);
          }
        }
      }
    }
  }

  /** Settling a bar (funding, triggers, resting fills, partial closes) keeps the identity. */
  lemma SettleKeepsIdentity(cfg: Config, l: Ledger, s: Symbol, c: Candle, initialEquity: real)
    requires SettleCandle(cfg, l, s, c).Success?
    requires s in l.pending ==> l.pending[s].order.symbol == s
    requires Balanced(l, initialEquity)
    ensures Balanced(SettleCandle(cfg, l, s, c).value, initialEquity)
  {
    FundingBacking(l, s, c);
    ProtectBacking(cfg, ChargeFunding(l, s, c), s, c, true);
    FillRestingBacking(cfg, Protect(cfg, ChargeFunding(l, s, c), s, c, true).value, s, c);
  }

  lemma CloseEachBacking(cfg: Config, l: Ledger, order: seq<Symbol>, marks: map<Symbol, real>, when: Time)
    requires forall s :: s in order ==> s in l.positions
    requires forall i, j :: 0 <= i < j < |order| ==> order[i] != order[j]
    requires CloseEach(cfg, l, order, marks, when).Success?
    ensures Backing(CloseEach(cfg, l, order, marks, when).value) == Backing(l)
    decreases |order|
  {
    hide Book;
    if order != [] {
      var s := order[0];
      var price := MarkOf(marks, s, l.positions[s]);
      CloseAtBacking(cfg, l, s, price, when, RunEnd);
      var closed := CloseAt(cfg, l, s, price, when, RunEnd).value;
      CloseEachBacking(cfg, closed, order[1..], marks, when);
    }
  }

  /** After the run end the whole change of cash is the sum of the trades' net PnL. */
  lemma FlatCashIsNetPnl(cfg: Config, l: Ledger, order: seq<Symbol>, marks: map<Symbol, real>,
                         when: Time, initialEquity: real)
    requires ListsPositions(l, order)
    requires Balanced(l, initialEquity)
    requires CloseAll(cfg, l, order, marks, when).Success?
    ensures var flat := CloseAll(cfg, l, order, marks, when).value;
            && flat.positions == map[] && flat.pending == map[] && flat.scheduled == map[]
            && flat.cash == initialEquity + NetPnl(flat.trades)
  {
    CloseEachBacking(cfg, l, order, marks, when);
    var flat := CloseEach(cfg, l, order, marks, when).value;
    assert flat.positions == map[];
    assert Total(flat.positions, OpenAccount()) == 0.0 by {
      assert (map s | s in flat.positions :: OpenAccount()(s, flat.positions[s])) == map[];
    }
  }
}
