/** Average-cost accounts refine a plain blotter: at any prices, the equity of the ledger moves
    exactly as the blotter of executed fills, fees and funding says. */
module BlotterLaws {
  import opened Market
  import opened Sums
  import opened Bookkeeping
  import opened LedgerLaws

  /** What one blotter line is worth at the given prices. */
  function Worth(e: Entry, price: Symbol -> real): real {
    match e
    case Traded(s, side, quantity, at) => Gain(quantity, at, price(s), if side.Buy? then Long else Short)
    case Charged(amount) => -amount
  }

  function ClerkValue(blotter: seq<Entry>, price: Symbol -> real): real {
    if blotter == [] then 0.0
    else ClerkValue(blotter[..|blotter| - 1], price) + Worth(blotter[|blotter| - 1], price)
  }

  lemma ClerkAppend(blotter: seq<Entry>, e: Entry, price: Symbol -> real)
    ensures ClerkValue(blotter + [e], price) == ClerkValue(blotter, price) + Worth(e, price)
  {
    assert (blotter + [e])[..|blotter|] == blotter;
  }

  function PnlUnder(price: Symbol -> real): (Symbol, Position) -> real {
    (s: Symbol, p: Position) => PnlOf(p, price(s))
  }

  /** Equity at explicit prices for every symbol. */
  ghost function BookedValue(l: Ledger, price: Symbol -> real): real {
    l.cash + Total(l.positions, PnlUnder(price))
  }

  /** By how much the average-cost accounts and the clerk disagree. */
  ghost function Gap(l: Ledger, price: Symbol -> real): real {
    BookedValue(l, price) - ClerkValue(l.blotter, price)
  }

  /** Marks that cover the open positions give the equity the portfolio reports. */
  lemma BookedValueIsEquity(l: Ledger, marks: map<Symbol, real>, price: Symbol -> real)
    requires forall s :: s in l.positions ==> s in marks && marks[s] == price(s)
    ensures BookedValue(l, price) == Equity(l, marks)
  {
    assert (map s | s in l.positions :: PnlUnder(price)(s, l.positions[s]))
        == (map s | s in l.positions :: PnlAt(marks)(s, l.positions[s]));
  }

  lemma PayGap(l: Ledger, amount: real, traded: seq<Entry>, price: Symbol -> real)
    requires |traded| <= 1
    ensures Gap(Pay(l, amount, traded), price)
         == Gap(l, price) - if traded == [] then 0.0 else Worth(traded[0], price)
  {
    ClerkAppend(l.blotter, Charged(amount), price);
    if traded != [] {
      assert traded == [traded[0]];
      ClerkAppend(l.blotter + [Charged(amount)], traded[0], price);
    } else {
      assert l.blotter + [Charged(amount)] + traded == l.blotter + [Charged(amount)];
    }
  }

  /** Averaging the price of an addition preserves its value at every mark. */
  lemma AverageCost(q0: Quantity, p0: real, q1: Quantity, p1: real, mark: real, side: Side)
    ensures Gain(q0 + q1, AveragePrice(p0, q0, p1, q1), mark, side)
         == Gain(q0, p0, mark, side) + Gain(q1, p1, mark, side)
  {
    var total := q0 + q1;
    assert total * AveragePrice(p0, q0, p1, q1) == p0 * q0 + p1 * q1;
  }

  /** Realising a part of a position and revaluing the rest is revaluing the whole. */
  lemma SplitGain(quantity: real, part: real, entry: real, exit: real, mark: real, side: Side)
    ensures Gain(quantity, entry, mark, side)
         == Gain(quantity - part, entry, mark, side) + Gain(part, entry, exit, side) + Gain(part, exit, mark, side)
    ensures part == quantity ==> Gain(quantity - part, entry, mark, side) == 0.0
  {
  }

  lemma OppositeGain(quantity: real, from: real, to: real)
    ensures Gain(quantity, from, to, Short) == -Gain(quantity, from, to, Long)
  {
  }

  lemma BookGap(l: Ledger, s: Symbol, quantity: real, exit: real, when: Time, fee: real,
                reason: ExitReason, price: Symbol -> real)
    requires s in l.positions && 0.0 < quantity <= l.positions[s].quantity
    requires Book(l, s, quantity, exit, when, fee, reason).Success?
    ensures Gap(Book(l, s, quantity, exit, when, fee, reason).value, price)
         == Gap(l, price) - Gain(quantity, exit, price(s), l.positions[s].side)
  {
    hide Gain;
    var r := Book(l, s, quantity, exit, when, fee, reason).value;
    var p := l.positions[s];
    SplitGain(p.quantity, quantity, p.entryPrice, exit, price(s), p.side);
    TotalDrop(l.positions, s, PnlUnder(price));
    if quantity < p.quantity {
      TotalPut(l.positions, s, r.positions[s], PnlUnder(price));
    }
  }

  lemma CloseAtGap(cfg: Config, l: Ledger, s: Symbol, base: real, when: Time, reason: ExitReason,
                   price: Symbol -> real)
    requires s in l.positions && CloseAt(cfg, l, s, base, when, reason).Success?
    ensures Gap(CloseAt(cfg, l, s, base, when, reason).value, price) == Gap(l, price)
  {
    var p := l.positions[s];
    var fill := Slipped(cfg, base, ExitSide(p.side));
    var fee := FeeOf(cfg, fill, p.quantity);
    var traded := [Traded(s, ExitSide(p.side), p.quantity, fill)];
    PayGap(l, fee, traded, price);
    OppositeGain(p.quantity, fill, price(s));
    BookGap(Pay(l, fee, traded), s, p.quantity, fill, when, fee, reason, price);
  }

  /** Orders open or add on the side of a held position and reduce on the other side. */
  predicate Conforms(l: Ledger, order: OrderPlan) {
    order.symbol in l.positions ==>
      (order.reduceOnly <==> order.side == ExitSide(l.positions[order.symbol].side))
  }

  /** The gap the fill of a non-conforming order opens at price `at`. */
  function Misfit(l: Ledger, order: OrderPlan, fill: real, at: real): real {
    if Conforms(l, order) then 0.0 else
    var quantity := if order.reduceOnly then Min(order.quantity, l.positions[order.symbol].quantity)
                    else order.quantity;
    2.0 * Gain(quantity, fill, at, if order.side.Buy? then Short else Long)
  }

  lemma StrayHasNoGap(l: Ledger, stray: real, price: Symbol -> real)
    ensures Gap(l.(stray := stray), price) == Gap(l, price)
  {
  }

  lemma ReduceGap(l: Ledger, order: OrderPlan, fill: real, when: Time, fee: real, price: Symbol -> real)
    requires order.reduceOnly && Reduce(l, order, fill, when, fee).Success?
    ensures Gap(Reduce(l, order, fill, when, fee).value, price)
         == Gap(l, price) + Misfit(l, order, fill, price(order.symbol))
  {
    hide Gap, Gain, Book;
    var s := order.symbol;
    if s in l.positions {
      var quantity := Min(order.quantity, l.positions[s].quantity);
      var traded := [Traded(s, order.side, quantity, fill)];
      PayGap(l, fee, traded, price);
      OppositeGain(quantity, fill, price(s));
      BookGap(Pay(l, fee, traded), s, quantity, fill, when, fee, ModelExit, price);
    } else {
      PayGap(l, fee, [], price);
      StrayHasNoGap(Pay(l, fee, []), l.stray + fee, price);
    }
  }

  lemma OpenGap(l: Ledger, order: OrderPlan, fill: real, when: Time, leverage: Leverage, fee: real,
                price: Symbol -> real)
    requires !order.reduceOnly && OpenOrAdd(l, order, fill, when, leverage, fee).Success?
    ensures Gap(OpenOrAdd(l, order, fill, when, leverage, fee).value, price)
         == Gap(l, price) + Misfit(l, order, fill, price(order.symbol))
  {
    hide Gain, AveragePrice;
    var s := order.symbol;
    var r := OpenOrAdd(l, order, fill, when, leverage, fee).value;
    PayGap(l, fee, [Traded(s, order.side, order.quantity, fill)], price);
    TotalDrop(l.positions, s, PnlUnder(price));
    TotalPut(l.positions, s, r.positions[s], PnlUnder(price));
    OppositeGain(order.quantity, fill, price(s));
    if s in l.positions {
      var p := l.positions[s];
      AverageCost(p.quantity, p.entryPrice, order.quantity, fill, price(s), p.side);
    }
  }

  /** A fill changes equity as the blotter says, up to the misfit of a non-conforming order. */
  lemma FillGap(cfg: Config, l: Ledger, order: OrderPlan, base: real, when: Time, leverage: Leverage,
                price: Symbol -> real)
    requires Fill(cfg, l, order, base, when, leverage).Success?
    ensures Gap(Fill(cfg, l, order, base, when, leverage).value, price)
         == Gap(l, price) + Misfit(l, order, FillPrice(cfg, order, base), price(order.symbol))
  {
    hide Gap, Reduce, OpenOrAdd, Misfit;
    var fill := FillPrice(cfg, order, base);
    var fee := FeeOf(cfg, fill, order.quantity);
    if order.reduceOnly {
      ReduceGap(l, order, fill, when, fee, price);
    } else {
      OpenGap(l, order, fill, when, leverage, fee, price);
    }
  }

  /** The average-cost accounts keep agreeing with the blotter at all prices exactly when the
      order opens or adds on the held side, or reduces on the opposite one. */
  lemma FillRefinesBlotterIff(cfg: Config, l: Ledger, order: OrderPlan, base: real, when: Time,
                              leverage: Leverage)
    requires Fill(cfg, l, order, base, when, leverage).Success?
    ensures (forall price: Symbol -> real ::
               Gap(Fill(cfg, l, order, base, when, leverage).value, price) == Gap(l, price))
       <==> Conforms(l, order)
  {
    hide Gap, Fill;
    var after := Fill(cfg, l, order, base, when, leverage).value;
    forall price: Symbol -> real | Conforms(l, order)
      ensures Gap(after, price) == Gap(l, price)
    {
      FillGap(cfg, l, order, base, when, leverage, price);
    }
    if !Conforms(l, order) {
      var price: Symbol -> real := s => FillPrice(cfg, order, base) + 1.0;
      FillGap(cfg, l, order, base, when, leverage, price);
      assert Gap(after, price) != Gap(l, price);
    }
  }

  lemma ProtectGap(cfg: Config, l: Ledger, s: Symbol, c: Candle, allowTarget: bool, price: Symbol -> real)
    requires Protect(cfg, l, s, c, allowTarget).Success?
    ensures Gap(Protect(cfg, l, s, c, allowTarget).value, price) == Gap(l, price)
  {
    if s in l.positions {
      match Touched(l.positions[s], c, allowTarget)
      case None =>
      case Some((base, reason)) => CloseAtGap(cfg, l, s, base, c.timestamp, reason, price);
    }
  }

  lemma FundingGap(l: Ledger, s: Symbol, c: Candle, price: Symbol -> real)
    ensures Gap(ChargeFunding(l, s, c), price) == Gap(l, price)
  {
    if s in l.positions {
      var p := l.positions[s];
      PayGap(l, FundingOf(p, c), [], price);
      TotalDrop(l.positions, s, PnlUnder(price));
      TotalPut(l.positions, s, ChargeFunding(l, s, c).positions[s], PnlUnder(price));
    }
  }
}
