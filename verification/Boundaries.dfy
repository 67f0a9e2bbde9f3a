/** Concrete inputs on which a law that reads as if it held everywhere does not. The exact conditions
    are the if-and-only-if lemmas named with each. */
module Boundaries {
  import opened Market
  import opened Sums
  import opened Bookkeeping
  import LedgerLaws
  import BlotterLaws
  import Summary
  import Outcomes
  import OutcomeLaws

  const FEES: Config := Config(100.0, 0.01, 0.0)
  const FLAT: Ledger := Ledger(100.0, map[], map[], map[], map[], [], [], [], 0.0)
  const BAR: Candle := Candle(0, 10.0, 12.0, 9.0, 11.0, 0.0)

  function AtMarket(side: OrderSide, reduceOnly: bool): OrderPlan {
    OrderPlan("BTC", side, 1.0, None, Some(20.0), None, reduceOnly)
  }

  /** A reduce-only order that finds nothing to reduce still pays its fee, and no trade carries it
      (LedgerLaws.ExecuteKeepsIdentityIff). */
  lemma StrayReduceOnlyBreaksIdentity()
    ensures var r := Execute(FEES, FLAT, AtMarket(Sell, true), BAR, 1, None);
            && LedgerLaws.Balanced(FLAT, 100.0)
            && r.Success? && r.value.cash == 99.9 && r.value.trades == []
            && !LedgerLaws.Balanced(r.value, 100.0)
  {
    LedgerLaws.ExecuteKeepsIdentityIff(FEES, FLAT, AtMarket(Sell, true), BAR, 1, None, 100.0);
  }

  const SHORT: Ledger := FLAT.(positions := map["BTC" := Position(Short, 1.0, 10.0, 0, 1, 20.0, None, 0.0, 0.0, 0.0)])

  /** An opening order against a held position is averaged into it instead of reducing it, and the
      accounts part from the blotter (BlotterLaws.FillRefinesBlotterIff). */
  lemma OpposedOrderBreaksBlotter()
    ensures var r := Execute(FEES, SHORT, AtMarket(Buy, false), BAR, 1, None);
            && r.Success?
            && r.value.positions["BTC"].side == Short && r.value.positions["BTC"].quantity == 2.0
            && exists price: Symbol -> real :: BlotterLaws.Gap(r.value, price) != BlotterLaws.Gap(SHORT, price)
  {
    BlotterLaws.FillRefinesBlotterIff(FEES, SHORT, AtMarket(Buy, false), 10.0, 0, 1);
  }

  const LOSS: Trade := Trade("BTC", Long, 1.0, 0, 300.0, 1, 100.0, -200.0, 0.0, 0.0, StopLoss)

  /** The report of one trade that lost more than there was: the reported net PnL stops at the equity floor while the
      per-symbol figures do not (Summary.SummaryReconcilesIff). */
  lemma FloorBreaksReconciliation(r: Summary.Result)
    requires Summary.IsSummary(r, FEES, [LOSS], [EquityPoint(1, EQUITY_FLOOR)], 0)
    ensures r.netPnl != Sum(Summary.NetOf(r.symbols))
  {
    hide Summary.Breakdown, Summary.Drawdown;
    assert [LOSS][..0] == [];
    assert LedgerLaws.NetPnl([LOSS]) == -200.0;
    Summary.SummaryReconcilesIff(r, [LOSS], -100.0, 0.0);
  }

  const PLAN: Outcomes.Plan := Outcomes.Plan(10.0, 9.0, 11.0, 12.0)
  const ENTERED: Outcomes.State := Outcomes.State(Outcomes.Active, Some(0), None)
  const BOTH_TARGETS: Outcomes.Bar := Outcomes.Bar(FIVE_MINUTES, 10.5, 12.5)

  /** A bar through both targets alone is called ambiguous although every order of its ticks ends at
      the second target (OutcomeLaws.AmbiguousIff). */
  lemma BothTargetsAreCalledAmbiguous(path: seq<Outcomes.Bar>)
    requires OutcomeLaws.PathOf(PLAN, BOTH_TARGETS, path)
    ensures Outcomes.Step(PLAN, ENTERED, BOTH_TARGETS, 1).1.Some?
    ensures Outcomes.Step(PLAN, ENTERED, BOTH_TARGETS, 1).1.value.status == Outcomes.Ambiguous
    ensures var exact := Outcomes.Steps(PLAN, ENTERED, path, 1).1;
            exact.Some? && exact.value.status == Outcomes.Target2
  {
    OutcomeLaws.OnlyTargetsAgree(true, PLAN, ENTERED, BOTH_TARGETS, 1, path);
  }
}
