/** From the schedule to the report: the summary of a delivered replay against its own trades. */
module Reconciliation {
  import opened Market
  import opened Sums
  import opened Bookkeeping
  import opened Replay
  import LedgerLaws
  import AccountLaws
  import ClockLaws
  import Exchange
  import Runner
  import Summary

  /** The ledger a replay really starts with: a fresh account, or one carried in from a recording. */
  ghost function StartLedger(input: Input, initial: Option<Portfolio>): Ledger {
    match initial
    case None => Ledger(input.config.initialEquity, map[], map[], map[], map[], [], [], [], 0.0)
    case Some(portfolio) => Exchange.Carried(portfolio, input.start)
  }

  /** It meets what the laws of a replay ask of a start, given the check that the constructor makes. */
  lemma StartIsSound(input: Input, initial: Option<Portfolio>)
    requires initial.Some? ==> initial.value.equity == input.config.initialEquity
    ensures var l := StartLedger(input, initial);
            ClockLaws.Startable(l, input.start) && LedgerLaws.Balanced(l, input.config.initialEquity)
  {
    match initial
    case None => LedgerLaws.TotalOfNothing(LedgerLaws.OpenAccount());
    case Some(portfolio) => Exchange.CarriedIsBalanced(portfolio, input.start);
  }

  /** The reported equity is the final cash with the fees since `l` that no trade carries added back. */
  predicate ReportedInFull(l: Ledger, final: Ledger) {
    Max(EQUITY_FLOOR, final.cash) == final.cash + (final.stray - l.stray)
  }

  lemma FlatEquity(l: Ledger)
    requires l.positions == map[]
    ensures Equity(l, map[]) == l.cash
  {
    LedgerLaws.TotalOfNothing(PnlAt(map[]));
  }

  /** End to end, rolled back or not and whatever the policy orders: what a run reports as its net PnL
      is the sum of the per-symbol net PnLs, and gross price PnL less fees less funding, exactly when
      the reported equity is the final cash with the fees that no trade carries added back. If no
      reduce-only order is decided without a position, that is exactly when the cash is not below the
      floor at which equity is reported. */
  lemma ReplayReconcilesIff(input: Input, batches: seq<Batch>, l: Ledger, order: seq<Symbol>, cancelled: nat,
                            final: Ledger, curve: seq<EquityPoint>, r: Summary.Result)
    requires WellFormed(input, batches)
    requires l.pending == map[] && l.scheduled == map[] && LedgerLaws.Balanced(l, input.config.initialEquity)
    requires RunFrom(input, batches, 0, Initial(l)).Success?
    requires Runner.Delivered(input, RunFrom(input, batches, 0, Initial(l)).value, order,
                              Success(cancelled), final, curve)
    requires Summary.IsSummary(r, input.config, final.trades, curve, cancelled)
    ensures r.netPnl == Sum(Summary.NetOf(r.symbols)) <==> ReportedInFull(l, final)
    ensures r.netPnl == r.grossPricePnl - r.totalFees - r.totalFunding <==> ReportedInFull(l, final)
    ensures AccountLaws.ReducesOnlyHeld(input, batches) ==>
              (ReportedInFull(l, final) <==> final.cash >= EQUITY_FLOOR)
  {
    hide RunFrom, Settled, Flattened, Equity, LedgerLaws.Balanced, Summary.Breakdown, AccountLaws.PolicyFits;
    hide WellFormed;
    AccountLaws.ReplayConservesCash(input, batches, l, input.config.initialEquity, order);
    FlatEquity(final);
    Summary.SummaryReconcilesIff(r, final.trades, final.cash, final.stray - l.stray);
  }

  /** A delivered replay from its real start, on its clock and with its report: no batch raises a
      clock error, and the report reconciles under exactly that condition. */
  lemma DeliveredReportIsSound(input: Input, batches: seq<Batch>, initial: Option<Portfolio>, order: seq<Symbol>,
                               cancelled: nat, final: Ledger, curve: seq<EquityPoint>, r: Summary.Result)
    requires initial.Some? ==> initial.value.equity == input.config.initialEquity
    requires WellFormed(input, batches) && ClockLaws.Chronological(input, batches)
    ensures var l := StartLedger(input, initial);
            var run := RunFrom(input, batches, 0, Initial(l));
            && ClockLaws.Timely(run)
            && (run.Success? && Runner.Delivered(input, run.value, order, Success(cancelled), final, curve)
                && Summary.IsSummary(r, input.config, final.trades, curve, cancelled) ==>
                  && (r.netPnl == Sum(Summary.NetOf(r.symbols)) <==> ReportedInFull(l, final))
                  && (AccountLaws.ReducesOnlyHeld(input, batches) ==>
                        (ReportedInFull(l, final) <==> final.cash >= EQUITY_FLOOR)))
  {
    hide RunFrom, Runner.Delivered, Summary.IsSummary, LedgerLaws.Balanced, AccountLaws.PolicyFits, StartLedger;
    hide ReportedInFull;
    var l := StartLedger(input, initial);
    StartIsSound(input, initial);
    ClockLaws.ReplayIsTimely(input, batches, l);
    var run := RunFrom(input, batches, 0, Initial(l));
    if run.Success? && Runner.Delivered(input, run.value, order, Success(cancelled), final, curve)
       && Summary.IsSummary(r, input.config, final.trades, curve, cancelled) {
      ReplayReconcilesIff(input, batches, l, order, cancelled, final, curve, r);
    }
  }
}
