/** The summary of a finished replay: its loops, and its reconciliation with the per-symbol breakdown. */
module Summary {
  import opened Market
  import opened Sums
  import opened Bookkeeping
  import opened LedgerLaws

  datatype SymbolResult = SymbolResult(
    grossPricePnl: real, netPnl: real, contributionReturn: real, tradeCount: nat,
    totalFees: real, totalFunding: real)

  /** `symbols` is keyed; the sorted listing order is presentation. */
  datatype Result = Result(
    initialEquity: real, finalEquity: real, grossPricePnl: real, netPnl: real, totalReturn: real,
    maxDrawdown: real, winRate: real, profitFactor: Option<real>, tradeCount: nat,
    totalFees: real, totalFunding: real, runEndTradeCount: nat, cancelledPendingOrders: nat,
    symbols: map<Symbol, SymbolResult>)

  /** A quotient, known by its product. */
  function Over(a: real, b: real): (q: real)
    requires b != 0.0
    ensures q * b == a
  {
    a / b
  }

  // ----- sums over trades, last trade outermost

  function Fees(trades: seq<Trade>): real {
    if trades == [] then 0.0 else Fees(trades[..|trades| - 1]) + trades[|trades| - 1].fees
  }

  function Funding(trades: seq<Trade>): real {
    if trades == [] then 0.0 else Funding(trades[..|trades| - 1]) + trades[|trades| - 1].funding
  }

  function Won(trades: seq<Trade>): seq<Trade> {
    if trades == [] then [] else
    Won(trades[..|trades| - 1]) + if trades[|trades| - 1].netPnl > 0.0 then [trades[|trades| - 1]] else []
  }

  function Lost(trades: seq<Trade>): seq<Trade> {
    if trades == [] then [] else
    Lost(trades[..|trades| - 1]) + if trades[|trades| - 1].netPnl < 0.0 then [trades[|trades| - 1]] else []
  }

  function RunEnds(trades: seq<Trade>): nat {
    if trades == [] then 0
    else RunEnds(trades[..|trades| - 1]) + if trades[|trades| - 1].reason == RunEnd then 1 else 0
  }

  function Of(trades: seq<Trade>, s: Symbol): seq<Trade> {
    if trades == [] then [] else
    Of(trades[..|trades| - 1], s) + if trades[|trades| - 1].symbol == s then [trades[|trades| - 1]] else []
  }

  function Traded(trades: seq<Trade>): set<Symbol> {
    set i | 0 <= i < |trades| :: trades[i].symbol
  }

  function ResultOf(trades: seq<Trade>, initialEquity: real): SymbolResult {
    SymbolResult(NetPnl(trades) + Fees(trades) + Funding(trades), NetPnl(trades),
                 if initialEquity != 0.0 then Over(NetPnl(trades), initialEquity) else 0.0,
                 |trades|, Fees(trades), Funding(trades))
  }

  // ----- drawdown

  /** The relative fall from one level to another. */
  function Decline(from: real, down: real): real
    requires from > 0.0
  {
    Over(from - down, from)
  }

  function Peak(initial: real, curve: seq<EquityPoint>): real {
    if curve == [] then initial
    else Max(Peak(initial, curve[..|curve| - 1]), curve[|curve| - 1].equity)
  }

  function Drawdown(initial: real, curve: seq<EquityPoint>): real {
    if curve == [] then 0.0 else
    var before := Drawdown(initial, curve[..|curve| - 1]);
    var peak := Peak(initial, curve);
    if peak > 0.0 then Max(before, Decline(peak, curve[|curve| - 1].equity)) else before
  }

  /** What every figure of the summary means. */
  ghost predicate IsSummary(r: Result, config: Config, trades: seq<Trade>, curve: seq<EquityPoint>, cancelled: nat) {
    && r.initialEquity == config.initialEquity
    && (r.finalEquity == if curve == [] then config.initialEquity else curve[|curve| - 1].equity)
    && r.netPnl == r.finalEquity - config.initialEquity
    && (config.initialEquity != 0.0 ==> (r.totalReturn + 1.0) * config.initialEquity == r.finalEquity)
    && (config.initialEquity == 0.0 ==> r.totalReturn == 0.0)
    && r.grossPricePnl == NetPnl(trades) + Fees(trades) + Funding(trades)
    && r.maxDrawdown == Drawdown(config.initialEquity, curve)
    && (trades == [] ==> r.winRate == 0.0)
    && (trades != [] ==> r.winRate * (|trades| as real) == |Won(trades)| as real)
    && (r.profitFactor.Some? <==> NetPnl(Lost(trades)) < 0.0)
    && (r.profitFactor.Some? ==> r.profitFactor.value * -NetPnl(Lost(trades)) == NetPnl(Won(trades)))
    && r.tradeCount == |trades| && r.totalFees == Fees(trades) && r.totalFunding == Funding(trades)
    && r.runEndTradeCount == RunEnds(trades) && r.cancelledPendingOrders == cancelled
    && r.symbols == Breakdown(trades, config.initialEquity)
  }

  method Summarize(config: Config, trades: seq<Trade>, curve: seq<EquityPoint>, cancelled: nat)
    returns (r: Result)
    ensures IsSummary(r, config, trades, curve, cancelled)
  {
    hide Over, LedgerLaws.NetPnl, Won, Lost, Fees, Funding, RunEnds, Drawdown, Breakdown;
    var final := if curve == [] then config.initialEquity else curve[|curve| - 1].equity;
    var net, fees, funding, wins, won, lost, ends := Totals(trades);
    var drawdown := MaxDrawdown(config.initialEquity, curve);
    var symbols := SymbolResults(config, trades);
    var netPnl := final - config.initialEquity;
    r := Result(
      config.initialEquity, final, net + fees + funding, netPnl,
      if config.initialEquity != 0.0 then Over(final, config.initialEquity) - 1.0 else 0.0,
      drawdown,
      if trades != [] then Over(wins as real, |trades| as real) else 0.0,
      if -lost > 0.0 then Some(Over(won, -lost)) else None,
      |trades|, fees, funding, ends, cancelled, symbols);
  }

  lemma NoTrades()
    ensures NetPnl([]) == Fees([]) == Funding([]) == 0.0 && Won([]) == Lost([]) == [] && RunEnds([]) == 0
  {
  }

  lemma OneMoreTrade(trades: seq<Trade>, t: Trade)
    ensures var more := trades + [t];
            && NetPnl(more) == NetPnl(trades) + t.netPnl
            && Fees(more) == Fees(trades) + t.fees
            && Funding(more) == Funding(trades) + t.funding
            && |Won(more)| == |Won(trades)| + (if t.netPnl > 0.0 then 1 else 0)
            && NetPnl(Won(more)) == NetPnl(Won(trades)) + (if t.netPnl > 0.0 then t.netPnl else 0.0)
            && NetPnl(Lost(more)) == NetPnl(Lost(trades)) + (if t.netPnl < 0.0 then t.netPnl else 0.0)
            && RunEnds(more) == RunEnds(trades) + (if t.reason == RunEnd then 1 else 0)
  {
    var more := trades + [t];
    assert more[..|trades|] == trades;
    assert Won(more) == Won(trades) + if t.netPnl > 0.0 then [t] else [];
    assert Lost(more) == Lost(trades) + if t.netPnl < 0.0 then [t] else [];
    NetPnlAppend(trades, t);
    NetPnlAppend(Won(trades), t);
    NetPnlAppend(Lost(trades), t);
    assert Won(trades) + [] == Won(trades) && Lost(trades) + [] == Lost(trades);
  }

  method Totals(trades: seq<Trade>)
    returns (net: real, fees: real, funding: real, wins: nat, won: real, lost: real, ends: nat)
    ensures net == NetPnl(trades) && fees == Fees(trades) && funding == Funding(trades)
    ensures wins == |Won(trades)| && won == NetPnl(Won(trades)) && lost == NetPnl(Lost(trades))
    ensures ends == RunEnds(trades)
  {
    hide LedgerLaws.NetPnl, Won, Lost, Fees, Funding, RunEnds;
    NoTrades();
    assert trades[..0] == [];
    net, fees, funding, wins, won, lost, ends := 0.0, 0.0, 0.0, 0, 0.0, 0.0, 0;
    for i := 0 to |trades|
      invariant net == NetPnl(trades[..i]) && fees == Fees(trades[..i]) && funding == Funding(trades[..i])
      invariant wins == |Won(trades[..i])| && won == NetPnl(Won(trades[..i])) && lost == NetPnl(Lost(trades[..i]))
      invariant ends == RunEnds(trades[..i])
    {
      var t := trades[i];
      assert trades[..i + 1] == trades[..i] + [t];
      OneMoreTrade(trades[..i], t);
      net, fees, funding := net + t.netPnl, fees + t.fees, funding + t.funding;
      if t.netPnl > 0.0 {
        wins, won := wins + 1, won + t.netPnl;
      }
      if t.netPnl < 0.0 {
        lost := lost + t.netPnl;
      }
      if t.reason == RunEnd {
        ends := ends + 1;
      }
    }
    assert trades[..|trades|] == trades;
  }

  method MaxDrawdown(initial: real, curve: seq<EquityPoint>) returns (drawdown: real)
    ensures drawdown == Drawdown(initial, curve)
  {
    var peak := initial;
    drawdown := 0.0;
    for i := 0 to |curve|
      invariant peak == Peak(initial, curve[..i]) && drawdown == Drawdown(initial, curve[..i])
    {
      assert curve[..i + 1][..i] == curve[..i];
      peak := Max(peak, curve[i].equity);
      if peak > 0.0 {
        drawdown := Max(drawdown, Decline(peak, curve[i].equity));
      }
    }
    assert curve[..|curve|] == curve;
  }

  method SymbolResults(config: Config, trades: seq<Trade>) returns (symbols: map<Symbol, SymbolResult>)
    ensures symbols == Breakdown(trades, config.initialEquity)
  {
    symbols := map[];
    var rest := Traded(trades);
    while rest != {}
      invariant rest <= Traded(trades) && symbols.Keys == Traded(trades) - rest
      invariant forall s :: s in symbols ==> symbols[s] == ResultOf(Of(trades, s), config.initialEquity)
      decreases rest
    {
      var s :| s in rest;
      var own := OfSymbol(trades, s);
      var net, fees, funding, _, _, _, _ := Totals(own);
      symbols := symbols[s := SymbolResult(
        net + fees + funding, net,
        if config.initialEquity != 0.0 then Over(net, config.initialEquity) else 0.0, |own|, fees, funding)];
      rest := rest - {s};
    }
  }

  method OfSymbol(trades: seq<Trade>, s: Symbol) returns (own: seq<Trade>)
    ensures own == Of(trades, s)
  {
    own := [];
    for i := 0 to |trades|
      invariant own == Of(trades[..i], s)
    {
      assert trades[..i + 1][..i] == trades[..i];
      if trades[i].symbol == s {
        own := own + [trades[i]];
      }
    }
    assert trades[..|trades|] == trades;
  }

  // ----- reconciliation

  function Contributions(trades: seq<Trade>, symbols: set<Symbol>): map<Symbol, real> {
    map s | s in symbols :: NetPnl(Of(trades, s))
  }

  /** Each symbol's contribution, added up over any set of symbols that covers the trades. */
  lemma {:induction false} ContributionsAddUp(trades: seq<Trade>, symbols: set<Symbol>)
    requires forall i :: 0 <= i < |trades| ==> trades[i].symbol in symbols
    ensures Sum(Contributions(trades, symbols)) == NetPnl(trades)
    decreases |trades|
  {
    hide Of;
    if trades == [] {
      NothingContributes(symbols);
      ZeroSum(Contributions(trades, symbols));
    } else {
      var n := |trades| - 1;
      var t := trades[n];
      var was := Contributions(trades[..n], symbols);
      ContributionsAddUp(trades[..n], symbols);
      ContributionOfLast(trades, symbols);
      SumPut(was, t.symbol, was[t.symbol] + t.netPnl);
      SumRemove(was, t.symbol);
    }
  }

  lemma NothingContributes(symbols: set<Symbol>)
    ensures forall s :: s in symbols ==> Contributions([], symbols)[s] == 0.0
  {
  }

  lemma ContributionOfLast(trades: seq<Trade>, symbols: set<Symbol>)
    requires trades != [] && trades[|trades| - 1].symbol in symbols
    ensures var n := |trades| - 1;
            var was := Contributions(trades[..n], symbols);
            Contributions(trades, symbols) == was[trades[n].symbol := was[trades[n].symbol] + trades[n].netPnl]
  {
    hide LedgerLaws.NetPnl, Of;
    forall s | s in symbols
      ensures NetPnl(Of(trades, s)) == NetPnl(Of(trades[..|trades| - 1], s)) + LastNet(trades, s)
    {
      NetOfLast(trades, s);
    }
  }

  function LastNet(trades: seq<Trade>, s: Symbol): real
    requires trades != []
  {
    if trades[|trades| - 1].symbol == s then trades[|trades| - 1].netPnl else 0.0
  }

  lemma NetOfLast(trades: seq<Trade>, s: Symbol)
    requires trades != []
    ensures NetPnl(Of(trades, s)) == NetPnl(Of(trades[..|trades| - 1], s)) + LastNet(trades, s)
  {
    var before := Of(trades[..|trades| - 1], s);
    NetPnlAppend(before, trades[|trades| - 1]);
    assert before + [] == before;
  }

  lemma {:induction false} ZeroSum(m: map<Symbol, real>)
    requires forall s :: s in m ==> m[s] == 0.0
    ensures Sum(m) == 0.0
    decreases |m|
  {
    if m != map[] {
      var s :| s in m;
      SumRemove(m, s);
      ZeroSum(m - {s});
    }
  }

  function NetOf(symbols: map<Symbol, SymbolResult>): map<Symbol, real> {
    map s | s in symbols :: symbols[s].netPnl
  }

  function Breakdown(trades: seq<Trade>, initialEquity: real): map<Symbol, SymbolResult> {
    map s | s in Traded(trades) :: ResultOf(Of(trades, s), initialEquity)
  }

  /** The per-symbol breakdown reconciles to the whole. */
  lemma BreakdownReconciles(trades: seq<Trade>, initialEquity: real)
    ensures Sum(NetOf(Breakdown(trades, initialEquity))) == NetPnl(trades)
  {
    ContributionsAddUp(trades, Traded(trades));
    assert NetOf(Breakdown(trades, initialEquity)) == Contributions(trades, Traded(trades));
  }

  /** The reported net PnL is the sum of the per-symbol net PnLs, and gross less costs, exactly when
      the equity the portfolio reports is the final cash with the fees that no trade carries added
      back; without such fees that is so exactly when the cash is not below the reported floor. */
  lemma SummaryReconcilesIff(r: Result, trades: seq<Trade>, cash: real, stray: real)
    requires r.symbols == Breakdown(trades, r.initialEquity)
    requires r.grossPricePnl == NetPnl(trades) + r.totalFees + r.totalFunding
    requires r.netPnl == r.finalEquity - r.initialEquity
    requires cash == r.initialEquity + NetPnl(trades) - stray
    requires r.finalEquity == Max(EQUITY_FLOOR, cash)
    ensures r.netPnl == Sum(NetOf(r.symbols)) <==> Max(EQUITY_FLOOR, cash) == cash + stray
    ensures r.netPnl == r.grossPricePnl - r.totalFees - r.totalFunding <==> Max(EQUITY_FLOOR, cash) == cash + stray
    ensures stray == 0.0 ==> (Max(EQUITY_FLOOR, cash) == cash + stray <==> cash >= EQUITY_FLOOR)
  {
    BreakdownReconciles(trades, r.initialEquity);
  }

  // ----- what drawdown means

  /** The equity levels in list order, starting with the initial equity. */
  function Levels(initial: real, curve: seq<EquityPoint>): seq<real> {
    [initial] + seq(|curve|, i requires 0 <= i < |curve| => curve[i].equity)
  }

  lemma ProductGrows(a: real, b: real, x: real, y: real)
    requires 0.0 <= a < b && 0.0 < x <= y
    ensures a * x < b * y
  {
    assert a * x <= a * y;
    assert a * y < b * y;
  }

  lemma DeclineGrowsWithPeak(x: real, peak: real, e: real)
    requires 0.0 < x <= peak && e >= 0.0
    ensures Decline(x, e) <= Decline(peak, e)
  {
    var a, b := 1.0 - Decline(x, e), 1.0 - Decline(peak, e);
    assert a * x == e && b * peak == e;
    assert a >= 0.0;
    if a < b {
      ProductGrows(a, b, x, peak);
    }
  }

  lemma {:induction false} PeakIsMaximum(initial: real, curve: seq<EquityPoint>)
    ensures forall i :: 0 <= i < |Levels(initial, curve)| ==> Levels(initial, curve)[i] <= Peak(initial, curve)
    ensures Peak(initial, curve) in Levels(initial, curve)
    decreases |curve|
  {
    if curve != [] {
      var n := |curve| - 1;
      PeakIsMaximum(initial, curve[..n]);
      assert Levels(initial, curve) == Levels(initial, curve[..n]) + [curve[n].equity];
    }
  }

  ghost predicate IsWorstDecline(xs: seq<real>, d: real)
    requires forall i :: 0 <= i < |xs| ==> xs[i] > 0.0
  {
    && (forall i, j :: 0 <= i <= j < |xs| ==> Decline(xs[i], xs[j]) <= d)
    && (exists i, j :: 0 <= i <= j < |xs| && Decline(xs[i], xs[j]) == d)
  }

  /** One more level: the worst decline is the old one or the one from the peak. */
  lemma WorstDeclineExtends(xs: seq<real>, d: real, e: real, p: nat)
    requires (forall i :: 0 <= i < |xs| ==> xs[i] > 0.0) && e > 0.0 && IsWorstDecline(xs, d)
    requires p <= |xs| && forall i :: 0 <= i <= |xs| ==> (xs + [e])[i] <= (xs + [e])[p]
    ensures IsWorstDecline(xs + [e], Max(d, Decline((xs + [e])[p], e)))
  {
    var ys := xs + [e];
    var n := |xs|;
    var worst := Max(d, Decline(ys[p], e));
    forall i, j | 0 <= i <= j < |ys| ensures Decline(ys[i], ys[j]) <= worst {
      if j == n {
        DeclineGrowsWithPeak(ys[i], ys[p], e);
      } else {
        assert Decline(xs[i], xs[j]) <= d;
      }
    }
    if worst == d {
      var i, j :| 0 <= i <= j < |xs| && Decline(xs[i], xs[j]) == d;
      assert Decline(ys[i], ys[j]) == worst;
    } else {
      assert Decline(ys[p], ys[n]) == worst;
    }
  }

  /** With positive equities the drawdown is the largest relative decline from any level to any
      later one: none is larger, and one of them is it. */
  lemma {:induction false} DrawdownIsWorstDecline(initial: real, curve: seq<EquityPoint>)
    requires forall i :: 0 <= i < |Levels(initial, curve)| ==> Levels(initial, curve)[i] > 0.0
    ensures IsWorstDecline(Levels(initial, curve), Drawdown(initial, curve))
    decreases |curve|
  {
    var xs := Levels(initial, curve);
    if curve == [] {
      assert xs == [initial];
      assert Decline(xs[0], xs[0]) == 0.0;
    } else {
      var n := |curve| - 1;
      var ys := Levels(initial, curve[..n]);
      assert xs == ys + [curve[n].equity];
      assert forall i :: 0 <= i < |ys| ==> ys[i] == xs[i];
      assert xs[n + 1] == curve[n].equity;
      DrawdownIsWorstDecline(initial, curve[..n]);
      PeakIsMaximum(initial, curve);
      var p :| 0 <= p < |xs| && xs[p] == Peak(initial, curve);
      WorstDeclineExtends(ys, Drawdown(initial, curve[..n]), curve[n].equity, p);
    }
  }
}
