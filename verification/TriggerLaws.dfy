/** The fill rules never flatter: prices are slipped against the taker but never through a limit,
    and what a bar decides about protective triggers is the worst any price path inside it could. */
module TriggerLaws {
  import opened Market
  import opened Bookkeeping

  // ----- fill prices

  /** Slippage is paid, never earned, up to the order's own limit. */
  lemma FillIsNeverFlattering(cfg: Config, order: OrderPlan, base: real)
    requires cfg.slippage >= 0.0 && base >= 0.0
    requires order.limit.Some? ==> Marketable(order.side, order.limit.value, base)
    ensures var fill := FillPrice(cfg, order, base);
            && Sign(order.side) * (fill - base) >= 0.0
            && (order.limit.Some? ==> Sign(order.side) * (order.limit.value - fill) >= 0.0)
            && (order.limit.None? ==> Sign(order.side) * (fill - base) == base * cfg.slippage)
  {
    assert base * cfg.slippage >= 0.0;
  }

  // ----- price paths inside a bar

  /** A path of ticks that stays inside the bar and reaches both of its extremes. */
  ghost predicate Within(path: seq<real>, c: Candle) {
    forall i :: 0 <= i < |path| ==> c.low <= path[i] <= c.high
  }

  ghost predicate Inside(path: seq<real>, c: Candle) {
    && Within(path, c)
    && c.low in path && c.high in path
  }

  function PointBar(price: real): Candle {
    Candle(0, price, price, price, price, 0.0)
  }

  /** The first trigger a path touches. */
  function PathExit(p: Position, path: seq<real>): Option<(real, ExitReason)> {
    if path == [] then None else
    var touched := Touched(p, PointBar(path[0]), true);
    if touched.Some? then touched else PathExit(p, path[1..])
  }

  /** Stop and target lie on the two sides that protect the position. */
  predicate ProperlyProtected(p: Position) {
    p.takeProfit.Some? ==>
      if p.side.Long? then p.stopLoss < p.takeProfit.value else p.takeProfit.value < p.stopLoss
  }

  lemma {:induction false} PathExitTouches(p: Position, path: seq<real>)
    ensures PathExit(p, path).Some? <==>
            exists i :: 0 <= i < |path| && Touched(p, PointBar(path[i]), true).Some?
    ensures PathExit(p, path).Some? ==>
            exists i :: 0 <= i < |path| && PathExit(p, path) == Touched(p, PointBar(path[i]), true)
    decreases |path|
  {
    if path != [] {
      PathExitTouches(p, path[1..]);
      forall i | 0 < i < |path| ensures path[i] == path[1..][i - 1] {
      }
      if Touched(p, PointBar(path[0]), true).None? {
        assert forall i :: 0 <= i < |path[1..]| ==> path[1..][i] == path[i + 1];
      }
    }
  }

  /** Whatever path the price took, the bar's verdict is no better than what the path gives: they
      agree unless both triggers lie in the bar, and then the bar books the stop. */
  lemma BarVerdictIsWorstPath(p: Position, c: Candle, path: seq<real>)
    requires Inside(path, c) && ProperlyProtected(p)
    ensures var bar, exit := Touched(p, c, true), PathExit(p, path);
            && (bar.Some? <==> exit.Some?)
            && (bar.Some? ==>
                  && (bar == exit || (bar.value.1 == StopLoss && exit.value.1 == TakeProfit))
                  && Direction(p.side) * (exit.value.0 - bar.value.0) >= 0.0)
  {
    PathExitTouches(p, path);
    var low :| 0 <= low < |path| && path[low] == c.low;
    var high :| 0 <= high < |path| && path[high] == c.high;
    assert Touched(p, c, true).Some? ==>
             Touched(p, PointBar(path[low]), true).Some? || Touched(p, PointBar(path[high]), true).Some?;
  }

  lemma TwoTickPath(p: Position, first: real, second: real)
    ensures var touched := Touched(p, PointBar(first), true);
            PathExit(p, [first, second]) == if touched.Some? then touched else Touched(p, PointBar(second), true)
  {
    assert [first, second][1..] == [second];
    assert [second][1..] == [];
    assert PathExit(p, [second]) == Touched(p, PointBar(second), true);
  }

  /** The worst path exists: the pessimism is not arbitrary. */
  lemma WorstPathExists(p: Position, c: Candle) returns (path: seq<real>)
    requires c.low <= c.high && ProperlyProtected(p)
    ensures Inside(path, c) && PathExit(p, path) == Touched(p, c, true)
  {
    path := if p.side.Long? then [c.low, c.high] else [c.high, c.low];
    TwoTickPath(p, path[0], path[1]);
    assert path[0] in path && path[1] in path;
  }

  // ----- the bar in which a resting entry fills

  /** The ticks from the first one that reaches the resting limit on. */
  function AfterEntry(side: OrderSide, limit: real, path: seq<real>): seq<real> {
    if path == [] || Reaches(side, limit, PointBar(path[0])) then path
    else AfterEntry(side, limit, path[1..])
  }

  lemma {:induction false} AfterEntryKeepsReaching(side: OrderSide, limit: real, path: seq<real>, x: real)
    requires x in path && Reaches(side, limit, PointBar(x))
    ensures x in AfterEntry(side, limit, path)
    decreases |path|
  {
    if !Reaches(side, limit, PointBar(path[0])) {
      assert path == [path[0]] + path[1..];
      AfterEntryKeepsReaching(side, limit, path[1..], x);
    }
  }

  lemma {:induction false} AfterEntryIsInside(side: OrderSide, limit: real, path: seq<real>, c: Candle)
    requires Within(path, c)
    ensures Within(AfterEntry(side, limit, path), c)
    decreases |path|
  {
    if path != [] && !Reaches(side, limit, PointBar(path[0])) {
      assert Within(path[1..], c);
      AfterEntryIsInside(side, limit, path[1..], c);
      assert AfterEntry(side, limit, path) == AfterEntry(side, limit, path[1..]);
    } else {
      assert AfterEntry(side, limit, path) == path;
    }
  }

  /** In the bar where a resting entry fills, a reached stop is certain to have been reached after
      the entry, whatever the path; a target is never granted, because some path has it first. */
  lemma EntryBarVerdictIsWorstPath(p: Position, limit: real, c: Candle, path: seq<real>)
    requires Inside(path, c) && ProperlyProtected(p)
    requires Direction(p.side) * (limit - p.stopLoss) > 0.0
    ensures var side := if p.side.Long? then Buy else Sell;
            var bar, exit := Touched(p, c, false), PathExit(p, AfterEntry(side, limit, path));
            && (bar.Some? ==> bar.value.1 == StopLoss && exit.Some?
                              && Direction(p.side) * (exit.value.0 - bar.value.0) >= 0.0)
            && (bar.None? && exit.Some? ==> exit.value.1 == TakeProfit)
  {
    var side := if p.side.Long? then Buy else Sell;
    var rest := AfterEntry(side, limit, path);
    PathExitTouches(p, rest);
    AfterEntryIsInside(side, limit, path, c);
    if Touched(p, c, false).Some? {
      var extreme := if p.side.Long? then c.low else c.high;
      AfterEntryKeepsReaching(side, limit, path, extreme);
      var i :| 0 <= i < |rest| && rest[i] == extreme;
      assert Touched(p, PointBar(rest[i]), true).Some?;
    }
  }

  /** The target's order is really open: the same bar has a path that takes the profit after the
      entry and one that does not. */
  lemma EntryBarTargetIsAmbiguous(p: Position, limit: real, c: Candle) returns (won: seq<real>, open: seq<real>)
    requires p.takeProfit.Some? && ProperlyProtected(p) && Touched(p, c, false).None?
    requires Touched(p, c, true).Some?
    requires c.low <= limit <= c.high
    requires Direction(p.side) * (limit - p.stopLoss) > 0.0 && Direction(p.side) * (p.takeProfit.value - limit) > 0.0
    ensures Inside(won, c) && Inside(open, c)
    ensures var side := if p.side.Long? then Buy else Sell;
            && PathExit(p, AfterEntry(side, limit, won)) == Some((p.takeProfit.value, TakeProfit))
            && PathExit(p, AfterEntry(side, limit, open)) == None
  {
    if p.side.Long? {
      won, open := [c.low, c.high], [c.high, c.low];
    } else {
      won, open := [c.high, c.low], [c.low, c.high];
    }
    assert won[1..] == [won[1]] && won[1..][1..] == [];
    assert open[1..] == [open[1]] && open[1..][1..] == [];
    assert won[0] in won && won[1] in won && open[0] in open && open[1] in open;
  }
}
