/** A whole replay whose close-out raises: a limit order that rests past the end of the window and is
    filled by a later batch's settlement (the exact condition is ClockLaws.CloseOutIsTimelyIff). */
module LateEntry {
  import opened Market
  import opened Bookkeeping
  import opened Replay
  import ClockLaws

  const RESTING: OrderPlan := OrderPlan("BTC", Buy, 1.0, Some(5.0), Some(1.0), None, false)
  const BARS: seq<Candle> := [
    Candle(0, 10.0, 11.0, 9.0, 10.0, 0.0),
    Candle(FIVE_MINUTES, 10.0, 10.0, 4.0, 6.0, 0.0)]
  const END: Time := 100_000
  const LATE: Time := 600_000
  const FLAT: Ledger := Ledger(100.0, map[], map[], map[], map[], [], [], [], 0.0)

  const INPUT: Input := Input(
    Config(100.0, 0.0, 0.0), 0, END, ["BTC"], map["BTC" := BARS], ["BTC"], 1,
    (k: nat, attempt: nat, portfolio: Portfolio) => Some([if k == 0 then Act(1) else Hold]),
    (k: nat, i: nat, portfolio: Portfolio) => Some(RESTING))

  const BATCHES: seq<Batch> := [Batch(0, [Item("BTC", true)]), Batch(LATE, [Item("BTC", true)])]

  lemma InputIsFine()
    ensures WellFormed(INPUT, BATCHES)
    ensures ClosedBy(BARS, 0) == 0 && ClosedBy(BARS, LATE) == 2
    ensures OpenedBefore(BARS, 0) == 0
  {
    assert ClosesAt(BARS[0]) == FIVE_MINUTES && ClosesAt(BARS[1]) == LATE;
  }

  predicate Alike(a: Ledger, b: Ledger) {
    a.(window := b.window) == b
  }

  const PENDING: Ledger := FLAT.(pending := map["BTC" := PendingOrder(RESTING, 0, 1)])

  lemma FirstSettlement()
    ensures SettleAll(INPUT, Clocked(FLAT, map[]), ["BTC"], 0) == Success(Clocked(FLAT, map["BTC" := 0]))
  {
    InputIsFine();
    assert Slice(BARS, 0, 0) == [];
    var next := Clocked(FLAT, map["BTC" := 0]);
    assert SettleUntil(INPUT, Clocked(FLAT, map[]), "BTC", 0) == Success(next);
    assert SettleAll(INPUT, next, ["BTC"][1..], 0) == Success(next);
  }

  /** The one decision rests its limit order at the bar that opens right away. */
  lemma Decides(b: Account)
    requires Alike(b.ledger, FLAT) && ClockLaws.SampledBy(b.ledger, 0)
    ensures var r := DecideEach(INPUT, 0, 0, b, ["BTC"], [Act(1)], 0);
            r.Success? && Alike(r.value.ledger, PENDING) && ClockLaws.SampledBy(r.value.ledger, 0)
  {
    hide ObserveAt, Mark, Equity;
    InputIsFine();
    ClockLaws.ObserveIsOnTime(b.ledger, Marks(INPUT.series, 0), 0);
    var decided := Decide(INPUT, 0, 0, b, "BTC", Act(1), 0);
    var seen := b.(ledger := ObserveAt(b.ledger, Marks(INPUT.series, 0), 0).value.0);
    MarkKeeps(seen.(ledger := PENDING.(window := seen.ledger.window)));
    assert decided == Submit(INPUT, seen, "BTC", RESTING, 1, 0);
    assert NextCandle(BARS, 0) == Some(BARS[0]);
    var executed := Execute(INPUT.config, seen.ledger, RESTING, BARS[0], 1, Some(0));
    assert executed == Success(PENDING.(window := seen.ledger.window));
    ClockLaws.ObserveIsOnTime(decided.value.ledger, Marks(INPUT.series, 0), 0);
    var reported := Reported(INPUT, decided.value, 0).value;
    assert DecideEach(INPUT, 0, 1, reported, ["BTC"][1..], [Act(1)][1..], 0) == Success(reported);
  }

  lemma MarkKeeps(b: Account)
    ensures Mark(INPUT, b, 0).ledger == b.ledger
  {
  }

  const AFTER_FIRST: map<Symbol, nat> := map["BTC" := 0]

  lemma FirstBatch()
    requires WellFormed(INPUT, BATCHES)
    ensures var r := RunBatch(INPUT, 0, BATCHES[0], Initial(FLAT));
            && r.Success? && r.value.Continue?
            && var p := r.value.progress;
               Alike(p.clocked.ledger, PENDING) && ClockLaws.SampledBy(p.clocked.ledger, 0)
               && p.clocked.cursor == AFTER_FIRST && p.settledThrough == Some(0)
  {
    hide ObserveAt, SettleAll, DecideEach;
    FirstSettlement();
    var items := BATCHES[0].items;
    assert Ready(items) == ["BTC"] by {
      assert items[1..] == [];
    }
    var seen := Initial(FLAT).(clocked := Clocked(FLAT, AFTER_FIRST), settledThrough := Some(0));
    assert Advance(INPUT, Initial(FLAT), 0) == Success(seen);
    ClockLaws.ObserveIsOnTime(FLAT, Marks(INPUT.series, 0), 0);
    var (l, portfolio) := ObserveAt(FLAT, Marks(INPUT.series, 0), 0).value;
    assert Ask(INPUT, 0, portfolio, 1, 0) == Some([Act(1)]);
    Decides(Account(l, []));
  }

  const ENTRY: Position := Position(Long, 1.0, 5.0, FIVE_MINUTES, 1, 1.0, None, 0.0, 0.0, 0.0)

  /** The second bar reaches the resting limit, after the end of the window. */
  lemma LateSettlement(l: Ledger)
    requires Alike(l, PENDING)
    ensures var r := SettleAll(INPUT, Clocked(l, AFTER_FIRST), ["BTC"], LATE);
            && r.Success? && r.value.cursor == map["BTC" := 2] && r.value.ledger.window == l.window
            && r.value.ledger.positions == map["BTC" := ENTRY] && r.value.ledger.scheduled == map[]
  {
    hide SettleCandle, SettleBars;
    InputIsFine();
    assert Slice(BARS, 0, 2) == BARS;
    var filled := SettleBars(INPUT.config, l, "BTC", BARS);
    BothBarsSettle(l);
    var next := Clocked(filled.value, map["BTC" := 2]);
    assert AFTER_FIRST["BTC" := 2] == map["BTC" := 2];
    assert ActivateScheduled(INPUT.config, filled.value, "BTC", LATE) == filled;
    assert SettleUntil(INPUT, Clocked(l, AFTER_FIRST), "BTC", LATE) == Success(next);
    assert SettleAll(INPUT, next, ["BTC"][1..], LATE) == Success(next);
  }

  lemma BothBarsSettle(l: Ledger)
    requires Alike(l, PENDING)
    ensures var r := SettleBars(INPUT.config, l, "BTC", BARS);
            && r.Success? && r.value.positions == map["BTC" := ENTRY]
            && r.value.scheduled == map[] && r.value.window == l.window
  {
    var cfg := INPUT.config;
    assert SettleCandle(cfg, l, "BTC", BARS[0]) == Success(l);
    FillsLate(l);
    hide SettleCandle;
    SettleBarsStep(cfg, l, "BTC", BARS, 0);
    SettleBarsStep(cfg, l, "BTC", BARS, 1);
    SettleBarsDone(cfg, SettleCandle(cfg, l, "BTC", BARS[1]).value, "BTC", BARS);
  }

  lemma FillsLate(l: Ledger)
    requires Alike(l, PENDING)
    ensures var r := SettleCandle(INPUT.config, l, "BTC", BARS[1]);
            && r.Success? && r.value.positions == map["BTC" := ENTRY]
            && r.value.scheduled == map[] && r.value.window == l.window
  {
    var taken := l.(pending := map[]);
    assert l.pending - {"BTC"} == map[];
    assert FillPrice(INPUT.config, RESTING, 5.0) == 5.0;
    var filled := Fill(INPUT.config, taken, RESTING, 5.0, FIVE_MINUTES, 1);
    assert filled.Success? && filled.value.positions == map["BTC" := ENTRY];
    assert Protect(INPUT.config, filled.value, "BTC", BARS[1], false) == filled;
  }

  lemma Holds(b: Account)
    requires ClockLaws.SampledBy(b.ledger, LATE)
    ensures var r := DecideEach(INPUT, 1, 0, b, ["BTC"], [Hold], LATE);
            r.Success? && Alike(r.value.ledger, b.ledger)
  {
    hide ObserveAt, Equity, Marks;
    var decided := Mark(INPUT, b, LATE);
    assert Decide(INPUT, 1, 0, b, "BTC", Hold, LATE) == Success(decided);
    ClockLaws.ObserveIsOnTime(decided.ledger, Marks(INPUT.series, LATE), LATE);
    var reported := Reported(INPUT, decided, LATE).value;
    assert DecideEach(INPUT, 1, 1, reported, ["BTC"][1..], [Hold][1..], LATE) == Success(reported);
  }

  /** The second decision, recorded after the end of the window, holds. */
  lemma SecondBatch(p: Progress)
    requires WellFormed(INPUT, BATCHES)
    requires Alike(p.clocked.ledger, PENDING) && ClockLaws.SampledBy(p.clocked.ledger, 0)
    requires p.clocked.cursor == AFTER_FIRST && p.settledThrough == Some(0)
    ensures var r := RunBatch(INPUT, 1, BATCHES[1], p);
            && r.Success? && r.value.Continue?
            && var q := r.value.progress;
               q.clocked.ledger.positions == map["BTC" := ENTRY] && q.clocked.ledger.scheduled == map[]
               && q.clocked.cursor == map["BTC" := 2]
  {
    hide SettleAll, DecideEach, ObserveAt, Marks;
    LateSettlement(p.clocked.ledger);
    var items := BATCHES[1].items;
    assert Ready(items) == ["BTC"] by {
      assert items[1..] == [];
    }
    var clocked := SettleAll(INPUT, p.clocked, ["BTC"], LATE).value;
    var marks := Marks(INPUT.series, LATE);
    ClockLaws.ObserveIsOnTime(clocked.ledger, marks, LATE);
    var (l, portfolio) := ObserveAt(clocked.ledger, marks, LATE).value;
    assert Ask(INPUT, 1, portfolio, 1, 0) == Some([Hold]);
    Holds(Account(l, p.curve));
  }

  /** The run itself succeeds, and closing it out raises: the exit would precede the entry. */
  lemma LateEntryStopsTheCloseOut()
    ensures WellFormed(INPUT, BATCHES)
    ensures RunFrom(INPUT, BATCHES, 0, Initial(FLAT)).Success?
    ensures var step := RunFrom(INPUT, BATCHES, 0, Initial(FLAT)).value;
            && Settled(INPUT, step).Success?
            && ListsPositions(Settled(INPUT, step).value, ["BTC"])
            && Flattened(INPUT, step, Settled(INPUT, step).value, ["BTC"]) == Failure(ExitBeforeEntry)
  {
    InputIsFine();
    FirstBatch();
    var first := RunBatch(INPUT, 0, BATCHES[0], Initial(FLAT)).value;
    SecondBatch(first.progress);
    var second := RunBatch(INPUT, 1, BATCHES[1], first.progress).value;
    RunOfTwo(first, second);
    EndSettlement(second.progress.clocked);
    ClockLaws.FlattenedFailsIff(INPUT, second, second.progress.clocked.ledger, ["BTC"]);
  }

  lemma RunOfTwo(first: Step, second: Step)
    requires WellFormed(INPUT, BATCHES) && first.Continue? && second.Continue?
    requires RunBatch(INPUT, 0, BATCHES[0], Initial(FLAT)) == Success(first)
    requires RunBatch(INPUT, 1, BATCHES[1], first.progress) == Success(second)
    ensures RunFrom(INPUT, BATCHES, 0, Initial(FLAT)) == Success(second)
  {
    hide RunBatch;
    assert RunFrom(INPUT, BATCHES, 2, second.progress) == Success(Continue(second.progress));
    assert RunFrom(INPUT, BATCHES, 1, first.progress) == Success(second);
  }

  lemma EndSettlement(st: Clocked)
    requires st.ledger.scheduled == map[] && st.cursor == map["BTC" := 2]
    ensures var r := SettleAll(INPUT, st, ["BTC"], END);
            r.Success? && r.value.ledger == st.ledger
  {
    var until := ClosedBy(BARS, END);
    assert until == 0 by {
      assert ClosesAt(BARS[0]) == FIVE_MINUTES;
    }
    assert Slice(BARS, 2, 0) == [];
    assert SettleBars(INPUT.config, st.ledger, "BTC", []) == Success(st.ledger);
    assert ActivateScheduled(INPUT.config, st.ledger, "BTC", END) == Success(st.ledger);
    assert Cursor(INPUT, st.cursor, "BTC") == 2 && st.cursor["BTC" := 2] == map["BTC" := 2];
    hide SettleBars, ActivateScheduled, ClosedBy, OpenedBefore, Slice;
    var next := Clocked(st.ledger, map["BTC" := 2]);
    assert SettleUntil(INPUT, st, "BTC", END) == Success(next);
    assert SettleAll(INPUT, next, ["BTC"][1..], END) == Success(next);
  }
}
