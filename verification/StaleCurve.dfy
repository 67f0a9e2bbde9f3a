/** A whole replay whose rolled-back curve is not that of the batches that were kept: a symbol listed
    too recently to have a snapshot is reported between the last answer and the provider's failure
    (the exact condition is CurveLaws.RolledBackCurveIff). */
module StaleCurve {
  import opened Market
  import opened Bookkeeping
  import opened Replay
  import opened CurveLaws
  import opened RollbackLaws
  import ClockLaws
  import LedgerLaws

  /** Five-minute bars of the older symbol before the first decision: more than forty days. */
  const HISTORY: nat := 12_000
  const FIRST: Time := HISTORY * FIVE_MINUTES
  const SECOND: Time := FIRST + FIVE_MINUTES
  const START: Time := FIRST - FIVE_MINUTES

  function Bar(open: Time): Candle {
    Candle(open, 10.0, 11.0, 9.0, 10.0, 0.0)
  }

  const OLD: seq<Candle> := seq(HISTORY + 1, (i: nat) => Bar(i * FIVE_MINUTES))
  const NEW: seq<Candle> := [Bar(START - FIVE_MINUTES), Bar(START), Bar(FIRST)]
  const FLAT: Ledger := Ledger(100.0, map[], map[], map[], map[], [], [], [], 0.0)

  /** The provider holds when it is asked first and fails afterwards. */
  const INPUT: Input := Input(
    Config(100.0, 0.0, 0.0), START, SECOND, ["ADA", "BTC"], map["ADA" := NEW, "BTC" := OLD], ["ADA", "BTC"], 1,
    (k: nat, attempt: nat, portfolio: Portfolio) => if k == 1 then Some([Hold]) else None,
    (k: nat, i: nat, portfolio: Portfolio) => None)

  /** The sorted schedule of a five-minute cadence; "ADA" never has bars enough for a snapshot. */
  const BATCHES: seq<Batch> := [
    Batch(FIRST, [Item("ADA", false)]), Batch(FIRST, [Item("BTC", true)]),
    Batch(SECOND, [Item("ADA", false)]), Batch(SECOND, [Item("BTC", true)])]

  lemma InputIsFine()
    ensures WellFormed(INPUT, BATCHES) && |NEW| < 20 && |OLD| > 20
    ensures forall i :: 0 <= i < HISTORY ==> ClosesAt(OLD[i]) <= FIRST
  {
  }

  predicate Idle(l: Ledger) {
    SameAccount(FLAT, l)
  }

  function At(t: Time): EquityPoint {
    EquityPoint(t, 100.0)
  }

  lemma PointIsCash(l: Ledger, t: Time)
    requires Idle(l)
    ensures PointOf(INPUT, l, t) == At(t)
  {
    hide Marks;
    LedgerLaws.TotalOfNothing(PnlAt(Marks(INPUT.series, t)));
    assert l.positions == map[] && Equity(l, Marks(INPUT.series, t)) == 100.0;
  }

  lemma {:induction false} NothingSettles(l: Ledger, s: Symbol, bars: seq<Candle>)
    requires Idle(l)
    ensures SettleBars(INPUT.config, l, s, bars) == Success(l)
    decreases |bars|
  {
    if bars != [] {
      NothingSettles(l, s, bars[1..]);
    }
  }

  lemma NothingSettlesUntil(st: Clocked, s: Symbol, through: Time)
    requires Idle(st.ledger) && s in INPUT.series
    ensures SettleUntil(INPUT, st, s, through).Success?
    ensures SettleUntil(INPUT, st, s, through).value.ledger == st.ledger
  {
    hide SettleBars, ClosedBy, OpenedBefore, Slice;
    var cs := INPUT.series[s];
    NothingSettles(st.ledger, s, Slice(cs, Cursor(INPUT, st.cursor, s), ClosedBy(cs, through)));
    assert ActivateScheduled(INPUT.config, st.ledger, s, through) == Success(st.ledger);
  }

  lemma {:induction false} NothingSettlesAnywhere(st: Clocked, symbols: seq<Symbol>, through: Time)
    requires Idle(st.ledger) && forall s :: s in symbols ==> s in INPUT.series
    ensures SettleAll(INPUT, st, symbols, through).Success?
    ensures SettleAll(INPUT, st, symbols, through).value.ledger == st.ledger
    decreases |symbols|
  {
    hide SettleUntil, Idle;
    if symbols != [] {
      NothingSettlesUntil(st, symbols[0], through);
      NothingSettlesAnywhere(SettleUntil(INPUT, st, symbols[0], through).value, symbols[1..], through);
    }
  }

  /** The part of a batch before the question, for a batch of one item. */
  lemma SeenIsIdle(p: Progress, batch: Batch)
    requires Consistent(INPUT) && Known(INPUT, batch) && |batch.items| == 1
    requires Idle(p.clocked.ledger) && ClockLaws.SampledBy(p.clocked.ledger, batch.when)
    ensures Ready(batch.items) == if batch.items[0].hasSnapshot then [batch.items[0].symbol] else []
    ensures var r := Seen(INPUT, batch, p);
            && r.Success? && Idle(r.value.clocked.ledger) && ClockLaws.SampledBy(r.value.clocked.ledger, batch.when)
            && r.value.saved == p.saved && r.value.savedAt == p.savedAt
            && r.value.curve == if batch.items[0].hasSnapshot then p.curve else Extended(p.curve, At(batch.when))
  {
    hide SettleAll, ReportedTimes, PointOf, Extended;
    assert batch.items[1..] == [] && Ready([]) == [];
    assert Ready(batch.items) == if batch.items[0].hasSnapshot then [batch.items[0].symbol] else [];
    NothingSettlesAnywhere(p.clocked, INPUT.seriesOrder, batch.when);
    AdvanceKeepsRest(INPUT, p, batch.when);
    var settled := Advance(INPUT, p, batch.when).value;
    var b := Account(settled.clocked.ledger, settled.curve);
    ClockLaws.ReportsAreOnTime(INPUT, b, batch.when, Missing(batch));
    PointIsCash(b.ledger, batch.when);
    if batch.items[0].hasSnapshot {
      NoReports(INPUT, b, batch.when);
    } else {
      ReportsExtend(INPUT, b, batch.when, 1);
    }
  }

  /** A batch of the newly listed symbol only reports. */
  lemma UnaskedBatch(k: nat, p: Progress, at: Time)
    requires Consistent(INPUT) && k < |BATCHES| && BATCHES[k] == Batch(at, [Item("ADA", false)])
    requires Known(INPUT, BATCHES[k]) && Idle(p.clocked.ledger) && ClockLaws.SampledBy(p.clocked.ledger, at)
    ensures var r := RunBatch(INPUT, k, BATCHES[k], p);
            && r.Success? && r.value.Continue?
            && var q := r.value.progress;
               Idle(q.clocked.ledger) && ClockLaws.SampledBy(q.clocked.ledger, at)
               && q.saved == p.saved && q.savedAt == p.savedAt && q.curve == Extended(p.curve, At(at))
  {
    hide Seen, Extended, Ready, Idle;
    BatchIsSeenFirst(INPUT, k, BATCHES[k], p);
    SeenIsIdle(p, BATCHES[k]);
  }

  lemma Extends(curve: seq<EquityPoint>, point: EquityPoint)
    ensures Extended(curve, point) == if EndsAt(curve, point) then curve else curve + [point]
  {
  }

  lemma HoldMarks(b: Account)
    requires Idle(b.ledger)
    ensures Decide(INPUT, 1, 0, b, "BTC", Hold, FIRST) == Success(Account(b.ledger, b.curve + [At(FIRST)]))
  {
    hide Marks, Equity;
    PointIsCash(b.ledger, FIRST);
    assert Mark(INPUT, b, FIRST).curve == b.curve + [PointOf(INPUT, b.ledger, FIRST)];
    assert Decide(INPUT, 1, 0, b, "BTC", Hold, FIRST) == Success(Mark(INPUT, b, FIRST));
  }

  lemma HeldDecision(b: Account)
    requires Idle(b.ledger) && ClockLaws.SampledBy(b.ledger, FIRST)
    ensures var r := DecideEach(INPUT, 1, 0, b, ["BTC"], [Hold], FIRST);
            && r.Success? && Idle(r.value.ledger) && ClockLaws.SampledBy(r.value.ledger, FIRST)
            && r.value.curve == b.curve + [At(FIRST)]
  {
    hide Decide, ObserveAt, Extended, PointOf, Equity;
    HoldMarks(b);
    var decided := Account(b.ledger, b.curve + [At(FIRST)]);
    ClockLaws.ReportIsOnTime(INPUT, decided, FIRST);
    ReportExtends(INPUT, decided, FIRST);
    PointIsCash(b.ledger, FIRST);
    Extends(decided.curve, At(FIRST));
    var reported := Reported(INPUT, decided, FIRST).value;
    hide Reported;
    assert ["BTC"][1..] == [] && [Hold][1..] == [];
    assert DecideEach(INPUT, 1, 1, reported, [], [], FIRST) == Success(reported);
  }

  /** The one answered batch. */
  lemma AnsweredBatch(p: Progress)
    requires WellFormed(INPUT, BATCHES) && p.curve == [At(FIRST)]
    requires Idle(p.clocked.ledger) && ClockLaws.SampledBy(p.clocked.ledger, FIRST)
    ensures var r := RunBatch(INPUT, 1, BATCHES[1], p);
            && r.Success? && r.value.Continue?
            && var q := r.value.progress;
               Idle(q.clocked.ledger) && ClockLaws.SampledBy(q.clocked.ledger, FIRST)
               && q.saved == q.clocked.ledger && q.savedAt == Some(FIRST) && q.curve == [At(FIRST), At(FIRST)]
  {
    hide Seen, ObserveAt, DecideEach, Marks, Ready;
    BatchIsSeenFirst(INPUT, 1, BATCHES[1], p);
    SeenIsIdle(p, BATCHES[1]);
    var seen := Seen(INPUT, BATCHES[1], p).value;
    var marks := Marks(INPUT.series, FIRST);
    ClockLaws.ObserveIsOnTime(seen.clocked.ledger, marks, FIRST);
    var (l, portfolio) := ObserveAt(seen.clocked.ledger, marks, FIRST).value;
    assert Ask(INPUT, 1, portfolio, 1, 0) == Some([Hold]);
    HeldDecision(Account(l, seen.curve));
  }

  /** The batch the provider fails in. */
  lemma FailedBatch(p: Progress)
    requires WellFormed(INPUT, BATCHES) && p.curve == [At(FIRST), At(FIRST), At(SECOND)]
    requires Idle(p.clocked.ledger) && ClockLaws.SampledBy(p.clocked.ledger, SECOND)
    requires Idle(p.saved) && ClockLaws.SampledBy(p.saved, FIRST) && p.savedAt == Some(FIRST)
    ensures var r := RunBatch(INPUT, 3, BATCHES[3], p);
            && r.Success? && r.value.Died? && r.value.progress.savedAt == Some(FIRST)
            && r.value.progress.curve == [At(FIRST), At(FIRST), At(SECOND), At(FIRST)]
  {
    hide Seen, ObserveAt, ReportedTimes, Extended, PointOf, Marks, Ready, Idle;
    BatchIsSeenFirst(INPUT, 3, BATCHES[3], p);
    SeenIsIdle(p, BATCHES[3]);
    var seen := Seen(INPUT, BATCHES[3], p).value;
    var marks := Marks(INPUT.series, SECOND);
    ClockLaws.ObserveIsOnTime(seen.clocked.ledger, marks, SECOND);
    var portfolio := ObserveAt(seen.clocked.ledger, marks, SECOND).value.1;
    assert Ask(INPUT, 3, portfolio, 1, 0) == None;
    ClockLaws.ReportsAreOnTime(INPUT, Account(p.saved, p.curve), FIRST, 1);
    ReportsExtend(INPUT, Account(p.saved, p.curve), FIRST, 1);
    PointIsCash(p.saved, FIRST);
    Extends(p.curve, At(FIRST));
  }

  /** The first three batches, and the failing one. */
  lemma FourBatches()
    requires WellFormed(INPUT, BATCHES)
    ensures var kept := RunPrefix(INPUT, BATCHES, FLAT, 2);
            kept.Success? && kept.value.Continue? && kept.value.progress.curve == [At(FIRST), At(FIRST)]
    ensures var died := RunPrefix(INPUT, BATCHES, FLAT, 4);
            && died.Success? && died.value.Died? && died.value.progress.savedAt == Some(FIRST)
            && died.value.progress.curve == [At(FIRST), At(FIRST), At(SECOND), At(FIRST)]
  {
    hide RunBatch, Extended;
    assert Idle(FLAT);
    assert RunPrefix(INPUT, BATCHES, FLAT, 0) == Success(Continue(Initial(FLAT)));
    UnaskedBatch(0, Initial(FLAT), FIRST);
    Extends([], At(FIRST));
    assert RunPrefix(INPUT, BATCHES, FLAT, 1) == RunBatch(INPUT, 0, BATCHES[0], Initial(FLAT));
    var p := RunPrefix(INPUT, BATCHES, FLAT, 1).value.progress;
    AnsweredBatch(p);
    assert RunPrefix(INPUT, BATCHES, FLAT, 2) == RunBatch(INPUT, 1, BATCHES[1], p);
    var q := RunPrefix(INPUT, BATCHES, FLAT, 2).value.progress;
    UnaskedBatch(2, q, SECOND);
    Extends(q.curve, At(SECOND));
    assert RunPrefix(INPUT, BATCHES, FLAT, 3) == RunBatch(INPUT, 2, BATCHES[2], q);
    var r := RunPrefix(INPUT, BATCHES, FLAT, 3).value.progress;
    FailedBatch(r);
    assert RunPrefix(INPUT, BATCHES, FLAT, 4) == RunBatch(INPUT, 3, BATCHES[3], r);
  }

  /** The provider dies, the effective end is the first instant, and the curve keeps the point of the
      second one although a run of the kept batches alone has only points of the first. */
  lemma RollbackKeepsLatePoint()
    ensures WellFormed(INPUT, BATCHES) && WellFormed(INPUT, BATCHES[..2])
    ensures var died := RunFrom(INPUT, BATCHES, 0, Initial(FLAT));
            && died.Success? && died.value.Died? && EffectiveEnd(INPUT, died.value) == FIRST
            && died.value.progress.curve == [At(FIRST), At(FIRST), At(SECOND), At(FIRST)]
    ensures var kept := RunFrom(INPUT, BATCHES[..2], 0, Initial(FLAT));
            kept.Success? && kept.value.Continue? && kept.value.progress.curve == [At(FIRST), At(FIRST)]
  {
    InputIsFine();
    hide RunFrom, RunPrefix;
    FourBatches();
    RunIsWholePrefix(INPUT, BATCHES, FLAT);
    PrefixOfTruncated(INPUT, BATCHES, FLAT, 2, 2);
    RunIsWholePrefix(INPUT, BATCHES[..2], FLAT);
  }
}
