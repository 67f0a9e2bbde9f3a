/** Conservation over whole replays. Every run keeps the cash identity up to the fees that no trade
    carries. A policy that closes only what is held causes no such fees, and one that opens and adds
    on the held side and reduces on the other keeps the agreement with the blotter. All three are one
    chain of lemmas: a `Discipline` says which hypotheses are made and which conclusions drawn. */
module AccountLaws {
  import opened Market
  import opened Sums
  import opened Bookkeeping
  import opened LedgerLaws
  import opened BlotterLaws
  import opened Replay
  import ClockLaws

  datatype Discipline = Discipline(heldOnly: bool, sided: bool)

  /** The order fits the portfolio it was decided on, as far as the discipline asks. */
  predicate Fits(order: OrderPlan, s: Symbol, held: map<Symbol, PositionView>, d: Discipline) {
    && (d.heldOnly && order.reduceOnly ==> s in held)
    && (d.sided && s in held ==> (order.reduceOnly <==> order.side == ExitSide(held[s].side)))
  }

  /** The policy answers the i-th asked decision of batch `k` with an order that fits. */
  ghost predicate PolicyFits(input: Input, batches: seq<Batch>, d: Discipline) {
    forall k, i, portfolio ::
      0 <= k < |batches| && 0 <= i < |Ready(batches[k].items)| && input.policy(k, i, portfolio).Some? ==>
        Fits(input.policy(k, i, portfolio).value, Ready(batches[k].items)[i], portfolio.positions, d)
  }

  lemma AnyPolicyFits(input: Input, batches: seq<Batch>)
    ensures PolicyFits(input, batches, Discipline(false, false))
  {
  }

  /** A reduce-only order is decided only on a symbol that is held. */
  ghost predicate ReducesOnlyHeld(input: Input, batches: seq<Batch>) {
    PolicyFits(input, batches, Discipline(true, false))
  }

  /** Orders on a held symbol open and add on its side and reduce on the other. */
  ghost predicate RespectsSides(input: Input, batches: seq<Batch>) {
    PolicyFits(input, batches, Discipline(false, true))
  }

  /** A symbol rests at most one order, filed under it, which fits the position it will meet. */
  predicate OrderlyAt(l: Ledger, s: Symbol, d: Discipline) {
    && !(s in l.pending && s in l.scheduled)
    && (s in l.pending ==> Waits(l, s, l.pending[s].order, d))
    && (s in l.scheduled ==> Waits(l, s, l.scheduled[s].order, d))
  }

  predicate Waits(l: Ledger, s: Symbol, order: OrderPlan, d: Discipline) {
    order.symbol == s && (d.sided ==> Conforms(l, order))
  }

  ghost predicate Orderly(l: Ledger, d: Discipline) {
    forall s :: s in l.pending || s in l.scheduled ==> OrderlyAt(l, s, d)
  }

  /** The cash identity has moved by new stray fees at most, and under the discipline not at all, nor
      the agreement with the blotter. */
  ghost predicate Kept(l: Ledger, r: Ledger, price: Symbol -> real, d: Discipline) {
    && Backing(r) + r.stray == Backing(l) + l.stray
    && (d.heldOnly ==> r.stray == l.stray)
    && (d.sided ==> Gap(r, price) == Gap(l, price))
  }

  /** The result of an operation on `s`. */
  ghost predicate KeptAt(l: Ledger, r: Result<Ledger>, s: Symbol, price: Symbol -> real, d: Discipline) {
    r.Success? ==> Kept(l, r.value, price, d) && OrderlyAt(r.value, s, d)
                   && ClockLaws.SameElsewhere(l, r.value, s)
  }

  lemma OnlyOrdersDiffer(l: Ledger, r: Ledger, price: Symbol -> real, d: Discipline)
    requires r.cash == l.cash && r.positions == l.positions && r.trades == l.trades
    requires r.blotter == l.blotter && r.stray == l.stray
    ensures Kept(l, r, price, d)
  {
  }

  /** A fill with no other order resting for the symbol. */
  lemma FillKeeps(cfg: Config, l: Ledger, order: OrderPlan, base: real, when: Time, leverage: Leverage,
                  price: Symbol -> real, d: Discipline)
    requires (d.sided ==> Conforms(l, order)) && (d.heldOnly && order.reduceOnly ==> order.symbol in l.positions)
    requires order.symbol !in l.pending && order.symbol !in l.scheduled
    ensures KeptAt(l, Fill(cfg, l, order, base, when, leverage), order.symbol, price, d)
    ensures var r := Fill(cfg, l, order, base, when, leverage);
            r.Success? ==> r.value.pending == l.pending && r.value.scheduled == l.scheduled
  {
    hide Backing, Gap, FillPrice, FeeOf, Gain, Share, AveragePrice;
    if Fill(cfg, l, order, base, when, leverage).Success? {
      FillBacking(cfg, l, order, base, when, leverage);
      FillGap(cfg, l, order, base, when, leverage, price);
    }
  }

  lemma ExecuteKeeps(cfg: Config, l: Ledger, order: OrderPlan, c: Candle, leverage: Leverage,
                     price: Symbol -> real, d: Discipline)
    requires Waits(l, order.symbol, order, d) && (d.heldOnly && order.reduceOnly ==> order.symbol in l.positions)
    requires order.symbol !in l.pending && order.symbol !in l.scheduled
    ensures KeptAt(l, ExecuteAtCandle(cfg, l, order, c, leverage), order.symbol, price, d)
  {
    hide Fill, Kept;
    if Rests(order, c) {
      OnlyOrdersDiffer(l, ExecuteAtCandle(cfg, l, order, c, leverage).value, price, d);
    } else {
      FillKeeps(cfg, l, order, c.open, c.timestamp, leverage, price, d);
    }
  }

  lemma ActivateKeeps(cfg: Config, l: Ledger, s: Symbol, through: Time, price: Symbol -> real, d: Discipline)
    requires OrderlyAt(l, s, d)
    ensures KeptAt(l, ActivateScheduled(cfg, l, s, through), s, price, d)
  {
    hide ExecuteAtCandle, Backing, Gap;
    if Due(l, s, through) {
      var o := l.scheduled[s];
      var taken := l.(scheduled := l.scheduled - {s});
      OnlyOrdersDiffer(l, taken, price, d);
      if !o.order.reduceOnly || s in l.positions {
        ExecuteKeeps(cfg, taken, o.order, o.fillCandle, o.leverage, price, d);
      }
    }
  }

  lemma ProtectKeeps(cfg: Config, l: Ledger, s: Symbol, c: Candle, allowTarget: bool,
                     price: Symbol -> real, d: Discipline)
    requires OrderlyAt(l, s, d)
    ensures KeptAt(l, Protect(cfg, l, s, c, allowTarget), s, price, d)
    ensures var r := Protect(cfg, l, s, c, allowTarget);
            r.Success? ==> r.value.pending == l.pending && r.value.scheduled == l.scheduled
  {
    hide Backing, Gap, FeeOf, Gain, Share, Slipped, Touched;
    if Protect(cfg, l, s, c, allowTarget).Success? {
      ProtectBacking(cfg, l, s, c, allowTarget);
      ProtectGap(cfg, l, s, c, allowTarget, price);
    }
  }

  lemma FillRestingKeeps(cfg: Config, l: Ledger, s: Symbol, c: Candle, price: Symbol -> real, d: Discipline)
    requires OrderlyAt(l, s, d)
    ensures KeptAt(l, FillResting(cfg, l, s, c), s, price, d)
  {
    hide Fill, Protect, Backing, Gap;
    if s in l.pending && l.pending[s].submittedAt <= c.timestamp {
      var order: OrderPlan := l.pending[s].order;
      if Reaches(order.side, order.limit.value, c) {
        var taken := l.(pending := l.pending - {s});
        OnlyOrdersDiffer(l, taken, price, d);
        if !order.reduceOnly || s in l.positions {
          var atOpen := Marketable(order.side, order.limit.value, c.open);
          var base := if atOpen then c.open else order.limit.value;
          FillKeeps(cfg, taken, order, base, c.timestamp, l.pending[s].leverage, price, d);
          var filled := Fill(cfg, taken, order, base, c.timestamp, l.pending[s].leverage);
          if filled.Success? {
            ProtectKeeps(cfg, filled.value, s, c, atOpen, price, d);
          }
        }
      }
    }
  }

  lemma SettleKeeps(cfg: Config, l: Ledger, s: Symbol, c: Candle, price: Symbol -> real, d: Discipline)
    requires OrderlyAt(l, s, d)
    ensures KeptAt(l, SettleCandle(cfg, l, s, c), s, price, d)
  {
    hide Protect, FillResting, Backing, Gap, FundingOf;
    var charged := ChargeFunding(l, s, c);
    FundingBacking(l, s, c);
    FundingGap(l, s, c, price);
    ProtectKeeps(cfg, charged, s, c, true, price, d);
    var guarded := Protect(cfg, charged, s, c, true);
    if guarded.Success? {
      FillRestingKeeps(cfg, guarded.value, s, c, price, d);
    }
  }

  lemma {:induction false} SettleBarsKeeps(cfg: Config, l: Ledger, s: Symbol, bars: seq<Candle>,
                                           price: Symbol -> real, d: Discipline)
    requires OrderlyAt(l, s, d)
    ensures KeptAt(l, SettleBars(cfg, l, s, bars), s, price, d)
    decreases |bars|
  {
    hide ActivateScheduled, SettleCandle, Backing, Gap;
    if bars != [] {
      ActivateKeeps(cfg, l, s, bars[0].timestamp, price, d);
      var active := ActivateScheduled(cfg, l, s, bars[0].timestamp);
      if active.Success? {
        SettleKeeps(cfg, active.value, s, bars[0], price, d);
        var settled := SettleCandle(cfg, active.value, s, bars[0]);
        if settled.Success? {
          SettleBarsKeeps(cfg, settled.value, s, bars[1..], price, d);
        }
      }
    }
  }

  lemma OthersStayOrderly(l: Ledger, r: Ledger, s: Symbol, d: Discipline)
    requires ClockLaws.SameElsewhere(l, r, s) && OrderlyAt(r, s, d) && Orderly(l, d)
    ensures Orderly(r, d)
  {
    forall t | t != s && (t in r.pending || t in r.scheduled) ensures OrderlyAt(r, t, d) {
      ClockLaws.KeepsEntry(l.pending, r.pending, s, t);
      ClockLaws.KeepsEntry(l.scheduled, r.scheduled, s, t);
      ClockLaws.KeepsEntry(l.positions, r.positions, s, t);
    }
  }

  lemma OrderlyAnywhere(l: Ledger, s: Symbol, d: Discipline)
    requires Orderly(l, d)
    ensures OrderlyAt(l, s, d)
  {
  }

  lemma SettleUntilKeeps(input: Input, st: Clocked, s: Symbol, through: Time, price: Symbol -> real, d: Discipline)
    requires s in input.series && Orderly(st.ledger, d)
    ensures var r := SettleUntil(input, st, s, through);
            r.Success? ==> Kept(st.ledger, r.value.ledger, price, d) && Orderly(r.value.ledger, d)
  {
    hide SettleBars, ActivateScheduled, Backing, Gap, Orderly, OrderlyAt;
    OrderlyAnywhere(st.ledger, s, d);
    var bars := Slice(input.series[s], Cursor(input, st.cursor, s), ClosedBy(input.series[s], through));
    SettleBarsKeeps(input.config, st.ledger, s, bars, price, d);
    var settled := SettleBars(input.config, st.ledger, s, bars);
    if settled.Success? {
      OthersStayOrderly(st.ledger, settled.value, s, d);
      ActivateKeeps(input.config, settled.value, s, through, price, d);
      var active := ActivateScheduled(input.config, settled.value, s, through);
      if active.Success? {
        OthersStayOrderly(settled.value, active.value, s, d);
      }
    }
  }

  lemma {:induction false} SettleAllKeeps(input: Input, st: Clocked, symbols: seq<Symbol>, through: Time,
                                          price: Symbol -> real, d: Discipline)
    requires Orderly(st.ledger, d) && forall s :: s in symbols ==> s in input.series
    ensures var r := SettleAll(input, st, symbols, through);
            r.Success? ==> Kept(st.ledger, r.value.ledger, price, d) && Orderly(r.value.ledger, d)
    decreases |symbols|
  {
    hide SettleUntil, Backing, Gap, Orderly;
    if symbols != [] {
      SettleUntilKeeps(input, st, symbols[0], through, price, d);
      var next := SettleUntil(input, st, symbols[0], through);
      if next.Success? {
        SettleAllKeeps(input, next.value, symbols[1..], through, price, d);
      }
    }
  }

  /** Settlement charges no fee that no trade carries, whatever orders wait. */
  lemma SettlementNeverStrays(input: Input, st: Clocked, symbols: seq<Symbol>, through: Time)
    requires Orderly(st.ledger, Discipline(true, false)) && forall s :: s in symbols ==> s in input.series
    ensures var r := SettleAll(input, st, symbols, through);
            r.Success? ==> r.value.ledger.stray == st.ledger.stray
  {
    hide SettleAll, Backing, Gap, Orderly;
    SettleAllKeeps(input, st, symbols, through, s => 0.0, Discipline(true, false));
  }

  // ----- samples and decisions

  lemma ObserveKeeps(l: Ledger, marks: map<Symbol, real>, at: Time, price: Symbol -> real, d: Discipline)
    requires Orderly(l, d)
    ensures var r := ObserveAt(l, marks, at);
            r.Success? ==> Kept(l, r.value.0, price, d) && Orderly(r.value.0, d)
                           && r.value.0.positions == l.positions
                           && r.value.1.positions == ViewsOf(l.positions, marks)
                           && r.value.0.pending == l.pending && r.value.0.scheduled == l.scheduled
  {
    hide Total;
    var r := ObserveAt(l, marks, at);
    if r.Success? {
      OnlyOrdersDiffer(l, r.value.0, price, d);
      forall s ensures OrderlyAt(l, s, d) == OrderlyAt(r.value.0, s, d) {
      }
    }
  }

  lemma ReportKeeps(input: Input, b: Account, at: Time, price: Symbol -> real, d: Discipline)
    requires Orderly(b.ledger, d)
    ensures var r := Reported(input, b, at);
            r.Success? ==> Kept(b.ledger, r.value.ledger, price, d) && Orderly(r.value.ledger, d)
  {
    hide ObserveAt, Kept, Orderly;
    ObserveKeeps(b.ledger, Marks(input.series, at), at, price, d);
  }

  lemma {:induction false} ReportsKeep(input: Input, b: Account, at: Time, n: nat, price: Symbol -> real, d: Discipline)
    requires Orderly(b.ledger, d)
    ensures var r := ReportedTimes(input, b, at, n);
            r.Success? ==> Kept(b.ledger, r.value.ledger, price, d) && Orderly(r.value.ledger, d)
    decreases n
  {
    hide Reported, Backing, Gap, Orderly;
    if n > 0 {
      ReportKeeps(input, b, at, price, d);
      if Reported(input, b, at).Success? {
        ReportsKeep(input, Reported(input, b, at).value, at, n - 1, price, d);
      }
    }
  }

  lemma SubmitKeeps(input: Input, b: Account, s: Symbol, order: OrderPlan, leverage: Leverage, when: Time,
                    price: Symbol -> real, d: Discipline)
    requires s in input.series && Orderly(b.ledger, d) && !HasPending(b.ledger, s)
    requires Waits(b.ledger, s, order, d) && (d.heldOnly && order.reduceOnly ==> s in b.ledger.positions)
    ensures var r := Submit(input, b, s, order, leverage, when);
            r.Success? ==> Kept(b.ledger, r.value.ledger, price, d) && Orderly(r.value.ledger, d)
  {
    hide ExecuteAtCandle, Backing, Gap, Orderly;
    var candle := NextCandle(input.series[s], when);
    if candle.Some? && candle.value.timestamp < input.end {
      var executed := Execute(input.config, b.ledger, order, candle.value, leverage, Some(when));
      if Deferred(candle.value, Some(when)) {
        OnlyOrdersDiffer(b.ledger, executed.value, price, d);
        OthersStayOrderly(b.ledger, executed.value, s, d);
      } else {
        ExecuteKeeps(input.config, b.ledger, order, candle.value, leverage, price, d);
        if executed.Success? {
          OthersStayOrderly(b.ledger, executed.value, s, d);
        }
      }
    }
  }

  /** Only a submission that fills at once can charge a fee that no trade carries, and it charges
      exactly the fee of its own stray fill. */
  lemma SubmissionStrays(input: Input, b: Account, s: Symbol, order: OrderPlan, leverage: Leverage, when: Time)
    requires s in input.series && Submit(input, b, s, order, leverage, when).Success?
    ensures var candle := NextCandle(input.series[s], when);
            Submit(input, b, s, order, leverage, when).value.ledger.stray ==
            b.ledger.stray +
            if candle.None? || candle.value.timestamp >= input.end || Deferred(candle.value, Some(when))
               || Rests(order, candle.value)
            then 0.0 else StrayFee(input.config, b.ledger, order, candle.value.open)
  {
    hide Fill, Backing, StrayFee;
    var candle := NextCandle(input.series[s], when);
    if candle.Some? && !Rests(order, candle.value) && !Deferred(candle.value, Some(when)) {
      var c := candle.value;
      if c.timestamp < input.end {
        FillBacking(input.config, b.ledger, order, c.open, c.timestamp, leverage);
      }
    }
  }

  lemma DecideKeeps(input: Input, k: nat, i: nat, b: Account, s: Symbol, intent: Intent, when: Time,
                    price: Symbol -> real, d: Discipline)
    requires s in input.series && Orderly(b.ledger, d)
    requires forall portfolio :: input.policy(k, i, portfolio).Some? ==>
               Fits(input.policy(k, i, portfolio).value, s, portfolio.positions, d)
    ensures var r := Decide(input, k, i, b, s, intent, when);
            r.Success? ==> Kept(b.ledger, r.value.ledger, price, d) && Orderly(r.value.ledger, d)
  {
    hide ObserveAt, Submit, Backing, Gap, Orderly, Equity;
    if intent.Act? && !HasPending(b.ledger, s) {
      var marks := Marks(input.series, when);
      ObserveKeeps(b.ledger, marks, when, price, d);
      var observed := ObserveAt(b.ledger, marks, when);
      if observed.Success? {
        var (l, portfolio) := observed.value;
        var order := input.policy(k, i, portfolio);
        if order.Some? {
          SubmitKeeps(input, b.(ledger := l), s, order.value.(symbol := s), intent.leverage, when, price, d);
        }
      }
    }
  }

  lemma {:induction false} DecideEachKeeps(input: Input, batches: seq<Batch>, k: nat, i: nat, b: Account,
                                           intents: seq<Intent>, when: Time, price: Symbol -> real, d: Discipline)
    requires WellFormed(input, batches) && PolicyFits(input, batches, d) && k < |batches|
    requires i <= |Ready(batches[k].items)| == |intents| && Orderly(b.ledger, d)
    requires forall s :: s in Ready(batches[k].items) ==> s in input.series
    ensures var r := DecideEach(input, k, i, b, Ready(batches[k].items)[i..], intents[i..], when);
            r.Success? ==> Kept(b.ledger, r.value.ledger, price, d) && Orderly(r.value.ledger, d)
    decreases |intents| - i
  {
    hide Decide, Reported, Backing, Gap, Orderly, Ready;
    var ready := Ready(batches[k].items);
    if i < |ready| {
      assert ready[i..][0] == ready[i] && ready[i..][1..] == ready[i + 1..];
      assert intents[i..][0] == intents[i] && intents[i..][1..] == intents[i + 1..];
      DecideKeeps(input, k, i, b, ready[i], intents[i], when, price, d);
      var decided := Decide(input, k, i, b, ready[i], intents[i], when);
      if decided.Success? {
        ReportKeeps(input, decided.value, when, price, d);
        var reported := Reported(input, decided.value, when);
        if reported.Success? {
          DecideEachKeeps(input, batches, k, i + 1, reported.value, intents, when, price, d);
        }
      }
    }
  }

  // ----- runs

  ghost predicate ProgressKept(l: Ledger, p: Progress, price: Symbol -> real, d: Discipline) {
    && Kept(l, p.clocked.ledger, price, d) && Orderly(p.clocked.ledger, d)
    && Kept(l, p.saved, price, d) && Orderly(p.saved, d)
  }

  lemma ConsultKeeps(input: Input, batches: seq<Batch>, k: nat, p: Progress, l: Ledger,
                     price: Symbol -> real, d: Discipline)
    requires WellFormed(input, batches) && PolicyFits(input, batches, d) && k < |batches|
    requires ProgressKept(l, p, price, d)
    requires forall s :: s in Ready(batches[k].items) ==> s in input.series
    ensures var r := Consult(input, k, p, Ready(batches[k].items), batches[k].when);
            r.Success? ==> ProgressKept(l, r.value.progress, price, d)
  {
    hide ObserveAt, DecideEach, ReportedTimes, Backing, Gap, Orderly, Ready;
    var ready, when := Ready(batches[k].items), batches[k].when;
    var marks := Marks(input.series, when);
    ObserveKeeps(p.clocked.ledger, marks, when, price, d);
    var observed := ObserveAt(p.clocked.ledger, marks, when);
    if observed.Success? {
      match Ask(input, k, observed.value.1, |ready|, 0)
      case None =>
        ReportsKeep(input, Account(p.saved, p.curve), SavedAt(input, p.savedAt), |ready|, price, d);
      case Some(intents) =>
        assert ready[0..] == ready && intents[0..] == intents;
        DecideEachKeeps(input, batches, k, 0, Account(observed.value.0, p.curve), intents, when, price, d);
    }
  }

  lemma RunBatchKeeps(input: Input, batches: seq<Batch>, k: nat, p: Progress, l: Ledger,
                      price: Symbol -> real, d: Discipline)
    requires WellFormed(input, batches) && PolicyFits(input, batches, d) && k < |batches|
    requires ProgressKept(l, p, price, d)
    ensures var r := RunBatch(input, k, batches[k], p);
            r.Success? ==> ProgressKept(l, r.value.progress, price, d)
  {
    hide SettleAll, ReportedTimes, Consult, Backing, Gap, Orderly, Ready, PolicyFits;
    var batch := batches[k];
    ReadyInSeries(input, batch.items);
    var ready := Ready(batch.items);
    SettleAllKeeps(input, p.clocked, input.seriesOrder, batch.when, price, d);
    var settled := Advance(input, p, batch.when);
    if settled.Success? {
      var missing := |batch.items| - |ready|;
      var b := Account(settled.value.clocked.ledger, settled.value.curve);
      ReportsKeep(input, b, batch.when, missing, price, d);
      var reported := ReportedTimes(input, b, batch.when, missing);
      if reported.Success? {
        ConsultKeeps(input, batches, k,
                     settled.value.(clocked := settled.value.clocked.(ledger := reported.value.ledger),
                                    curve := reported.value.curve), l, price, d);
      }
    }
  }

  lemma {:induction false} RunPrefixKeeps(input: Input, batches: seq<Batch>, l: Ledger, k: nat,
                                          price: Symbol -> real, d: Discipline)
    requires WellFormed(input, batches) && PolicyFits(input, batches, d) && k <= |batches|
    requires l.pending == map[] && l.scheduled == map[]
    ensures var r := RunPrefix(input, batches, l, k);
            r.Success? ==> ProgressKept(l, r.value.progress, price, d)
  {
    hide RunBatch, PolicyFits, Backing, Gap;
    if k > 0 {
      RunPrefixKeeps(input, batches, l, k - 1, price, d);
      var before := RunPrefix(input, batches, l, k - 1);
      if before.Success? && before.value.Continue? {
        RunBatchKeeps(input, batches, k - 1, before.value.progress, l, price, d);
      }
    }
  }

  lemma {:induction false} CloseEachKeeps(cfg: Config, l: Ledger, order: seq<Symbol>, marks: map<Symbol, real>,
                                          when: Time, price: Symbol -> real, d: Discipline)
    requires forall s :: s in order ==> s in l.positions
    requires forall i, j :: 0 <= i < j < |order| ==> order[i] != order[j]
    ensures var r := CloseEach(cfg, l, order, marks, when);
            r.Success? ==> Kept(l, r.value, price, d)
    decreases |order|
  {
    hide CloseAt, Backing, Gap;
    if order != [] {
      var s := order[0];
      var base := MarkOf(marks, s, l.positions[s]);
      var closed := CloseAt(cfg, l, s, base, when, RunEnd);
      if closed.Success? {
        CloseAtBacking(cfg, l, s, base, when, RunEnd);
        CloseAtGap(cfg, l, s, base, when, RunEnd, price);
        CloseEachKeeps(cfg, closed.value, order[1..], marks, when, price, d);
      }
    }
  }

  /** With nothing open, the backing is cash less booked PnL, and the accounts are cash alone. */
  lemma FlatAccounts(flat: Ledger, price: Symbol -> real)
    requires flat.positions == map[]
    ensures Backing(flat) == flat.cash - NetPnl(flat.trades)
    ensures Gap(flat, price) == flat.cash - ClerkValue(flat.blotter, price)
  {
    TotalOfNothing(OpenAccount());
    TotalOfNothing(PnlUnder(price));
  }

  /** What is kept from the start of a replay to its flattened end. */
  lemma FlattenedKeeps(input: Input, batches: seq<Batch>, l: Ledger, order: seq<Symbol>, price: Symbol -> real,
                       d: Discipline)
    requires WellFormed(input, batches) && PolicyFits(input, batches, d)
    requires l.pending == map[] && l.scheduled == map[]
    requires RunFrom(input, batches, 0, Initial(l)).Success?
    requires Settled(input, RunFrom(input, batches, 0, Initial(l)).value).Success?
    requires ListsPositions(Settled(input, RunFrom(input, batches, 0, Initial(l)).value).value, order)
    ensures var step := RunFrom(input, batches, 0, Initial(l)).value;
            var flat := Flattened(input, step, Settled(input, step).value, order);
            flat.Success? ==> flat.value.positions == map[] && Kept(l, flat.value, price, d)
  {
    hide RunFrom, SettleAll, CloseEach, Backing, Gap, PolicyFits;
    RunIsWholePrefix(input, batches, l);
    RunPrefixKeeps(input, batches, l, |batches|, price, d);
    var step := RunFrom(input, batches, 0, Initial(l)).value;
    SettleAllKeeps(input, step.progress.clocked, input.symbols, input.end, price, d);
    var settled := Settled(input, step).value;
    var at := EffectiveEnd(input, step);
    CloseEachKeeps(input.config, settled, order, Marks(input.series, at), at, price, d);
    var flat := Flattened(input, step, settled, order);
    if flat.Success? {
      var each := CloseEach(input.config, settled, order, Marks(input.series, at), at).value;
      OnlyOrdersDiffer(each, flat.value, price, d);
    }
  }

  /** Conservation of cash during a replay, after any batches and whatever the policy orders: the
      identity has moved by exactly the fees that no trade carries, and there are none if no
      reduce-only order is decided without a position. */
  lemma RunningConservesCash(input: Input, batches: seq<Batch>, l: Ledger, k: nat)
    requires WellFormed(input, batches) && k <= |batches|
    requires l.pending == map[] && l.scheduled == map[]
    requires RunPrefix(input, batches, l, k).Success?
    ensures var now := RunPrefix(input, batches, l, k).value.progress.clocked.ledger;
            && Backing(now) == Backing(l) - (now.stray - l.stray)
            && (ReducesOnlyHeld(input, batches) ==> now.stray == l.stray)
  {
    hide RunPrefix, Backing, Gap, Orderly, PolicyFits;
    AnyPolicyFits(input, batches);
    RunPrefixKeeps(input, batches, l, k, s => 0.0, Discipline(false, false));
    if ReducesOnlyHeld(input, batches) {
      RunPrefixKeeps(input, batches, l, k, s => 0.0, Discipline(true, false));
    }
  }

  /** With a policy that respects sides, the equity after any batches, at any marks that cover the open
      positions, has moved as a clerk finds who only adds up executed fills, fees and funding. */
  lemma RunningRefinesBlotter(input: Input, batches: seq<Batch>, l: Ledger, k: nat, marks: map<Symbol, real>,
                              price: Symbol -> real)
    requires WellFormed(input, batches) && RespectsSides(input, batches) && k <= |batches|
    requires l.pending == map[] && l.scheduled == map[]
    requires RunPrefix(input, batches, l, k).Success?
    requires forall s :: s in RunPrefix(input, batches, l, k).value.progress.clocked.ledger.positions ==>
                           s in marks && marks[s] == price(s)
    ensures var now := RunPrefix(input, batches, l, k).value.progress.clocked.ledger;
            Equity(now, marks) - BookedValue(l, price) == ClerkValue(now.blotter, price) - ClerkValue(l.blotter, price)
  {
    hide RunPrefix, Backing, Gap, Orderly, PolicyFits, Equity, ClerkValue, BookedValue, WellFormed;
    var now := RunPrefix(input, batches, l, k).value.progress.clocked.ledger;
    RunPrefixKeeps(input, batches, l, k, price, Discipline(false, true));
    BookedValueIsEquity(now, marks, price);
    GapOf(now, price);
    GapOf(l, price);
  }

  /** Conservation of cash over a whole replay, rolled back or not, from a balanced start and whatever
      the policy orders: the final cash is the initial equity plus the net PnL of the trades, less the
      fees that no trade carries; there are none if no reduce-only order is decided without a
      position. */
  lemma ReplayConservesCash(input: Input, batches: seq<Batch>, l: Ledger, initialEquity: real, order: seq<Symbol>)
    requires WellFormed(input, batches)
    requires l.pending == map[] && l.scheduled == map[] && Balanced(l, initialEquity)
    requires RunFrom(input, batches, 0, Initial(l)).Success?
    requires Settled(input, RunFrom(input, batches, 0, Initial(l)).value).Success?
    requires ListsPositions(Settled(input, RunFrom(input, batches, 0, Initial(l)).value).value, order)
    ensures var step := RunFrom(input, batches, 0, Initial(l)).value;
            var flat := Flattened(input, step, Settled(input, step).value, order);
            flat.Success? ==>
              && flat.value.positions == map[]
              && flat.value.cash == initialEquity + NetPnl(flat.value.trades) - (flat.value.stray - l.stray)
              && (ReducesOnlyHeld(input, batches) ==> flat.value.stray == l.stray)
  {
    hide RunFrom, Settled, Flattened, Backing, Gap, PolicyFits;
    AnyPolicyFits(input, batches);
    FlattenedKeeps(input, batches, l, order, s => 0.0, Discipline(false, false));
    if ReducesOnlyHeld(input, batches) {
      FlattenedKeeps(input, batches, l, order, s => 0.0, Discipline(true, false));
    }
    var step := RunFrom(input, batches, 0, Initial(l)).value;
    var flat := Flattened(input, step, Settled(input, step).value, order);
    if flat.Success? {
      FlatAccounts(flat.value, s => 0.0);
    }
  }

  /** With a policy that respects sides, the final cash is moreover what the clerk finds, whatever
      prices he values his fills at. */
  lemma ReplayRefinesBlotter(input: Input, batches: seq<Batch>, l: Ledger, order: seq<Symbol>, price: Symbol -> real)
    requires WellFormed(input, batches) && RespectsSides(input, batches)
    requires l.pending == map[] && l.scheduled == map[]
    requires RunFrom(input, batches, 0, Initial(l)).Success?
    requires Settled(input, RunFrom(input, batches, 0, Initial(l)).value).Success?
    requires ListsPositions(Settled(input, RunFrom(input, batches, 0, Initial(l)).value).value, order)
    ensures var step := RunFrom(input, batches, 0, Initial(l)).value;
            var flat := Flattened(input, step, Settled(input, step).value, order);
            flat.Success? ==>
              flat.value.cash - ClerkValue(flat.value.blotter, price)
                == BookedValue(l, price) - ClerkValue(l.blotter, price)
  {
    hide RunFrom, Settled, Flattened, Backing, Gap, PolicyFits, ClerkValue, BookedValue;
    FlattenedKeeps(input, batches, l, order, price, Discipline(false, true));
    var step := RunFrom(input, batches, 0, Initial(l)).value;
    var flat := Flattened(input, step, Settled(input, step).value, order);
    if flat.Success? {
      FlatAccounts(flat.value, price);
      GapOf(l, price);
    }
  }

  lemma GapOf(l: Ledger, price: Symbol -> real)
    ensures Gap(l, price) == BookedValue(l, price) - ClerkValue(l.blotter, price)
  {
  }
}
