/** No look-ahead, as a statement about two runs: histories that agree up to an instant give the
    same account at that instant, whatever happens later. */
module LookAheadLaws {
  import opened Market
  import opened Sums
  import opened Bookkeeping
  import opened Replay
  import EquityWindow

  /** Same open times; equal bars once closed by `t`; equal opens once opened by `t`. */
  ghost predicate BarsAgree(a: seq<Candle>, b: seq<Candle>, t: Time) {
    && |a| == |b|
    && forall i :: 0 <= i < |a| ==>
         && a[i].timestamp == b[i].timestamp
         && (a[i].timestamp <= t ==> a[i].open == b[i].open)
         && (ClosesAt(a[i]) <= t ==> a[i] == b[i])
  }

  ghost predicate SeriesAgree(a: Series, b: Series, t: Time) {
    a.Keys == b.Keys && forall s :: s in a ==> BarsAgree(a[s], b[s], t)
  }

  /** The same spec, provider and policy over two histories. */
  ghost predicate InputsAgree(a: Input, b: Input, t: Time) {
    b == a.(series := b.series) && SeriesAgree(a.series, b.series, t)
  }

  /** Only the prices inside an order that is still scheduled may differ. */
  predicate ScheduledAgree(a: ScheduledOrder, b: ScheduledOrder, t: Time) {
    && a.order == b.order && a.submittedAt == b.submittedAt && a.leverage == b.leverage
    && a.fillCandle.timestamp == b.fillCandle.timestamp
    && (a.fillCandle.timestamp <= t ==> a.fillCandle.open == b.fillCandle.open)
  }

  predicate LedgersAgree(a: Ledger, b: Ledger, t: Time) {
    && b == a.(scheduled := b.scheduled)
    && a.scheduled.Keys == b.scheduled.Keys
    && forall s :: s in a.scheduled ==> ScheduledAgree(a.scheduled[s], b.scheduled[s], t)
  }

  predicate Alike(a: Result<Ledger>, b: Result<Ledger>, t: Time) {
    match (a, b)
    case (Success(x), Success(y)) => LedgersAgree(x, y, t)
    case (Failure(e), Failure(f)) => e == f
    case _ => false
  }

  // ----- operations that never look at scheduled orders

  function With(r: Result<Ledger>, scheduled: map<Symbol, ScheduledOrder>): Result<Ledger> {
    if r.Success? then Success(r.value.(scheduled := scheduled)) else r
  }

  lemma BookIgnores(l: Ledger, s: Symbol, quantity: real, exit: real, when: Time, fee: real, reason: ExitReason,
                    x: map<Symbol, ScheduledOrder>)
    requires s in l.positions && 0.0 < quantity <= l.positions[s].quantity
    ensures Bookkeeping.Book(l.(scheduled := x), s, quantity, exit, when, fee, reason)
         == With(Bookkeeping.Book(l, s, quantity, exit, when, fee, reason), x)
  {
    hide Gain, Share;
  }

  lemma FillIgnores(cfg: Config, l: Ledger, order: OrderPlan, base: real, when: Time, leverage: Leverage,
                    x: map<Symbol, ScheduledOrder>)
    ensures Fill(cfg, l.(scheduled := x), order, base, when, leverage)
         == With(Fill(cfg, l, order, base, when, leverage), x)
  {
    hide Gain, Share, FeeOf, FillPrice, AveragePrice, Bookkeeping.Book;
    var fill := FillPrice(cfg, order, base);
    var fee := FeeOf(cfg, fill, order.quantity);
    var s := order.symbol;
    if order.reduceOnly && s in l.positions {
      var quantity := Min(order.quantity, l.positions[s].quantity);
      var paid := Pay(l, fee, [Traded(s, order.side, quantity, fill)]);
      assert Pay(l.(scheduled := x), fee, [Traded(s, order.side, quantity, fill)]) == paid.(scheduled := x);
      BookIgnores(paid, s, quantity, fill, when, fee, ModelExit, x);
    }
  }

  lemma ExecuteIgnores(cfg: Config, l: Ledger, order: OrderPlan, c: Candle, d: Candle, leverage: Leverage,
                       x: map<Symbol, ScheduledOrder>)
    requires c.timestamp == d.timestamp && c.open == d.open
    ensures ExecuteAtCandle(cfg, l.(scheduled := x), order, d, leverage)
         == With(ExecuteAtCandle(cfg, l, order, c, leverage), x)
  {
    hide Fill;
    if !Rests(order, c) {
      FillIgnores(cfg, l, order, c.open, c.timestamp, leverage, x);
    }
  }

  lemma CloseAtIgnores(cfg: Config, l: Ledger, s: Symbol, price: real, when: Time, reason: ExitReason,
                       x: map<Symbol, ScheduledOrder>)
    requires s in l.positions
    ensures CloseAt(cfg, l.(scheduled := x), s, price, when, reason)
         == With(CloseAt(cfg, l, s, price, when, reason), x)
  {
    hide Gain, Share, FeeOf, Slipped, Bookkeeping.Book;
    var p := l.positions[s];
    var fill := Slipped(cfg, price, ExitSide(p.side));
    var fee := FeeOf(cfg, fill, p.quantity);
    var traded := [Traded(s, ExitSide(p.side), p.quantity, fill)];
    assert Pay(l.(scheduled := x), fee, traded) == Pay(l, fee, traded).(scheduled := x);
    BookIgnores(Pay(l, fee, traded), s, p.quantity, fill, when, fee, reason, x);
  }

  lemma ProtectIgnores(cfg: Config, l: Ledger, s: Symbol, c: Candle, allowTarget: bool,
                       x: map<Symbol, ScheduledOrder>)
    ensures Protect(cfg, l.(scheduled := x), s, c, allowTarget) == With(Protect(cfg, l, s, c, allowTarget), x)
  {
    hide CloseAt;
    if s in l.positions {
      match Touched(l.positions[s], c, allowTarget)
      case None =>
      case Some((price, reason)) => CloseAtIgnores(cfg, l, s, price, c.timestamp, reason, x);
    }
  }

  lemma FillRestingIgnores(cfg: Config, l: Ledger, s: Symbol, c: Candle, x: map<Symbol, ScheduledOrder>)
    ensures FillResting(cfg, l.(scheduled := x), s, c) == With(FillResting(cfg, l, s, c), x)
  {
    hide Fill, Protect;
    if s in l.pending {
      var order: OrderPlan := l.pending[s].order;
      var taken := l.(pending := l.pending - {s});
      var atOpen := Marketable(order.side, order.limit.value, c.open);
      var base := if atOpen then c.open else order.limit.value;
      FillIgnores(cfg, taken, order, base, c.timestamp, l.pending[s].leverage, x);
      var filled := Fill(cfg, taken, order, base, c.timestamp, l.pending[s].leverage);
      if filled.Success? {
        ProtectIgnores(cfg, filled.value, s, c, atOpen, x);
      }
    }
  }

  lemma SettleIgnores(cfg: Config, l: Ledger, s: Symbol, c: Candle, x: map<Symbol, ScheduledOrder>)
    ensures SettleCandle(cfg, l.(scheduled := x), s, c) == With(SettleCandle(cfg, l, s, c), x)
  {
    hide Protect, FillResting, FundingOf;
    var charged := ChargeFunding(l, s, c);
    assert ChargeFunding(l.(scheduled := x), s, c) == charged.(scheduled := x);
    ProtectIgnores(cfg, charged, s, c, true, x);
    var guarded := Protect(cfg, charged, s, c, true);
    if guarded.Success? {
      FillRestingIgnores(cfg, guarded.value, s, c, x);
    }
  }

  lemma SettleKeepsScheduled(cfg: Config, l: Ledger, s: Symbol, c: Candle)
    ensures SettleCandle(cfg, l, s, c).Success? ==> SettleCandle(cfg, l, s, c).value.scheduled == l.scheduled
  {
    hide SettleCandle;
    SettleIgnores(cfg, l, s, c, l.scheduled);
    assert l.(scheduled := l.scheduled) == l;
  }

  lemma ExecuteKeepsScheduled(cfg: Config, l: Ledger, order: OrderPlan, c: Candle, leverage: Leverage)
    ensures var r := ExecuteAtCandle(cfg, l, order, c, leverage);
            r.Success? ==> r.value.scheduled == l.scheduled
  {
    hide ExecuteAtCandle;
    ExecuteIgnores(cfg, l, order, c, c, leverage, l.scheduled);
    assert l.(scheduled := l.scheduled) == l;
  }

  // ----- two runs

  lemma SettleAlike(cfg: Config, l: Ledger, r: Ledger, s: Symbol, c: Candle, t: Time)
    requires LedgersAgree(l, r, t)
    ensures Alike(SettleCandle(cfg, l, s, c), SettleCandle(cfg, r, s, c), t)
  {
    hide SettleCandle;
    SettleIgnores(cfg, l, s, c, r.scheduled);
    SettleKeepsScheduled(cfg, l, s, c);
  }

  lemma ActivateAlike(cfg: Config, l: Ledger, r: Ledger, s: Symbol, through: Time, t: Time)
    requires LedgersAgree(l, r, t) && through <= t
    ensures Alike(ActivateScheduled(cfg, l, s, through), ActivateScheduled(cfg, r, s, through), t)
  {
    hide ExecuteAtCandle;
    if Due(l, s, through) {
      var o := l.scheduled[s];
      var taken := l.(scheduled := l.scheduled - {s});
      assert r.(scheduled := r.scheduled - {s}) == taken.(scheduled := r.scheduled - {s});
      ExecuteIgnores(cfg, taken, o.order, o.fillCandle, r.scheduled[s].fillCandle, o.leverage, r.scheduled - {s});
      ExecuteKeepsScheduled(cfg, taken, o.order, o.fillCandle, o.leverage);
    }
  }

  lemma {:induction false} SettleBarsAlike(cfg: Config, l: Ledger, r: Ledger, s: Symbol, bars: seq<Candle>, t: Time)
    requires LedgersAgree(l, r, t) && forall i :: 0 <= i < |bars| ==> bars[i].timestamp <= t
    ensures Alike(SettleBars(cfg, l, s, bars), SettleBars(cfg, r, s, bars), t)
    decreases |bars|
  {
    hide ActivateScheduled, SettleCandle, LedgersAgree;
    if bars != [] {
      var c := bars[0];
      ActivateAlike(cfg, l, r, s, c.timestamp, t);
      var a, b := ActivateScheduled(cfg, l, s, c.timestamp), ActivateScheduled(cfg, r, s, c.timestamp);
      if a.Success? {
        SettleAlike(cfg, a.value, b.value, s, c, t);
        var x, y := SettleCandle(cfg, a.value, s, c), SettleCandle(cfg, b.value, s, c);
        if x.Success? {
          SettleBarsAlike(cfg, x.value, y.value, s, bars[1..], t);
        }
      }
    }
  }

  /** Agreeing histories have closed and opened the same bars. */
  lemma BisectsAgree(a: seq<Candle>, b: seq<Candle>, t: Time, at: Time)
    requires BarsAgree(a, b, t)
    ensures OpenedBefore(a, at) == OpenedBefore(b, at) && ClosedBy(a, at) == ClosedBy(b, at)
    decreases |a|
  {
    if a != [] {
      BisectsAgree(a[1..], b[1..], t, at);
    }
  }

  lemma SlicesAgree(a: seq<Candle>, b: seq<Candle>, from: nat, through: Time, t: Time)
    requires BarsAgree(a, b, t) && through <= t
    ensures ClosedBy(a, through) == ClosedBy(b, through)
    ensures Slice(a, from, ClosedBy(a, through)) == Slice(b, from, ClosedBy(b, through))
    ensures forall i :: 0 <= i < |Slice(a, from, ClosedBy(a, through))| ==>
              Slice(a, from, ClosedBy(a, through))[i].timestamp <= t
  {
    BisectsAgree(a, b, t, through);
  }

  predicate ClockedAlike(a: Result<Clocked>, b: Result<Clocked>, t: Time) {
    match (a, b)
    case (Success(x), Success(y)) => LedgersAgree(x.ledger, y.ledger, t) && x.cursor == y.cursor
    case (Failure(e), Failure(f)) => e == f
    case _ => false
  }

  lemma SettleUntilAlike(a: Input, b: Input, x: Clocked, y: Clocked, s: Symbol, through: Time, t: Time)
    requires InputsAgree(a, b, t) && s in a.series && through <= t
    requires LedgersAgree(x.ledger, y.ledger, t) && x.cursor == y.cursor
    ensures ClockedAlike(SettleUntil(a, x, s, through), SettleUntil(b, y, s, through), t)
  {
    hide SettleBars, ActivateScheduled, LedgersAgree;
    var cs, ds := a.series[s], b.series[s];
    BisectsAgree(cs, ds, t, a.start);
    var from := Cursor(a, x.cursor, s);
    var bars := Slice(cs, from, ClosedBy(cs, through));
    SlicesAgree(cs, ds, from, through, t);
    SettleBarsAlike(a.config, x.ledger, y.ledger, s, bars, t);
    var l, r := SettleBars(a.config, x.ledger, s, bars), SettleBars(b.config, y.ledger, s, bars);
    if l.Success? {
      ActivateAlike(a.config, l.value, r.value, s, through, t);
    }
  }

  lemma {:induction false} SettleAllAlike(a: Input, b: Input, x: Clocked, y: Clocked, symbols: seq<Symbol>,
                                          through: Time, t: Time)
    requires InputsAgree(a, b, t) && through <= t
    requires forall s :: s in symbols ==> s in a.series
    requires LedgersAgree(x.ledger, y.ledger, t) && x.cursor == y.cursor
    ensures ClockedAlike(SettleAll(a, x, symbols, through), SettleAll(b, y, symbols, through), t)
    decreases |symbols|
  {
    hide SettleUntil, LedgersAgree;
    if symbols != [] {
      SettleUntilAlike(a, b, x, y, symbols[0], through, t);
      var l, r := SettleUntil(a, x, symbols[0], through), SettleUntil(b, y, symbols[0], through);
      if l.Success? {
        SettleAllAlike(a, b, l.value, r.value, symbols[1..], through, t);
      }
    }
  }

  lemma MarksAgree(a: Series, b: Series, t: Time, at: Time)
    requires SeriesAgree(a, b, t) && at <= t
    ensures Marks(a, at) == Marks(b, at)
  {
    forall s | s in a ensures ClosedBy(a[s], at) == ClosedBy(b[s], at) {
      BisectsAgree(a[s], b[s], t, at);
    }
  }

  lemma ObserveAlike(l: Ledger, r: Ledger, marks: map<Symbol, real>, at: Time, t: Time)
    requires LedgersAgree(l, r, t)
    ensures var x, y := ObserveAt(l, marks, at), ObserveAt(r, marks, at);
            match (x, y)
            case (Success((l', p)), Success((r', q))) => LedgersAgree(l', r', t) && p == q
            case (Failure(e), Failure(f)) => e == f
            case _ => false
  {
    assert Equity(l, marks) == Equity(r, marks);
  }

  predicate AccountsAlike(a: Result<Account>, b: Result<Account>, t: Time) {
    match (a, b)
    case (Success(x), Success(y)) => LedgersAgree(x.ledger, y.ledger, t) && x.curve == y.curve
    case (Failure(e), Failure(f)) => e == f
    case _ => false
  }

  lemma MarkAlike(a: Input, b: Input, x: Account, y: Account, at: Time, t: Time)
    requires InputsAgree(a, b, t) && at <= t
    requires LedgersAgree(x.ledger, y.ledger, t) && x.curve == y.curve
    ensures AccountsAlike(Success(Mark(a, x, at)), Success(Mark(b, y, at)), t)
  {
    MarksAgree(a.series, b.series, t, at);
  }

  lemma ReportedAlike(a: Input, b: Input, x: Account, y: Account, at: Time, t: Time)
    requires InputsAgree(a, b, t) && at <= t
    requires LedgersAgree(x.ledger, y.ledger, t) && x.curve == y.curve
    ensures AccountsAlike(Reported(a, x, at), Reported(b, y, at), t)
  {
    hide ObserveAt, LedgersAgree;
    MarksAgree(a.series, b.series, t, at);
    ObserveAlike(x.ledger, y.ledger, Marks(a.series, at), at, t);
  }

  lemma {:induction false} ReportsAlike(a: Input, b: Input, x: Account, y: Account, at: Time, n: nat, t: Time)
    requires InputsAgree(a, b, t) && at <= t
    requires LedgersAgree(x.ledger, y.ledger, t) && x.curve == y.curve
    ensures AccountsAlike(ReportedTimes(a, x, at, n), ReportedTimes(b, y, at, n), t)
    decreases n
  {
    hide Reported, LedgersAgree;
    if n > 0 {
      ReportedAlike(a, b, x, y, at, t);
      var l, r := Reported(a, x, at), Reported(b, y, at);
      if l.Success? {
        ReportsAlike(a, b, l.value, r.value, at, n - 1, t);
      }
    }
  }

  lemma ExecuteAlike(cfg: Config, l: Ledger, r: Ledger, order: OrderPlan, c: Candle, d: Candle,
                     leverage: Leverage, when: Time, t: Time)
    requires LedgersAgree(l, r, t) && when <= t
    requires c.timestamp == d.timestamp && when <= c.timestamp && (c.timestamp <= t ==> c.open == d.open)
    ensures Alike(Execute(cfg, l, order, c, leverage, Some(when)), Execute(cfg, r, order, d, leverage, Some(when)), t)
  {
    hide ExecuteAtCandle;
    if c.timestamp == when {
      ExecuteIgnores(cfg, l, order, c, d, leverage, r.scheduled);
      ExecuteKeepsScheduled(cfg, l, order, c, leverage);
    }
  }

  lemma SubmitAlike(a: Input, b: Input, x: Account, y: Account, s: Symbol, order: OrderPlan, leverage: Leverage,
                    when: Time, t: Time)
    requires InputsAgree(a, b, t) && s in a.series && when <= t
    requires LedgersAgree(x.ledger, y.ledger, t) && x.curve == y.curve
    ensures AccountsAlike(Submit(a, x, s, order, leverage, when), Submit(b, y, s, order, leverage, when), t)
  {
    hide Execute, Mark, LedgersAgree;
    BisectsAgree(a.series[s], b.series[s], t, when);
    var c, d := NextCandle(a.series[s], when), NextCandle(b.series[s], when);
    if c.Some? && c.value.timestamp < a.end {
      ExecuteAlike(a.config, x.ledger, y.ledger, order, c.value, d.value, leverage, when, t);
      var p := Execute(a.config, x.ledger, order, c.value, leverage, Some(when));
      var q := Execute(b.config, y.ledger, order, d.value, leverage, Some(when));
      if p.Success? {
        MarkAlike(a, b, x.(ledger := p.value), y.(ledger := q.value), when, t);
      }
    }
  }

  lemma DecideAlike(a: Input, b: Input, k: nat, i: nat, x: Account, y: Account, s: Symbol, intent: Intent,
                    when: Time, t: Time)
    requires InputsAgree(a, b, t) && s in a.series && when <= t
    requires LedgersAgree(x.ledger, y.ledger, t) && x.curve == y.curve
    ensures AccountsAlike(Decide(a, k, i, x, s, intent, when), Decide(b, k, i, y, s, intent, when), t)
  {
    hide Submit, ObserveAt, Mark, LedgersAgree;
    assert HasPending(x.ledger, s) == HasPending(y.ledger, s) by { PendingAgree(x.ledger, y.ledger, s, t); }
    MarkAlike(a, b, x, y, when, t);
    if intent.Act? && !HasPending(x.ledger, s) {
      MarksAgree(a.series, b.series, t, when);
      ObserveAlike(x.ledger, y.ledger, Marks(a.series, when), when, t);
      var u, v := ObserveAt(x.ledger, Marks(a.series, when), when), ObserveAt(y.ledger, Marks(b.series, when), when);
      if u.Success? {
        var p, q := x.(ledger := u.value.0), y.(ledger := v.value.0);
        MarkAlike(a, b, p, q, when, t);
        var order := a.policy(k, i, u.value.1);
        if order.Some? {
          SubmitAlike(a, b, p, q, s, order.value.(symbol := s), intent.leverage, when, t);
        }
      }
    }
  }

  lemma PendingAgree(l: Ledger, r: Ledger, s: Symbol, t: Time)
    requires LedgersAgree(l, r, t)
    ensures HasPending(l, s) == HasPending(r, s)
  {
    assert s in l.scheduled.Keys <==> s in r.scheduled.Keys;
  }

  lemma {:induction false} DecideEachAlike(a: Input, b: Input, k: nat, i: nat, x: Account, y: Account,
                                           ready: seq<Symbol>, intents: seq<Intent>, when: Time, t: Time)
    requires InputsAgree(a, b, t) && when <= t && |ready| == |intents|
    requires forall s :: s in ready ==> s in a.series
    requires LedgersAgree(x.ledger, y.ledger, t) && x.curve == y.curve
    ensures AccountsAlike(DecideEach(a, k, i, x, ready, intents, when), DecideEach(b, k, i, y, ready, intents, when), t)
    decreases |ready|
  {
    hide Decide, Reported, LedgersAgree;
    if ready != [] {
      DecideAlike(a, b, k, i, x, y, ready[0], intents[0], when, t);
      var u, v := Decide(a, k, i, x, ready[0], intents[0], when), Decide(b, k, i, y, ready[0], intents[0], when);
      if u.Success? {
        ReportedAlike(a, b, u.value, v.value, when, t);
        var p, q := Reported(a, u.value, when), Reported(b, v.value, when);
        if p.Success? {
          DecideEachAlike(a, b, k, i + 1, p.value, q.value, ready[1..], intents[1..], when, t);
        }
      }
    }
  }

  lemma AskAlike(a: Input, b: Input, k: nat, portfolio: Portfolio, expected: nat, attempt: nat)
    requires b == a.(series := b.series)
    ensures Ask(a, k, portfolio, expected, attempt) == Ask(b, k, portfolio, expected, attempt)
    decreases a.maxAttempts - attempt
  {
  }

  predicate ProgressAgree(p: Progress, q: Progress, t: Time) {
    && LedgersAgree(p.clocked.ledger, q.clocked.ledger, t) && p.clocked.cursor == q.clocked.cursor
    && p.settledThrough == q.settledThrough && p.curve == q.curve
    && LedgersAgree(p.saved, q.saved, t) && p.savedAt == q.savedAt
  }

  predicate StepsAlike(x: Result<Step>, y: Result<Step>, t: Time) {
    match (x, y)
    case (Success(u), Success(v)) => u.Died? == v.Died? && ProgressAgree(u.progress, v.progress, t)
    case (Failure(e), Failure(f)) => e == f
    case _ => false
  }

  predicate SavedBy(p: Progress, t: Time) {
    p.savedAt.Some? ==> p.savedAt.value <= t
  }

  lemma ConsultAlike(a: Input, b: Input, k: nat, p: Progress, q: Progress, ready: seq<Symbol>, when: Time, t: Time)
    requires InputsAgree(a, b, t) && when <= t && a.start <= t
    requires forall s :: s in ready ==> s in a.series
    requires ProgressAgree(p, q, t) && SavedBy(p, t)
    ensures StepsAlike(Consult(a, k, p, ready, when), Consult(b, k, q, ready, when), t)
    ensures var r := Consult(a, k, p, ready, when); r.Success? ==> SavedBy(r.value.progress, t)
  {
    hide ObserveAt, DecideEach, ReportedTimes, LedgersAgree;
    MarksAgree(a.series, b.series, t, when);
    ObserveAlike(p.clocked.ledger, q.clocked.ledger, Marks(a.series, when), when, t);
    var u := ObserveAt(p.clocked.ledger, Marks(a.series, when), when);
    var v := ObserveAt(q.clocked.ledger, Marks(b.series, when), when);
    if u.Success? {
      AskAlike(a, b, k, u.value.1, |ready|, 0);
      match Ask(a, k, u.value.1, |ready|, 0)
      case None =>
        var at := SavedAt(a, p.savedAt);
        ReportsAlike(a, b, Account(p.saved, p.curve), Account(q.saved, q.curve), at, |ready|, t);
      case Some(intents) =>
        DecideEachAlike(a, b, k, 0, Account(u.value.0, p.curve), Account(v.value.0, q.curve), ready, intents, when, t);
    }
  }

  lemma RunBatchAlike(a: Input, b: Input, k: nat, batch: Batch, p: Progress, q: Progress, t: Time)
    requires Consistent(a) && Consistent(b) && Known(a, batch) && InputsAgree(a, b, t)
    requires batch.when <= t && a.start <= t
    requires ProgressAgree(p, q, t) && SavedBy(p, t)
    ensures StepsAlike(RunBatch(a, k, batch, p), RunBatch(b, k, batch, q), t)
    ensures var r := RunBatch(a, k, batch, p); r.Success? ==> SavedBy(r.value.progress, t)
  {
    hide SettleAll, ReportedTimes, Consult, LedgersAgree;
    ReadyInSeries(a, batch.items);
    var ready := Ready(batch.items);
    SettleAllAlike(a, b, p.clocked, q.clocked, a.seriesOrder, batch.when, t);
    var u, v := Advance(a, p, batch.when), Advance(b, q, batch.when);
    if u.Success? {
      var missing := |batch.items| - |ready|;
      var x := Account(u.value.clocked.ledger, u.value.curve);
      var y := Account(v.value.clocked.ledger, v.value.curve);
      ReportsAlike(a, b, x, y, batch.when, missing, t);
      var l, r := ReportedTimes(a, x, batch.when, missing), ReportedTimes(b, y, batch.when, missing);
      if l.Success? {
        var seen := u.value.(clocked := u.value.clocked.(ledger := l.value.ledger), curve := l.value.curve);
        var seen' := v.value.(clocked := v.value.clocked.(ledger := r.value.ledger), curve := r.value.curve);
        ConsultAlike(a, b, k, seen, seen', ready, batch.when, t);
      }
    }
  }

  /** No look-ahead: two histories that agree on the bars closed by `t` and on the opens reached by
      `t` give the same outcome of all batches due by `t`: the same cash, positions, resting
      orders, trades, samples and curve, and scheduled orders that differ at most in prices of bars
      that open after `t`. */
  lemma {:induction false} NoLookAhead(a: Input, b: Input, batches: seq<Batch>, l: Ledger, k: nat, t: Time)
    requires WellFormed(a, batches) && Consistent(b) && InputsAgree(a, b, t) && k <= |batches|
    requires a.start <= t && forall j :: 0 <= j < k ==> batches[j].when <= t
    ensures WellFormed(b, batches)
    ensures StepsAlike(RunPrefix(a, batches, l, k), RunPrefix(b, batches, l, k), t)
    ensures var r := RunPrefix(a, batches, l, k); r.Success? ==> SavedBy(r.value.progress, t)
    decreases k
  {
    hide RunBatch, LedgersAgree;
    assert forall j :: 0 <= j < |batches| ==> Known(a, batches[j]) && Known(b, batches[j]);
    if k == 0 {
      assert LedgersAgree(l, l, t) by { AgreesWithItself(l, t); }
    } else {
      NoLookAhead(a, b, batches, l, k - 1, t);
      var u, v := RunPrefix(a, batches, l, k - 1), RunPrefix(b, batches, l, k - 1);
      if u.Success? && u.value.Continue? {
        RunBatchAlike(a, b, k - 1, batches[k - 1], u.value.progress, v.value.progress, t);
      }
    }
  }

  lemma AgreesWithItself(l: Ledger, t: Time)
    ensures LedgersAgree(l, l, t)
  {
  }

  /** Seen from the end of the window, the flattened result is a function of what had happened. */
  lemma ResultNeedsNoFuture(a: Input, b: Input, batches: seq<Batch>, l: Ledger, t: Time, order: seq<Symbol>)
    requires WellFormed(a, batches) && WellFormed(b, batches) && InputsAgree(a, b, t)
    requires a.start <= t && a.end <= t && forall k :: 0 <= k < |batches| ==> batches[k].when <= t
    requires RunFrom(a, batches, 0, Initial(l)).Success?
    requires Settled(a, RunFrom(a, batches, 0, Initial(l)).value).Success?
    requires ListsPositions(Settled(a, RunFrom(a, batches, 0, Initial(l)).value).value, order)
    ensures RunFrom(b, batches, 0, Initial(l)).Success?
    ensures var u, v := RunFrom(a, batches, 0, Initial(l)).value, RunFrom(b, batches, 0, Initial(l)).value;
            && Settled(b, v).Success?
            && ListsPositions(Settled(b, v).value, order)
            && Flattened(a, u, Settled(a, u).value, order) == Flattened(b, v, Settled(b, v).value, order)
  {
    hide SettleAll, RunFrom, RunPrefix, CloseEach;
    RunIsWholePrefix(a, batches, l);
    RunIsWholePrefix(b, batches, l);
    NoLookAhead(a, b, batches, l, |batches|, t);
    var u, v := RunFrom(a, batches, 0, Initial(l)).value, RunFrom(b, batches, 0, Initial(l)).value;
    SettleAllAlike(a, b, u.progress.clocked, v.progress.clocked, a.symbols, a.end, t);
    var x, y := Settled(a, u).value, Settled(b, v).value;
    var at := EffectiveEnd(a, u);
    MarksAgree(a.series, b.series, t, at);
    CloseEachIgnores(a.config, x, order, Marks(a.series, at), at, y.scheduled);
  }

  lemma {:induction false} CloseEachIgnores(cfg: Config, l: Ledger, order: seq<Symbol>, marks: map<Symbol, real>,
                                            when: Time, x: map<Symbol, ScheduledOrder>)
    requires forall s :: s in order ==> s in l.positions
    requires forall i, j :: 0 <= i < j < |order| ==> order[i] != order[j]
    ensures CloseEach(cfg, l.(scheduled := x), order, marks, when) == With(CloseEach(cfg, l, order, marks, when), x)
    decreases |order|
  {
    hide CloseAt;
    if order != [] {
      var s := order[0];
      var price := MarkOf(marks, s, l.positions[s]);
      CloseAtIgnores(cfg, l, s, price, when, RunEnd, x);
      var closed := CloseAt(cfg, l, s, price, when, RunEnd);
      if closed.Success? {
        CloseEachIgnores(cfg, closed.value, order[1..], marks, when, x);
      }
    }
  }
}
