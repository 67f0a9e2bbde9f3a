/** Replay clock safety: no position is ever left before it was entered, and portfolio time never
    moves backwards, for every schedule and every behaviour of provider and policy. */
module ClockLaws {
  import opened Market
  import opened Bookkeeping
  import opened Replay
  import EquityWindow

  /** The only exception left is an opening order without a stop, which is not about time. */
  predicate Timely<T>(r: Result<T>) {
    r.Failure? ==> r.error == MissingStop
  }

  predicate EnteredBy(l: Ledger, s: Symbol, t: Time) {
    s in l.positions ==> l.positions[s].entryTime <= t
  }

  /** An operation on `s` touches nothing of another symbol, and not the equity window. */
  predicate SameElsewhere(l: Ledger, r: Ledger, s: Symbol) {
    && r.positions - {s} == l.positions - {s}
    && r.pending - {s} == l.pending - {s}
    && r.scheduled - {s} == l.scheduled - {s}
    && r.window == l.window
  }

  /** Resting orders are filed under their own symbol. */
  predicate FiledUnder(l: Ledger, s: Symbol) {
    && (s in l.pending ==> l.pending[s].order.symbol == s)
    && (s in l.scheduled ==> l.scheduled[s].order.symbol == s)
  }

  /** The result of an operation on `s` at instant `t`. */
  predicate Sound(l: Ledger, r: Result<Ledger>, s: Symbol, t: Time) {
    && Timely(r)
    && (r.Success? ==> EnteredBy(r.value, s, t) && SameElsewhere(l, r.value, s) && FiledUnder(r.value, s))
  }

  lemma BookIsSound(l: Ledger, s: Symbol, quantity: real, exit: real, when: Time, fee: real, reason: ExitReason)
    requires s in l.positions && 0.0 < quantity <= l.positions[s].quantity
    requires EnteredBy(l, s, when) && FiledUnder(l, s)
    ensures Sound(l, Bookkeeping.Book(l, s, quantity, exit, when, fee, reason), s, when)
    ensures var r := Bookkeeping.Book(l, s, quantity, exit, when, fee, reason);
            r.Success? ==> r.value.scheduled == l.scheduled
  {
    hide Gain, Share;
  }

  lemma FillIsSound(cfg: Config, l: Ledger, order: OrderPlan, base: real, when: Time, leverage: Leverage)
    requires EnteredBy(l, order.symbol, when) && FiledUnder(l, order.symbol)
    ensures Sound(l, Fill(cfg, l, order, base, when, leverage), order.symbol, when)
    ensures var r := Fill(cfg, l, order, base, when, leverage);
            r.Success? ==> r.value.scheduled == l.scheduled
  {
    hide Gain, Share, FeeOf, FillPrice, AveragePrice;
    var s := order.symbol;
    var fill := FillPrice(cfg, order, base);
    var fee := FeeOf(cfg, fill, order.quantity);
    if order.reduceOnly && s in l.positions {
      var quantity := Min(order.quantity, l.positions[s].quantity);
      var paid := Pay(l, fee, [Traded(s, order.side, quantity, fill)]);
      BookIsSound(paid, s, quantity, fill, when, fee, ModelExit);
    }
  }

  lemma ExecuteIsSound(cfg: Config, l: Ledger, order: OrderPlan, c: Candle, leverage: Leverage)
    requires EnteredBy(l, order.symbol, c.timestamp) && FiledUnder(l, order.symbol)
    ensures Sound(l, ExecuteAtCandle(cfg, l, order, c, leverage), order.symbol, c.timestamp)
    ensures var r := ExecuteAtCandle(cfg, l, order, c, leverage);
            r.Success? ==> r.value.scheduled == l.scheduled
  {
    hide Fill;
    if !Rests(order, c) {
      FillIsSound(cfg, l, order, c.open, c.timestamp, leverage);
    }
  }

  lemma ActivateIsSound(cfg: Config, l: Ledger, s: Symbol, through: Time)
    requires FiledUnder(l, s)
    requires Due(l, s, through) ==> EnteredBy(l, s, l.scheduled[s].fillCandle.timestamp)
    ensures var at := if Due(l, s, through) then l.scheduled[s].fillCandle.timestamp else through;
            EnteredBy(l, s, at) ==> Sound(l, ActivateScheduled(cfg, l, s, through), s, at)
    ensures var r := ActivateScheduled(cfg, l, s, through);
            r.Success? ==> r.value.scheduled == if Due(l, s, through) then l.scheduled - {s} else l.scheduled
    ensures !Due(l, s, through) ==> ActivateScheduled(cfg, l, s, through) == Success(l)
  {
    hide ExecuteAtCandle;
    if Due(l, s, through) {
      var o := l.scheduled[s];
      ExecuteIsSound(cfg, l.(scheduled := l.scheduled - {s}), o.order, o.fillCandle, o.leverage);
    }
  }

  lemma ProtectIsSound(cfg: Config, l: Ledger, s: Symbol, c: Candle, allowTarget: bool)
    requires EnteredBy(l, s, c.timestamp) && FiledUnder(l, s)
    ensures Sound(l, Protect(cfg, l, s, c, allowTarget), s, c.timestamp)
    ensures var r := Protect(cfg, l, s, c, allowTarget);
            r.Success? ==> r.value.scheduled == l.scheduled
  {
    hide Gain, Share, FeeOf, Slipped, Touched, Bookkeeping.Book;
    if s in l.positions {
      match Touched(l.positions[s], c, allowTarget)
      case None =>
      case Some((price, reason)) =>
        var p := l.positions[s];
        var fill := Slipped(cfg, price, ExitSide(p.side));
        var fee := FeeOf(cfg, fill, p.quantity);
        BookIsSound(Pay(l, fee, [Traded(s, ExitSide(p.side), p.quantity, fill)]),
                    s, p.quantity, fill, c.timestamp, fee, reason);
    }
  }

  lemma SettleIsSound(cfg: Config, l: Ledger, s: Symbol, c: Candle)
    requires EnteredBy(l, s, c.timestamp) && FiledUnder(l, s)
    ensures Sound(l, SettleCandle(cfg, l, s, c), s, c.timestamp)
    ensures var r := SettleCandle(cfg, l, s, c);
            r.Success? ==> r.value.scheduled == l.scheduled
  {
    hide Fill, Protect, FundingOf;
    var charged := ChargeFunding(l, s, c);
    ProtectIsSound(cfg, charged, s, c, true);
    var guarded := Protect(cfg, charged, s, c, true);
    if guarded.Success? {
      FillRestingIsSound(cfg, guarded.value, s, c);
    }
  }

  lemma FillRestingIsSound(cfg: Config, l: Ledger, s: Symbol, c: Candle)
    requires EnteredBy(l, s, c.timestamp) && FiledUnder(l, s)
    ensures Sound(l, FillResting(cfg, l, s, c), s, c.timestamp)
    ensures var r := FillResting(cfg, l, s, c);
            r.Success? ==> r.value.scheduled == l.scheduled
  {
    hide Fill, Protect;
    if s in l.pending {
      var order: OrderPlan := l.pending[s].order;
      var taken := l.(pending := l.pending - {s});
      var atOpen := Marketable(order.side, order.limit.value, c.open);
      var base := if atOpen then c.open else order.limit.value;
      FillIsSound(cfg, taken, order, base, c.timestamp, l.pending[s].leverage);
      var filled := Fill(cfg, taken, order, base, c.timestamp, l.pending[s].leverage);
      if filled.Success? {
        ProtectIsSound(cfg, filled.value, s, c, atOpen);
      }
    }
  }

  // ----- the settlement cursor of one symbol

  /** Bars of `cs` from index `n` on are unsettled: the position predates them all, and a
      scheduled order waits for one of them. */
  ghost predicate Ahead(l: Ledger, s: Symbol, cs: seq<Candle>, n: nat) {
    && FiledUnder(l, s)
    && (forall i :: n <= i < |cs| ==> EnteredBy(l, s, cs[i].timestamp))
    && (s in l.scheduled ==> exists f :: n <= f < |cs| && l.scheduled[s].fillCandle == cs[f])
  }

  /** Settling the next bar moves the cursor by one: every position that is charged or closed in
      it was entered at or before its open. */
  lemma SettleNextBar(cfg: Config, l: Ledger, s: Symbol, cs: seq<Candle>, n: nat)
    requires Spaced(cs) && n < |cs| && Ahead(l, s, cs, n)
    ensures var active := ActivateScheduled(cfg, l, s, cs[n].timestamp);
            && Timely(active)
            && (active.Success? ==>
                  && EnteredBy(active.value, s, cs[n].timestamp)
                  && !Due(active.value, s, cs[n].timestamp)
                  && var settled := SettleCandle(cfg, active.value, s, cs[n]);
                  && Timely(settled)
                  && (settled.Success? ==>
                        && SameElsewhere(l, settled.value, s)
                        && EnteredBy(settled.value, s, cs[n].timestamp)
                        && Ahead(settled.value, s, cs, n + 1)))
  {
    hide ExecuteAtCandle, SettleCandle, ActivateScheduled;
    var c := cs[n];
    ActivateIsSound(cfg, l, s, c.timestamp);
    var active := ActivateScheduled(cfg, l, s, c.timestamp);
    if active.Success? {
      SettleIsSound(cfg, active.value, s, c);
    }
  }

  /** Settling the bars `n..to` of one symbol. */
  lemma {:induction false} SettleBarsIsSound(cfg: Config, l: Ledger, s: Symbol, cs: seq<Candle>, n: nat, stop: nat,
                                             through: Time)
    requires Spaced(cs) && n <= stop <= |cs| && Ahead(l, s, cs, n) && EnteredBy(l, s, through)
    requires forall i :: n <= i < stop ==> cs[i].timestamp <= through
    ensures var r := SettleBars(cfg, l, s, cs[n..stop]);
            && Timely(r)
            && (r.Success? ==> Ahead(r.value, s, cs, stop) && SameElsewhere(l, r.value, s) && EnteredBy(r.value, s, through))
    decreases stop - n
  {
    hide ActivateScheduled, SettleCandle;
    if n < stop {
      assert cs[n..stop][0] == cs[n] && cs[n..stop][1..] == cs[n + 1..stop];
      SettleNextBar(cfg, l, s, cs, n);
      var active := ActivateScheduled(cfg, l, s, cs[n].timestamp);
      if active.Success? {
        var settled := SettleCandle(cfg, active.value, s, cs[n]);
        if settled.Success? {
          SettleBarsIsSound(cfg, settled.value, s, cs, n + 1, stop, through);
        }
      }
    } else {
      assert cs[n..stop] == [];
    }
  }

  /** The clock invariant of one symbol at instant `now`. */
  ghost predicate OnTime(input: Input, st: Clocked, s: Symbol, now: Time)
    requires s in input.series
  {
    var cs := input.series[s];
    var n := Cursor(input, st.cursor, s);
    && n <= |cs|
    && Ahead(st.ledger, s, cs, n)
    && EnteredBy(st.ledger, s, now)
    && (forall i :: n <= i < |cs| ==> now < ClosesAt(cs[i]))
    && (forall i :: 0 <= i < n ==> cs[i].timestamp < now || cs[i].timestamp < input.start)
    && (s in st.ledger.scheduled ==> now < st.ledger.scheduled[s].fillCandle.timestamp)
  }

  lemma SettleUntilIsOnTime(input: Input, st: Clocked, s: Symbol, now: Time, through: Time)
    requires s in input.series && Spaced(input.series[s])
    requires OnTime(input, st, s, now) && now <= through
    ensures var r := SettleUntil(input, st, s, through);
            && Timely(r)
            && (r.Success? ==>
                  && OnTime(input, r.value, s, through)
                  && SameElsewhere(st.ledger, r.value.ledger, s)
                  && r.value.cursor - {s} == st.cursor - {s})
  {
    hide ActivateScheduled, SettleBars, ExecuteAtCandle;
    var cs := input.series[s];
    var n := Cursor(input, st.cursor, s);
    var stop := Later(n, ClosedBy(cs, through));
    var bars := Slice(cs, n, ClosedBy(cs, through));
    assert bars == cs[n..stop];
    SettleBarsIsSound(input.config, st.ledger, s, cs, n, stop, through);
    var settled := SettleBars(input.config, st.ledger, s, bars);
    if settled.Success? {
      UnsettledStayOpen(cs, n, now, through);
      ActivateAtInstant(input.config, settled.value, s, cs, stop, through);
    }
  }

  /** Bars past both the cursor and the count closed by `through` close after `through`. */
  lemma UnsettledStayOpen(cs: seq<Candle>, n: nat, now: Time, through: Time)
    requires Spaced(cs) && n <= |cs|
    ensures forall i :: Later(n, ClosedBy(cs, through)) <= i < |cs| ==> through < ClosesAt(cs[i])
  {
  }

  /** Activation at an instant inside the next open bar: the entry is the open of that bar. */
  lemma ActivateAtInstant(cfg: Config, l: Ledger, s: Symbol, cs: seq<Candle>, n: nat, through: Time)
    requires Spaced(cs) && n <= |cs| && Ahead(l, s, cs, n) && EnteredBy(l, s, through)
    requires forall i :: n <= i < |cs| ==> through < ClosesAt(cs[i])
    ensures var r := ActivateScheduled(cfg, l, s, through);
            && Timely(r)
            && (r.Success? ==>
                  && Ahead(r.value, s, cs, n)
                  && EnteredBy(r.value, s, through)
                  && SameElsewhere(l, r.value, s)
                  && (s in r.value.scheduled ==> through < r.value.scheduled[s].fillCandle.timestamp))
  {
    hide ActivateScheduled, ExecuteAtCandle;
    ActivateIsSound(cfg, l, s, through);
  }

  lemma OpenIsNotClosed(cs: seq<Candle>, n: nat, through: Time)
    requires n <= |cs| && forall i :: n <= i < |cs| ==> through < ClosesAt(cs[i])
    ensures ClosedBy(cs, through) <= n
  {
    hide ClosedBy;
    if n < |cs| {
      assert through < ClosesAt(cs[n]);
    }
  }

  /** Settling through an instant that has already passed does nothing. */
  lemma SettlingAgainIsIdle(input: Input, st: Clocked, s: Symbol, now: Time, through: Time)
    requires s in input.series && OnTime(input, st, s, now) && through <= now
    ensures SettleUntil(input, st, s, through)
         == Success(st.(cursor := st.cursor[s := Cursor(input, st.cursor, s)]))
    ensures OnTime(input, st.(cursor := st.cursor[s := Cursor(input, st.cursor, s)]), s, now)
  {
    var cs := input.series[s];
    OpenIsNotClosed(cs, Cursor(input, st.cursor, s), through);
    assert Slice(cs, Cursor(input, st.cursor, s), ClosedBy(cs, through)) == [];
  }

  // ----- all symbols

  predicate SampledBy(l: Ledger, t: Time) {
    l.window != [] ==> l.window[|l.window| - 1].timestamp <= t
  }

  predicate AllEnteredBy(l: Ledger, t: Time) {
    forall s :: s in l.positions ==> l.positions[s].entryTime <= t
  }

  /** The clock invariant of the whole exchange at instant `now`. */
  ghost predicate Clock(input: Input, st: Clocked, now: Time) {
    && (forall s :: s in input.series ==> OnTime(input, st, s, now))
    && AllEnteredBy(st.ledger, now)
    && SampledBy(st.ledger, now)
    && input.start <= now
  }

  lemma OthersStayOnTime(input: Input, st: Clocked, next: Clocked, s: Symbol, t: Symbol, now: Time)
    requires t in input.series && s != t && OnTime(input, st, t, now)
    requires SameElsewhere(st.ledger, next.ledger, s) && next.cursor - {s} == st.cursor - {s}
    ensures OnTime(input, next, t, now)
  {
    KeepsEntry(st.ledger.positions, next.ledger.positions, s, t);
    KeepsEntry(st.ledger.pending, next.ledger.pending, s, t);
    KeepsEntry(st.ledger.scheduled, next.ledger.scheduled, s, t);
    KeepsEntry(st.cursor, next.cursor, s, t);
  }

  lemma KeepsEntry<V>(m: map<Symbol, V>, r: map<Symbol, V>, s: Symbol, t: Symbol)
    requires r - {s} == m - {s} && s != t
    ensures t in r <==> t in m
    ensures t in m ==> r[t] == m[t]
  {
    assert t in r <==> t in r - {s};
    assert t in m <==> t in m - {s};
    assert t in m ==> (r - {s})[t] == r[t] && (m - {s})[t] == m[t];
  }

  lemma EntriesElsewhere(l: Ledger, r: Ledger, s: Symbol, t: Time)
    requires SameElsewhere(l, r, s) && AllEnteredBy(l, t) && EnteredBy(r, s, t)
    ensures AllEnteredBy(r, t)
  {
    forall u | u in r.positions && u != s ensures r.positions[u].entryTime <= t {
      KeepsEntry(l.positions, r.positions, s, u);
    }
  }

  /** Each symbol is on time either before or after the settlement through `through`. */
  ghost predicate Crossing(input: Input, st: Clocked, now: Time, through: Time) {
    forall s :: s in input.series ==> OnTime(input, st, s, now) || OnTime(input, st, s, through)
  }

  /** Settling one symbol takes it across and leaves the others where they are. */
  lemma CrossOne(input: Input, st: Clocked, s: Symbol, now: Time, through: Time)
    requires Consistent(input) && s in input.series
    requires Crossing(input, st, now, through) && now <= through && AllEnteredBy(st.ledger, through)
    ensures var r := SettleUntil(input, st, s, through);
            && Timely(r)
            && (r.Success? ==>
                  && Crossing(input, r.value, now, through)
                  && (forall t :: t in input.series && (t == s || OnTime(input, st, t, through))
                        ==> OnTime(input, r.value, t, through))
                  && AllEnteredBy(r.value.ledger, through)
                  && r.value.ledger.window == st.ledger.window)
  {
    hide OnTime, SettleUntil;
    var r := SettleUntil(input, st, s, through);
    SettleUntilIsOnTime(input, st, s, if OnTime(input, st, s, through) then through else now, through);
    if r.Success? {
      EntriesAfterSettle(input, st, r.value, s, through);
      forall t | t in input.series && t != s
        ensures OnTime(input, st, t, now) ==> OnTime(input, r.value, t, now)
        ensures OnTime(input, st, t, through) ==> OnTime(input, r.value, t, through)
      {
        if OnTime(input, st, t, now) { OthersStayOnTime(input, st, r.value, s, t, now); }
        if OnTime(input, st, t, through) { OthersStayOnTime(input, st, r.value, s, t, through); }
      }
    }
  }

  lemma {:induction false} SettleAllIsOnTime(input: Input, st: Clocked, symbols: seq<Symbol>, now: Time, through: Time)
    requires Consistent(input) && forall s :: s in symbols ==> s in input.series
    requires Crossing(input, st, now, through) && now <= through
    requires AllEnteredBy(st.ledger, through)
    ensures var r := SettleAll(input, st, symbols, through);
            && Timely(r)
            && (r.Success? ==>
                  && Crossing(input, r.value, now, through)
                  && (forall s :: s in input.series && (s in symbols || OnTime(input, st, s, through))
                        ==> OnTime(input, r.value, s, through))
                  && AllEnteredBy(r.value.ledger, through)
                  && r.value.ledger.window == st.ledger.window)
    decreases |symbols|
  {
    hide OnTime, SettleUntil;
    if symbols != [] {
      var s := symbols[0];
      var r := SettleUntil(input, st, s, through);
      CrossOne(input, st, s, now, through);
      if r.Success? {
        SettleAllIsOnTime(input, r.value, symbols[1..], now, through);
        assert forall t :: t in symbols ==> t == s || t in symbols[1..];
      }
    }
  }

  lemma EntriesAfterSettle(input: Input, st: Clocked, next: Clocked, s: Symbol, through: Time)
    requires s in input.series && OnTime(input, next, s, through)
    requires SameElsewhere(st.ledger, next.ledger, s) && AllEnteredBy(st.ledger, through)
    ensures AllEnteredBy(next.ledger, through)
  {
    EntriesElsewhere(st.ledger, next.ledger, s, through);
  }

  /** Advancing the whole exchange keeps the clock invariant. */
  lemma AdvanceIsOnTime(input: Input, p: Progress, now: Time, when: Time)
    requires Consistent(input) && Clock(input, p.clocked, now) && now <= when
    requires p.settledThrough == Some(when) ==> now == when
    ensures var r := Advance(input, p, when);
            && Timely(r)
            && (r.Success? ==> Clock(input, r.value.clocked, when) && r.value.settledThrough == Some(when)
                               && r.value.saved == p.saved && r.value.savedAt == p.savedAt
                               && r.value.curve == p.curve)
  {
    hide OnTime, SettleAll;
    if p.settledThrough != Some(when) {
      SettleAllIsOnTime(input, p.clocked, input.seriesOrder, now, when);
    }
  }

  // ----- samples

  /** Sampling at the current instant succeeds and changes nothing but the window. */
  lemma ObserveIsOnTime(l: Ledger, marks: map<Symbol, real>, at: Time)
    requires SampledBy(l, at)
    ensures var r := ObserveAt(l, marks, at);
            r.Success? && SampledBy(r.value.0, at) && r.value.0.(window := l.window) == l
  {
    hide Total, Observe;
    PruneKeepsLast(EquityWindow.Record(l.window, EquityPoint(at, Equity(l, marks))), at - DAY);
  }

  lemma PruneKeepsLast(w: seq<EquityPoint>, cutoff: Time)
    requires w != []
    ensures EquityWindow.Prune(w, cutoff)[|EquityWindow.Prune(w, cutoff)| - 1] == w[|w| - 1]
  {
  }

  lemma ReportsAreOnTime(input: Input, b: Account, at: Time, n: nat)
    requires SampledBy(b.ledger, at)
    ensures var r := ReportedTimes(input, b, at, n);
            r.Success? && SampledBy(r.value.ledger, at) && r.value.ledger.(window := b.ledger.window) == b.ledger
    decreases n
  {
    if n > 0 {
      ObserveIsOnTime(b.ledger, Marks(input.series, at), at);
      ReportsAreOnTime(input, Reported(input, b, at).value, at, n - 1);
    }
  }

  lemma WindowIsFree(input: Input, l: Ledger, r: Ledger, cursor: map<Symbol, nat>, now: Time)
    requires Clock(input, Clocked(l, cursor), now)
    requires r.(window := l.window) == l && SampledBy(r, now)
    ensures Clock(input, Clocked(r, cursor), now)
  {
    forall s | s in input.series ensures OnTime(input, Clocked(r, cursor), s, now) {
      assert OnTime(input, Clocked(l, cursor), s, now);
    }
  }

  // ----- decisions

  /** An order submitted now fills at a bar that is still unsettled. */
  lemma ExecuteIsOnTime(input: Input, st: Clocked, s: Symbol, order: OrderPlan, c: Candle, leverage: Leverage,
                        now: Time)
    requires s in input.series && Spaced(input.series[s]) && OnTime(input, st, s, now) && input.start <= now
    requires order.symbol == s && NextCandle(input.series[s], now) == Some(c)
    ensures var r := Execute(input.config, st.ledger, order, c, leverage, Some(now));
            && Timely(r)
            && (r.Success? ==> SameElsewhere(st.ledger, r.value, s)
                               && OnTime(input, st.(ledger := r.value), s, now))
  {
    hide ExecuteAtCandle;
    var cs := input.series[s];
    var f := OpenedBefore(cs, now);
    assert Cursor(input, st.cursor, s) <= f && c == cs[f];
    if c.timestamp == now {
      ExecuteIsSound(input.config, st.ledger, order, c, leverage);
    }
  }

  lemma DecideIsOnTime(input: Input, k: nat, i: nat, b: Account, cursor: map<Symbol, nat>, s: Symbol,
                       intent: Intent, when: Time)
    requires Consistent(input) && s in input.series
    requires Clock(input, Clocked(b.ledger, cursor), when)
    ensures var r := Decide(input, k, i, b, s, intent, when);
            Timely(r) && (r.Success? ==> Clock(input, Clocked(r.value.ledger, cursor), when))
  {
    hide Execute, OnTime, ObserveAt, Equity;
    ObserveIsOnTime(b.ledger, Marks(input.series, when), when);
    if intent.Act? && !HasPending(b.ledger, s) {
      var (l, portfolio) := ObserveAt(b.ledger, Marks(input.series, when), when).value;
      WindowIsFree(input, b.ledger, l, cursor, when);
      var order := input.policy(k, i, portfolio);
      var candle := NextCandle(input.series[s], when);
      if order.Some? && candle.Some? && candle.value.timestamp < input.end {
        ExecutedKeepsClock(input, Clocked(l, cursor), s, order.value.(symbol := s), candle.value, intent.leverage, when);
      }
    }
  }

  lemma ExecutedKeepsClock(input: Input, st: Clocked, s: Symbol, order: OrderPlan, c: Candle, leverage: Leverage,
                           now: Time)
    requires Consistent(input) && s in input.series && Clock(input, st, now)
    requires order.symbol == s && NextCandle(input.series[s], now) == Some(c)
    ensures var r := Execute(input.config, st.ledger, order, c, leverage, Some(now));
            Timely(r) && (r.Success? ==> Clock(input, st.(ledger := r.value), now))
  {
    hide Execute;
    ExecuteIsOnTime(input, st, s, order, c, leverage, now);
    var r := Execute(input.config, st.ledger, order, c, leverage, Some(now));
    if r.Success? {
      var next := st.(ledger := r.value);
      EntriesElsewhere(st.ledger, next.ledger, s, now);
      forall t | t in input.series && t != s ensures OnTime(input, next, t, now) {
        OthersStayOnTime(input, st, next, s, t, now);
      }
    }
  }

  lemma {:induction false} DecideEachIsOnTime(input: Input, k: nat, i: nat, b: Account, cursor: map<Symbol, nat>,
                                              ready: seq<Symbol>, intents: seq<Intent>, when: Time)
    requires Consistent(input) && |ready| == |intents|
    requires forall s :: s in ready ==> s in input.series
    requires Clock(input, Clocked(b.ledger, cursor), when)
    ensures var r := DecideEach(input, k, i, b, ready, intents, when);
            Timely(r) && (r.Success? ==> Clock(input, Clocked(r.value.ledger, cursor), when))
    decreases |ready|
  {
    hide Decide, OnTime, ObserveAt;
    if ready != [] {
      DecideIsOnTime(input, k, i, b, cursor, ready[0], intents[0], when);
      var decided := Decide(input, k, i, b, ready[0], intents[0], when);
      if decided.Success? {
        ReportIsOnTime(input, decided.value, when);
        var reported := Reported(input, decided.value, when).value;
        WindowIsFree(input, decided.value.ledger, reported.ledger, cursor, when);
        DecideEachIsOnTime(input, k, i + 1, reported, cursor, ready[1..], intents[1..], when);
      }
    }
  }

  lemma ReportIsOnTime(input: Input, b: Account, at: Time)
    requires SampledBy(b.ledger, at)
    ensures var r := Reported(input, b, at);
            r.Success? && SampledBy(r.value.ledger, at) && r.value.ledger.(window := b.ledger.window) == b.ledger
  {
    ObserveIsOnTime(b.ledger, Marks(input.series, at), at);
  }

  // ----- the run

  /** Batches in time order, from the start of the window on. */
  ghost predicate Chronological(input: Input, batches: seq<Batch>) {
    && (forall k :: 0 <= k < |batches| ==> input.start <= batches[k].when)
    && (forall j, k :: 0 <= j < k < |batches| ==> batches[j].when <= batches[k].when)
  }

  /** The instant of the copy kept for a provider failure. */
  function SavedTime(input: Input, p: Progress): Time {
    SavedAt(input, p.savedAt)
  }

  ghost predicate RunClock(input: Input, p: Progress, now: Time) {
    && Clock(input, p.clocked, now)
    && (p.settledThrough.Some? ==> p.settledThrough.value <= now)
    && SavedTime(input, p) <= now
    && AllEnteredBy(p.saved, SavedTime(input, p))
    && SampledBy(p.saved, SavedTime(input, p))
  }

  /** A failed provider leaves a ledger that was only sampled since it was saved. */
  ghost predicate DiedOnTime(input: Input, p: Progress) {
    && p.clocked.ledger.(window := p.saved.window) == p.saved
    && AllEnteredBy(p.clocked.ledger, SavedTime(input, p))
  }

  lemma ConsultIsOnTime(input: Input, k: nat, p: Progress, ready: seq<Symbol>, when: Time)
    requires Consistent(input) && RunClock(input, p, when)
    requires forall s :: s in ready ==> s in input.series
    ensures var r := Consult(input, k, p, ready, when);
            && Timely(r)
            && (r.Success? && r.value.Continue? ==> RunClock(input, r.value.progress, when))
            && (r.Success? && r.value.Died? ==> DiedOnTime(input, r.value.progress))
  {
    hide OnTime, DecideEach, ReportedTimes, ObserveAt;
    ObserveIsOnTime(p.clocked.ledger, Marks(input.series, when), when);
    var (l, portfolio) := ObserveAt(p.clocked.ledger, Marks(input.series, when), when).value;
    WindowIsFree(input, p.clocked.ledger, l, p.clocked.cursor, when);
    match Ask(input, k, portfolio, |ready|, 0)
    case None =>
      ReportsAreOnTime(input, Account(p.saved, p.curve), SavedTime(input, p), |ready|);
    case Some(intents) =>
      DecideEachIsOnTime(input, k, 0, Account(l, p.curve), p.clocked.cursor, ready, intents, when);
  }

  lemma RunBatchIsOnTime(input: Input, k: nat, batch: Batch, p: Progress, now: Time)
    requires Consistent(input) && Known(input, batch)
    requires RunClock(input, p, now) && now <= batch.when
    ensures var r := RunBatch(input, k, batch, p);
            && Timely(r)
            && (r.Success? && r.value.Continue? ==> RunClock(input, r.value.progress, batch.when))
            && (r.Success? && r.value.Died? ==> DiedOnTime(input, r.value.progress))
  {
    hide OnTime, Advance, ReportedTimes, Consult;
    ReadyInSeries(input, batch.items);
    var ready := Ready(batch.items);
    AdvanceIsOnTime(input, p, now, batch.when);
    var advanced := Advance(input, p, batch.when);
    if advanced.Success? {
      var settled := advanced.value;
      var missing := |batch.items| - |ready|;
      ReportsAreOnTime(input, Account(settled.clocked.ledger, settled.curve), batch.when, missing);
      var b := ReportedTimes(input, Account(settled.clocked.ledger, settled.curve), batch.when, missing).value;
      WindowIsFree(input, settled.clocked.ledger, b.ledger, settled.clocked.cursor, batch.when);
      var seen := settled.(clocked := settled.clocked.(ledger := b.ledger), curve := b.curve);
      ConsultIsOnTime(input, k, seen, ready, batch.when);
    }
  }

  function LastInstant(input: Input, batches: seq<Batch>): Time {
    if batches == [] then input.start else batches[|batches| - 1].when
  }

  lemma {:induction false} RunFromIsOnTime(input: Input, batches: seq<Batch>, k: nat, p: Progress, now: Time)
    requires WellFormed(input, batches) && Chronological(input, batches) && k <= |batches|
    requires RunClock(input, p, now) && now <= LastInstant(input, batches)
    requires k < |batches| ==> now <= batches[k].when
    requires k == |batches| ==> now == LastInstant(input, batches)
    ensures var r := RunFrom(input, batches, k, p);
            && Timely(r)
            && (r.Success? && r.value.Continue? ==> RunClock(input, r.value.progress, LastInstant(input, batches)))
            && (r.Success? && r.value.Died? ==> DiedOnTime(input, r.value.progress))
    decreases |batches| - k
  {
    hide RunClock, RunBatch, DiedOnTime;
    if k < |batches| {
      RunBatchIsOnTime(input, k, batches[k], p, now);
      var r := RunBatch(input, k, batches[k], p);
      if r.Success? && r.value.Continue? {
        RunFromIsOnTime(input, batches, k + 1, r.value.progress, batches[k].when);
      }
    }
  }

  /** A ledger a replay may start from: nothing resting, nothing sampled, positions entered by
      the start. A fresh exchange and a recorded account are of this kind. */
  predicate Startable(l: Ledger, start: Time) {
    l.pending == map[] && l.scheduled == map[] && l.window == [] && AllEnteredBy(l, start)
  }

  lemma StartIsOnTime(input: Input, l: Ledger)
    requires Consistent(input) && Startable(l, input.start)
    ensures RunClock(input, Initial(l), input.start)
  {
    forall s | s in input.series ensures OnTime(input, Clocked(l, map[]), s, input.start) {
      var cs := input.series[s];
      var n := OpenedBefore(cs, input.start);
      assert forall i :: n <= i < |cs| ==> cs[n].timestamp <= cs[i].timestamp;
    }
  }

  /** The clock invariant after any number of batches. */
  lemma {:induction false} PrefixIsOnTime(input: Input, batches: seq<Batch>, l: Ledger, k: nat)
    requires WellFormed(input, batches) && Chronological(input, batches) && Startable(l, input.start)
    requires k <= |batches|
    ensures var r := RunPrefix(input, batches, l, k);
            r.Success? && r.value.Continue? ==>
              RunClock(input, r.value.progress, if k == 0 then input.start else batches[k - 1].when)
    decreases k
  {
    hide RunBatch, RunClock;
    if k == 0 {
      StartIsOnTime(input, l);
    } else {
      PrefixIsOnTime(input, batches, l, k - 1);
      var before := RunPrefix(input, batches, l, k - 1);
      if before.Success? && before.value.Continue? {
        RunBatchIsOnTime(input, k - 1, batches[k - 1], before.value.progress,
                         if k == 1 then input.start else batches[k - 2].when);
      }
    }
  }

  /** Replay clock safety: whatever the provider and the policy answer, no batch of a schedule
      from the start on ever raises "exit cannot precede entry" or "time cannot move backwards". */
  lemma ReplayIsTimely(input: Input, batches: seq<Batch>, l: Ledger)
    requires WellFormed(input, batches) && Chronological(input, batches) && Startable(l, input.start)
    ensures Timely(RunFrom(input, batches, 0, Initial(l)))
  {
    StartIsOnTime(input, l);
    RunFromIsOnTime(input, batches, 0, Initial(l), input.start);
  }

  // ----- the close-out

  /** Flattening fails exactly when some position was entered after the closing instant. */
  lemma {:induction false} CloseEachFailsIff(cfg: Config, l: Ledger, order: seq<Symbol>, marks: map<Symbol, real>,
                                             when: Time)
    requires forall s :: s in order ==> s in l.positions
    requires forall i, j :: 0 <= i < j < |order| ==> order[i] != order[j]
    ensures var r := CloseEach(cfg, l, order, marks, when);
            && (r.Failure? ==> r.error == ExitBeforeEntry)
            && (r.Failure? <==> exists s :: s in order && when < l.positions[s].entryTime)
    decreases |order|
  {
    hide Gain, Share, FeeOf, Slipped;
    if order != [] {
      var s := order[0];
      var closed := CloseAt(cfg, l, s, MarkOf(marks, s, l.positions[s]), when, RunEnd);
      assert closed.Failure? <==> when < l.positions[s].entryTime;
      if closed.Success? {
        CloseEachFailsIff(cfg, closed.value, order[1..], marks, when);
        assert forall t :: t in order ==> t == s || t in order[1..];
        assert forall t :: t in order[1..] ==> t in order && closed.value.positions[t] == l.positions[t];
      }
    }
  }

  lemma FlattenedFailsIff(input: Input, step: Step, l: Ledger, order: seq<Symbol>)
    requires ListsPositions(l, order)
    ensures var r := Flattened(input, step, l, order);
            && (r.Failure? ==> r.error == ExitBeforeEntry)
            && (r.Failure? <==> !AllEnteredBy(l, EffectiveEnd(input, step)))
  {
    var at := EffectiveEnd(input, step);
    CloseEachFailsIff(input.config, l, order, Marks(input.series, at), at);
  }

  /** Settling again after the last batch changes nothing when the end has already passed. */
  lemma {:induction false} SettlingAllAgainIsIdle(input: Input, st: Clocked, symbols: seq<Symbol>, now: Time, through: Time)
    requires forall s :: s in symbols ==> s in input.series
    requires forall s :: s in input.series ==> OnTime(input, st, s, now)
    requires through <= now
    ensures SettleAll(input, st, symbols, through).Success?
    ensures SettleAll(input, st, symbols, through).value.ledger == st.ledger
    decreases |symbols|
  {
    hide SettleUntil, OnTime;
    if symbols != [] {
      var s := symbols[0];
      SettlingAgainIsIdle(input, st, s, now, through);
      var next := st.(cursor := st.cursor[s := Cursor(input, st.cursor, s)]);
      forall t | t in input.series && t != s ensures OnTime(input, next, t, now) {
        SameElsewhereRefl(st.ledger, s);
        OthersStayOnTime(input, st, next, s, t, now);
      }
      SettlingAllAgainIsIdle(input, next, symbols[1..], now, through);
    }
  }

  lemma SameElsewhereRefl(l: Ledger, s: Symbol)
    ensures SameElsewhere(l, l, s)
  {
  }

  /** The exact condition for a clean close-out. A run that died always closes cleanly. A run
      that exhausted its batches raises only if a position was entered after the end, and never
      when the last batch is due by the end of the window. */
  lemma CloseOutIsTimelyIff(input: Input, batches: seq<Batch>, l: Ledger)
    requires WellFormed(input, batches) && Chronological(input, batches) && Startable(l, input.start)
    requires RunFrom(input, batches, 0, Initial(l)).Success?
    ensures var step := RunFrom(input, batches, 0, Initial(l)).value;
            var settled := Settled(input, step);
            && Timely(settled)
            && (settled.Success? ==>
                  && (step.Died? || LastInstant(input, batches) <= input.end ==>
                        AllEnteredBy(settled.value, EffectiveEnd(input, step)))
                  && forall order :: ListsPositions(settled.value, order) ==>
                       var flat := Flattened(input, step, settled.value, order);
                       && (flat.Failure? ==> flat.error == ExitBeforeEntry)
                       && (flat.Failure? <==> !AllEnteredBy(settled.value, EffectiveEnd(input, step))))
  {
    hide RunFrom, OnTime, SettleAll, ListsPositions, Flattened, AllEnteredBy;
    StartIsOnTime(input, l);
    RunFromIsOnTime(input, batches, 0, Initial(l), input.start);
    var step := RunFrom(input, batches, 0, Initial(l)).value;
    if step.Continue? {
      if LastInstant(input, batches) <= input.end {
        SettleToEnd(input, step.progress.clocked, LastInstant(input, batches));
      } else {
        SettlingAllAgainIsIdle(input, step.progress.clocked, input.symbols, LastInstant(input, batches), input.end);
      }
    }
    var settled := Settled(input, step);
    if settled.Success? {
      forall order | ListsPositions(settled.value, order)
        ensures var flat := Flattened(input, step, settled.value, order);
                && (flat.Failure? ==> flat.error == ExitBeforeEntry)
                && (flat.Failure? <==> !AllEnteredBy(settled.value, EffectiveEnd(input, step)))
      {
        FlattenedFailsIff(input, step, settled.value, order);
      }
    }
  }

  lemma SettleToEnd(input: Input, st: Clocked, now: Time)
    requires Consistent(input) && Clock(input, st, now) && now <= input.end
    ensures var r := SettleAll(input, st, input.symbols, input.end);
            Timely(r) && (r.Success? ==> AllEnteredBy(r.value.ledger, input.end))
  {
    hide OnTime, SettleAll;
    SettleAllIsOnTime(input, st, input.symbols, now, input.end);
  }
}
