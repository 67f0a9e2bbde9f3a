/** The replay driver as the loops it consists of. The locals of one run are fields here, because
    its progress report closes over them and the exchange is swapped for the saved copy. */
module Runner {
  import opened Market
  import opened Bookkeeping
  import opened Exchange
  import opened Replay
  import opened SettlementLaws
  import EquityWindow

  /** Exchange-aligned bar closes strictly after `start` and no later than `end`. */
  method DecisionTimes(start: Time, end: Time, step: Time) returns (times: seq<Time>)
    requires step > 0
    ensures forall t :: t in times <==> start < t <= end && t % step == 0
    ensures forall i, j :: 0 <= i < j < |times| ==> times[i] < times[j]
  {
    var first := (start / step + 1) * step;
    AlignedAfter(start, step);
    times := [];
    var cursor := first;
    while cursor <= end
      invariant cursor % step == 0 && start < cursor
      invariant forall t :: t in times <==> start < t <= end && t < cursor && t % step == 0
      invariant forall i :: 0 <= i < |times| ==> times[i] < cursor
      invariant forall i, j :: 0 <= i < j < |times| ==> times[i] < times[j]
      decreases end - cursor
    {
      forall t | cursor < t < cursor + step ensures t % step != 0 {
        NothingBetween(cursor, t, step);
      }
      times := times + [cursor];
      assert (cursor + step) % step == 0 by { NextAligned(cursor, step); }
      cursor := cursor + step;
    }
  }

  lemma MulMono(d: int, step: Time)
    requires step > 0
    ensures d >= 1 ==> d * step >= step
    ensures d <= -1 ==> d * step <= -step
  {
  }

  lemma ModUnique(t: Time, q: int, r: Time, step: Time)
    requires step > 0 && t == q * step + r && 0 <= r < step
    ensures t % step == r
  {
    var d := t / step - q;
    assert d * step == r - t % step;
    MulMono(d, step);
  }

  lemma NextAligned(t: Time, step: Time)
    requires step > 0 && t % step == 0
    ensures (t + step) % step == 0
  {
    ModUnique(t + step, t / step + 1, 0, step);
  }

  lemma NothingBetween(a: Time, t: Time, step: Time)
    requires step > 0 && a % step == 0 && a < t < a + step
    ensures t % step != 0
  {
    ModUnique(t, a / step, t - a, step);
  }

  /** The first aligned instant after `start` is aligned, later, and none lies before it. */
  lemma AlignedAfter(start: Time, step: Time)
    requires step > 0
    ensures var first := (start / step + 1) * step;
            first % step == 0 && start < first
            && forall t :: start < t < first ==> t % step != 0
  {
    var floor := start / step * step;
    ModUnique(floor, start / step, 0, step);
    ModUnique(floor + step, start / step + 1, 0, step);
    assert floor <= start < floor + step;
    forall t | start < t < floor + step ensures t % step != 0 {
      NothingBetween(floor, t, step);
    }
  }

  /** Settling the next slice of one symbol extends its log without a gap or a repetition. */
  lemma SettlingExtendsLog(input: Input, next: map<Symbol, nat>, log: map<Symbol, seq<Candle>>, s: Symbol, until: nat)
    requires s in input.series && SettledExactly(input, next, log) && until <= |input.series[s]|
    ensures var from := Cursor(input, next, s);
            SettledExactly(input, next[s := Later(from, until)], log[s := log[s] + Slice(input.series[s], from, until)])
  {
    var cs := input.series[s];
    var first := OpenedBefore(cs, input.start);
    var from := Cursor(input, next, s);
    SliceContinues(cs, first, from, until);
    assert log[s] == cs[first..from];
  }

  lemma SliceContinues(cs: seq<Candle>, first: nat, from: nat, until: nat)
    requires first <= from <= |cs| && until <= |cs|
    ensures cs[first..from] + Slice(cs, from, until) == cs[first..Later(from, until)]
  {
  }

  class BacktestRunner {
    const input: Input
    var exchange: SimulatedExchange
    var lastSuccess: SimulatedExchange
    var settledNext: map<Symbol, nat>
    var settledThrough: Option<Time>
    var lastSuccessfulAt: Option<Time>
    var curve: seq<EquityPoint>

    /** Every bar handed to settlement so far, per symbol, in order. */
    ghost var settledBars: map<Symbol, seq<Candle>>

    ghost predicate Valid()
      reads this, exchange, lastSuccess
    {
      && Consistent(input)
      && exchange.Valid() && exchange.config == input.config
      && lastSuccess.Valid() && lastSuccess.config == input.config
      && settledBars.Keys == input.series.Keys
      && SettledExactly(input, settledNext, settledBars)
    }

    ghost function Clock(): Clocked
      reads this, exchange
    {
      Clocked(exchange.State(), settledNext)
    }

    ghost function Progress(): Replay.Progress
      reads this, exchange, lastSuccess
    {
      Replay.Progress(Clock(), settledThrough, curve, lastSuccess.State(), lastSuccessfulAt)
    }

    constructor (input: Input, exchange: SimulatedExchange, lastSuccess: SimulatedExchange)
      requires Consistent(input)
      requires exchange.Valid() && exchange.config == input.config
      requires lastSuccess.Valid() && lastSuccess.config == input.config
      requires lastSuccess.State() == exchange.State()
      ensures Valid() && this.input == input && this.exchange == exchange && this.lastSuccess == lastSuccess
      ensures Progress() == Initial(exchange.State())
    {
      this.input, this.exchange, this.lastSuccess := input, exchange, lastSuccess;
      settledNext, settledThrough, lastSuccessfulAt, curve := map[], None, None, [];
      settledBars := map s | s in input.series :: [];
    }

    method Marks(at: Time) returns (marks: map<Symbol, real>)
      ensures marks == Replay.Marks(input.series, at)
    {
      marks := map[];
      var rest := input.series.Keys;
      while rest != {}
        invariant rest <= input.series.Keys
        invariant forall s :: s in marks <==>
                    s in input.series && s !in rest && ClosedBy(input.series[s], at) > 0
        invariant forall s :: s in marks ==> marks[s] == Replay.Marks(input.series, at)[s]
        decreases rest
      {
        var s :| s in rest;
        var closed := ClosedBy(input.series[s], at);
        if closed > 0 {
          marks := marks[s := input.series[s][closed - 1].close];
        }
        rest := rest - {s};
      }
    }

    method SettleEach(s: Symbol, bars: seq<Candle>) returns (r: Result<()>)
      requires exchange.Valid() && exchange.config == input.config && s in settledBars
      modifies this`settledBars, exchange
      ensures exchange.Valid() && exchange.samples == old(exchange.samples)
      ensures r.Success? ==> SettleBars(input.config, old(exchange.State()), s, bars) == Success(exchange.State())
      ensures r.Failure? ==> SettleBars(input.config, old(exchange.State()), s, bars) == Failure(r.error)
      ensures r.Success? ==> settledBars == old(settledBars)[s := old(settledBars)[s] + bars]
    {
      hide Bookkeeping.ActivateScheduled, Bookkeeping.SettleCandle, SettleBars;
      SettleBarsDone(input.config, exchange.State(), s, bars);
      ghost var log := settledBars[s];
      assert log + bars[..0] == log;
      var i := 0;
      while i < |bars|
        invariant 0 <= i <= |bars|
        invariant exchange.Valid() && exchange.samples == old(exchange.samples)
        invariant settledBars == old(settledBars)[s := log + bars[..i]]
        invariant SettleBars(input.config, exchange.State(), s, bars[i..])
               == SettleBars(input.config, old(exchange.State()), s, bars)
      {
        SettleBarsStep(input.config, exchange.State(), s, bars, i);
        var active := exchange.ActivateScheduled(s, bars[i].timestamp);
        if active.Failure? {
          return Failure(active.error);
        }
        var settled := exchange.SettleCandle(s, bars[i]);
        if settled.Failure? {
          return Failure(settled.error);
        }
        settledBars := settledBars[s := settledBars[s] + [bars[i]]];
        assert log + bars[..i + 1] == log + bars[..i] + [bars[i]];
        i := i + 1;
      }
      SettleBarsDone(input.config, exchange.State(), s, bars);
      assert log + bars[..|bars|] == log + bars;
      return Success(());
    }

    /** Settles each completed bar of `s` that is not settled yet, in order and once. */
    method SettleUntil(s: Symbol, through: Time) returns (r: Result<()>)
      requires Valid() && s in input.series && exchange != lastSuccess
      modifies this`settledNext, this`settledBars, exchange
      ensures exchange.Valid()
      ensures r.Success? ==> Replay.SettleUntil(input, old(Clock()), s, through) == Success(Clock())
      ensures r.Failure? ==> Replay.SettleUntil(input, old(Clock()), s, through) == Failure(r.error)
      ensures r.Success? ==> Valid()
      ensures r.Success? ==> settledBars == old(settledBars)[s := old(settledBars)[s] +
                Slice(input.series[s], Cursor(input, old(settledNext), s), ClosedBy(input.series[s], through))]
    {
      hide Bookkeeping.ActivateScheduled, SettleBars, Spaced, OpenedBefore, ClosedBy, SettledExactly;
      var cs := input.series[s];
      var from := Cursor(input, settledNext, s);
      var until := ClosedBy(cs, through);
      r := SettleEach(s, Slice(cs, from, until));
      if r.Success? {
        r := exchange.ActivateScheduled(s, through);
        if r.Success? {
          SettlingExtendsLog(input, settledNext, old(settledBars), s, until);
          settledNext := settledNext[s := Later(from, until)];
        }
      }
    }

    method SettleAll(symbols: seq<Symbol>, through: Time) returns (r: Result<()>)
      requires Valid() && exchange != lastSuccess && forall s :: s in symbols ==> s in input.series
      modifies this`settledNext, this`settledBars, exchange
      ensures exchange.Valid()
      ensures r.Success? ==> Valid()
      ensures r.Success? ==> Replay.SettleAll(input, old(Clock()), symbols, through) == Success(Clock())
      ensures r.Failure? ==> Replay.SettleAll(input, old(Clock()), symbols, through) == Failure(r.error)
    {
      hide Replay.SettleUntil, Consistent, SettledExactly;
      var i := 0;
      while i < |symbols|
        invariant 0 <= i <= |symbols|
        invariant Valid()
        invariant Replay.SettleAll(input, Clock(), symbols[i..], through)
               == Replay.SettleAll(input, old(Clock()), symbols, through)
      {
        assert symbols[i..][0] == symbols[i] && symbols[i..][1..] == symbols[i + 1..];
        var settled := SettleUntil(symbols[i], through);
        if settled.Failure? {
          return Failure(settled.error);
        }
        i := i + 1;
      }
      return Success(());
    }

    // ----- reports

    ghost function Account(): Replay.Account
      reads this, exchange
    {
      Replay.Account(exchange.State(), curve)
    }

    /** Appends the current equity to the curve without sampling the 24-hour window. */
    method Mark(at: Time)
      requires exchange.Valid()
      modifies this`curve
      ensures Account() == Replay.Mark(input, old(Account()), at)
    {
      var marks := Marks(at);
      var equity := exchange.EquityValue(marks);
      curve := curve + [EquityPoint(at, equity)];
    }

    method Report(at: Time) returns (r: Result<()>)
      requires exchange.Valid()
      modifies this`curve, exchange
      ensures exchange.Valid()
      ensures r.Success? ==> Reported(input, old(Account()), at) == Success(Account())
      ensures r.Failure? ==> Reported(input, old(Account()), at) == Failure(r.error)
    {
      hide ObserveAt;
      var marks := Marks(at);
      var portfolio := exchange.PortfolioStateAt(marks, at);
      if portfolio.Failure? {
        return Failure(portfolio.error);
      }
      var liveEquity := EquityPoint(at, portfolio.value.equity);
      if curve == [] || curve[|curve| - 1] != liveEquity {
        curve := curve + [liveEquity];
      }
      return Success(());
    }

    method ReportTimes(at: Time, n: nat) returns (r: Result<()>)
      requires exchange.Valid()
      modifies this`curve, exchange
      ensures exchange.Valid()
      ensures r.Success? ==> ReportedTimes(input, old(Account()), at, n) == Success(Account())
      ensures r.Failure? ==> ReportedTimes(input, old(Account()), at, n) == Failure(r.error)
    {
      hide Reported;
      var left: nat := n;
      while left > 0
        invariant left <= n && exchange.Valid()
        invariant ReportedTimes(input, Account(), at, left) == ReportedTimes(input, old(Account()), at, n)
      {
        var reported := Report(at);
        if reported.Failure? {
          return reported;
        }
        left := left - 1;
      }
      return Success(());
    }

    // ----- decisions

    /** Asks the provider until an answer of the right size arrives or the attempts run out. */
    method AskProvider(k: nat, portfolio: Portfolio, expected: nat) returns (intents: Option<seq<Intent>>)
      ensures intents == Ask(input, k, portfolio, expected, 0)
    {
      var attempt := 0;
      while attempt < input.maxAttempts
        invariant 0 <= attempt <= input.maxAttempts
        invariant Ask(input, k, portfolio, expected, attempt) == Ask(input, k, portfolio, expected, 0)
      {
        intents := input.provider(k, attempt, portfolio);
        if intents.Some? && |intents.value| == expected {
          return;
        }
        attempt := attempt + 1;
      }
      intents := None;
    }

    method Submit(s: Symbol, order: OrderPlan, leverage: Leverage, when: Time) returns (r: Result<()>)
      requires s in input.series && exchange.Valid() && exchange.config == input.config
      modifies this`curve, exchange
      ensures exchange.Valid()
      ensures r.Success? ==> Replay.Submit(input, old(Account()), s, order, leverage, when) == Success(Account())
      ensures r.Failure? ==> Replay.Submit(input, old(Account()), s, order, leverage, when) == Failure(r.error)
    {
      hide Bookkeeping.Execute, Equity;
      var candle := NextCandle(input.series[s], when);
      if candle.None? || candle.value.timestamp >= input.end {
        return Success(());
      }
      var execution := exchange.Execute(order, candle.value, leverage, Some(when));
      if execution.Failure? {
        return Failure(execution.error);
      }
      Mark(when);
      return Success(());
    }

    method Decide(k: nat, i: nat, s: Symbol, intent: Intent, when: Time) returns (r: Result<()>)
      requires s in input.series && exchange.Valid() && exchange.config == input.config
      modifies this`curve, exchange
      ensures exchange.Valid()
      ensures r.Success? ==> Replay.Decide(input, k, i, old(Account()), s, intent, when) == Success(Account())
      ensures r.Failure? ==> Replay.Decide(input, k, i, old(Account()), s, intent, when) == Failure(r.error)
    {
      hide ObserveAt, Replay.Submit, Replay.Mark, Replay.Marks, EquityWindow.Increasing, EquityWindow.IsWindowOf;
      var pending := exchange.HasPending(s);
      if intent.Hold? || pending {
        Mark(when);
        return Success(());
      }
      var marks := Marks(when);
      var portfolio := exchange.PortfolioStateAt(marks, when);
      if portfolio.Failure? {
        return Failure(portfolio.error);
      }
      var order := input.policy(k, i, portfolio.value);
      if order.None? {
        Mark(when);
        return Success(());
      }
      r := Submit(s, order.value.(symbol := s), intent.leverage, when);
    }

    method DecideEach(k: nat, ready: seq<Symbol>, intents: seq<Intent>, when: Time) returns (r: Result<()>)
      requires |ready| == |intents| && forall s :: s in ready ==> s in input.series
      requires exchange.Valid() && exchange.config == input.config
      modifies this`curve, exchange
      ensures exchange.Valid()
      ensures r.Success? ==> Replay.DecideEach(input, k, 0, old(Account()), ready, intents, when) == Success(Account())
      ensures r.Failure? ==> Replay.DecideEach(input, k, 0, old(Account()), ready, intents, when) == Failure(r.error)
    {
      hide Replay.Decide, Reported;
      var i := 0;
      while i < |ready|
        invariant 0 <= i <= |ready| && exchange.Valid()
        invariant Replay.DecideEach(input, k, i, Account(), ready[i..], intents[i..], when)
               == Replay.DecideEach(input, k, 0, old(Account()), ready, intents, when)
      {
        assert ready[i..][0] == ready[i] && ready[i..][1..] == ready[i + 1..];
        assert intents[i..][0] == intents[i] && intents[i..][1..] == intents[i + 1..];
        var decided := Decide(k, i, ready[i], intents[i], when);
        if decided.Failure? {
          return decided;
        }
        var reported := Report(when);
        if reported.Failure? {
          return reported;
        }
        i := i + 1;
      }
      return Success(());
    }

    /** The provider failed for good: the saved copy takes the exchange's place, and the failed
        decisions are reported at its instant. */
    method RollBack(failed: nat) returns (r: Result<()>)
      requires lastSuccess.Valid()
      modifies this`exchange, this`curve, lastSuccess
      ensures exchange == old(lastSuccess) && exchange.Valid()
      ensures var reports := ReportedTimes(input, Replay.Account(old(lastSuccess.State()), old(curve)),
                                           SavedAt(input, lastSuccessfulAt), failed);
              && (r.Success? ==> reports == Success(Account()))
              && (r.Failure? ==> reports == Failure(r.error))
    {
      hide ReportedTimes;
      exchange := lastSuccess;
      r := ReportTimes(SavedAt(input, lastSuccessfulAt), failed);
    }

    /** Books the answers one after the other and saves a copy of the outcome. */
    method BookAnswers(k: nat, ready: seq<Symbol>, intents: seq<Intent>, when: Time) returns (r: Result<()>)
      requires |ready| == |intents| && forall s :: s in ready ==> s in input.series
      requires exchange.Valid() && exchange.config == input.config
      modifies this`lastSuccess, this`lastSuccessfulAt, this`curve, exchange
      ensures exchange.Valid()
      ensures r.Success? ==> Replay.DecideEach(input, k, 0, old(Account()), ready, intents, when) == Success(Account())
      ensures r.Failure? ==> Replay.DecideEach(input, k, 0, old(Account()), ready, intents, when) == Failure(r.error)
      ensures r.Success? ==>
                && fresh(lastSuccess) && lastSuccess.Valid() && lastSuccess.config == input.config
                && lastSuccess.State() == exchange.State() && lastSuccessfulAt == Some(when)
    {
      hide Replay.DecideEach, EquityWindow.Increasing, EquityWindow.IsWindowOf;
      r := DecideEach(k, ready, intents, when);
      if r.Success? {
        lastSuccessfulAt := Some(when);
        lastSuccess := exchange.DeepCopy();
      }
    }

    /** The asked part of a batch. Returns whether the run goes on; if not, the exchange has been
        replaced by the copy saved after the last answered batch. */
    method Consult(k: nat, ready: seq<Symbol>, when: Time) returns (r: Result<bool>)
      requires Valid() && exchange != lastSuccess && forall s :: s in ready ==> s in input.series
      modifies this`exchange, this`lastSuccess, this`lastSuccessfulAt, this`curve, exchange, lastSuccess
      ensures r.Failure? ==> Replay.Consult(input, k, old(Progress()), ready, when) == Failure(r.error)
      ensures r.Success? && r.value ==>
                && Valid() && exchange == old(exchange) && fresh(lastSuccess)
                && Replay.Consult(input, k, old(Progress()), ready, when) == Success(Continue(Progress()))
      ensures r.Success? && !r.value ==>
                && exchange == old(lastSuccess) && exchange.Valid() && lastSuccessfulAt == old(lastSuccessfulAt)
                && Replay.Consult(input, k, old(Progress()), ready, when)
                   == Success(Died(old(Progress()).(clocked := Clock(), curve := curve)))
    {
      hide ObserveAt, Replay.DecideEach, ReportedTimes, Consistent, SettledExactly;
      hide EquityWindow.Increasing, EquityWindow.IsWindowOf;
      var marks := Marks(when);
      var portfolio := exchange.PortfolioStateAt(marks, when);
      if portfolio.Failure? {
        return Failure(portfolio.error);
      }
      var intents := AskProvider(k, portfolio.value, |ready|);
      var done: Result<()>;
      if intents.None? {
        done := RollBack(|ready|);
      } else {
        done := BookAnswers(k, ready, intents.value, when);
      }
      r := if done.Failure? then Failure(done.error) else Success(intents.Some?);
    }

    method Advance(when: Time) returns (r: Result<()>)
      requires Valid() && exchange != lastSuccess
      modifies this`settledNext, this`settledBars, this`settledThrough, exchange
      ensures r.Success? ==> Valid() && Replay.Advance(input, old(Progress()), when) == Success(Progress())
      ensures r.Failure? ==> Replay.Advance(input, old(Progress()), when) == Failure(r.error)
    {
      hide Replay.SettleAll, SettledExactly, EquityWindow.Increasing, EquityWindow.IsWindowOf;
      if settledThrough == Some(when) {
        return Success(());
      }
      r := SettleAll(input.seriesOrder, when);
      if r.Success? {
        settledThrough := Some(when);
      }
    }

    /** Splits a batch into the decisions that can be asked and reports the others. */
    method Collect(items: seq<Item>, when: Time) returns (r: Result<()>, ready: seq<Symbol>)
      requires exchange.Valid()
      modifies this`curve, exchange
      ensures exchange.Valid()
      ensures r.Success? ==> ready == Ready(items) && |ready| <= |items|
                             && ReportedTimes(input, old(Account()), when, |items| - |ready|) == Success(Account())
      ensures r.Failure? ==> |Ready(items)| <= |items|
                             && ReportedTimes(input, old(Account()), when, |items| - |Ready(items)|) == Failure(r.error)
    {
      hide Reported, Ready, EquityWindow.Increasing, EquityWindow.IsWindowOf;
      ReadyIsShorter(items);
      assert items[..] == items[0..] == items;
      ready := [];
      var i := 0;
      while i < |items|
        invariant 0 <= i <= |items| && exchange.Valid()
        invariant Ready(items) == ready + Ready(items[i..])
        invariant |Ready(items[i..])| <= |items| - i
        invariant ReportedTimes(input, Account(), when, |items| - i - |Ready(items[i..])|)
               == ReportedTimes(input, old(Account()), when, |items| - |Ready(items)|)
      {
        ReadyFrom(items, i);
        if items[i].hasSnapshot {
          ready := ready + [items[i].symbol];
        } else {
          r := Report(when);
          if r.Failure? {
            return;
          }
        }
        i := i + 1;
      }
      ReadyFrom(items, i);
      r := Success(());
    }

    /** One batch: settle everything, report what cannot be asked, ask and book the rest. */
    method RunBatch(k: nat, batch: Batch) returns (r: Result<bool>)
      requires Valid() && exchange != lastSuccess && Known(input, batch)
      modifies this, exchange, lastSuccess
      ensures r.Failure? ==> Replay.RunBatch(input, k, batch, old(Progress())) == Failure(r.error)
      ensures r.Success? && r.value ==>
                && Valid() && exchange == old(exchange) && exchange != lastSuccess
                && (lastSuccess == old(lastSuccess) || fresh(lastSuccess))
                && Replay.RunBatch(input, k, batch, old(Progress())) == Success(Continue(Progress()))
      ensures r.Success? && !r.value ==>
                && exchange == old(lastSuccess) && exchange.Valid() && exchange.config == input.config
                && StoppedAt(Replay.RunBatch(input, k, batch, old(Progress())))
    {
      hide Replay.SettleAll, Replay.Consult, Replay.Advance, ReportedTimes, Ready, SettledExactly, Consistent;
      hide EquityWindow.Increasing, EquityWindow.IsWindowOf;
      ReadyInSeries(input, batch.items);
      var settled := Advance(batch.when);
      if settled.Failure? {
        return Failure(settled.error);
      }
      var collected, ready := Collect(batch.items, batch.when);
      if collected.Failure? {
        return Failure(collected.error);
      }
      if ready == [] {
        return Success(true);
      }
      r := Consult(k, ready, batch.when);
    }

    /** The spec's run has died with this exchange, cursors, curve and last instant, and with the log
        its cursors tell. */
    ghost predicate StoppedAt(run: Result<Step>)
      reads this, exchange
    {
      && run.Success? && run.value.Died?
      && run.value.progress.clocked == Clock() && SettledExactly(input, settledNext, settledBars)
      && run.value.progress.curve == curve && run.value.progress.savedAt == lastSuccessfulAt
    }

    /** The loop over the schedule. Returns whether the provider lasted to the end. */
    method RunBatches(batches: seq<Batch>) returns (r: Result<bool>)
      requires Valid() && exchange != lastSuccess && WellFormed(input, batches)
      modifies this, exchange, lastSuccess
      ensures var run := RunFrom(input, batches, 0, old(Progress()));
              match r
              case Failure(e) => run == Failure(e)
              case Success(true) => run == Success(Continue(Progress())) && Valid() && exchange != lastSuccess
              case Success(false) => StoppedAt(run) && exchange.Valid() && exchange.config == input.config
      ensures r.Success? ==> exchange in {old(exchange), old(lastSuccess)} || fresh(exchange)
    {
      hide Replay.RunBatch, SettledExactly, Consistent, EquityWindow.Increasing, EquityWindow.IsWindowOf;
      var k := 0;
      while k < |batches|
        invariant 0 <= k <= |batches|
        invariant Valid() && exchange != lastSuccess && exchange == old(exchange)
        invariant lastSuccess == old(lastSuccess) || fresh(lastSuccess)
        invariant RunFrom(input, batches, k, Progress()) == RunFrom(input, batches, 0, old(Progress()))
      {
        r := RunBatch(k, batches[k]);
        if r.Failure? || !r.value {
          return;
        }
        k := k + 1;
      }
      return Success(true);
    }

    /** Settles to the end of the window, unless the provider died. */
    method SettleToEnd(alive: bool, ghost step: Step) returns (r: Result<()>)
      requires exchange.Valid() && exchange.config == input.config && Consistent(input)
      requires if alive then Valid() && exchange != lastSuccess && step == Continue(Progress())
               else StoppedAt(Success(step))
      modifies this`settledNext, this`settledBars, exchange
      ensures exchange.Valid()
      ensures r.Success? ==> Settled(input, step) == Success(exchange.State())
      ensures r.Success? ==> SettledState(input, step) == Success(Clock()) && SettledExactly(input, settledNext, settledBars)
      ensures r.Failure? ==> Settled(input, step) == Failure(r.error)
    {
      hide Replay.SettleAll, SettledExactly, EquityWindow.Increasing, EquityWindow.IsWindowOf;
      r := Success(());
      if alive {
        r := SettleAll(input.symbols, input.end);
      }
    }

    /** Flattens what is left at the effective end and closes the curve. */
    method Finish(alive: bool, ghost step: Step) returns (r: Result<nat>, order: seq<Symbol>)
      requires exchange.Valid() && exchange.config == input.config && Consistent(input)
      requires if alive then Valid() && exchange != lastSuccess && step == Continue(Progress())
               else StoppedAt(Success(step))
      modifies this, exchange
      ensures Delivered(input, step, order, r, exchange.State(), curve)
      ensures Settled(input, step).Success? ==>
                && SettledState(input, step).Success?
                && SettledExactly(input, SettledState(input, step).value.cursor, settledBars)
    {
      hide SettledState, Settled, SettledExactly, Consistent, EquityWindow.Increasing, EquityWindow.IsWindowOf, Bookkeeping.CloseAll;
      order := [];
      var settled := SettleToEnd(alive, step);
      if settled.Failure? {
        return Failure(settled.error), order;
      }
      var effectiveEnd := if alive then input.end else SavedAt(input, lastSuccessfulAt);
      order := ListSymbols();
      var marks := Marks(effectiveEnd);
      r := exchange.CloseAll(order, marks, effectiveEnd);
      if r.Success? {
        var equity := exchange.EquityValue(map[]);
        curve := curve + [EquityPoint(effectiveEnd, equity)];
      }
    }

    /** Replays the schedule, flattens what is left and returns the number of cancelled orders.
        `order` is the iteration order of the positions at the end. */
    method Run(batches: seq<Batch>) returns (r: Result<nat>, order: seq<Symbol>)
      requires Valid() && exchange != lastSuccess && WellFormed(input, batches)
      requires Progress() == Initial(exchange.State())
      modifies this, exchange, lastSuccess
      ensures var run := RunFrom(input, batches, 0, Initial(old(exchange.State())));
              if run.Failure? then r == Failure(run.error)
              else Delivered(input, run.value, order, r, exchange.State(), curve)
      // exactly once: whatever ends the run after its last settlement
      ensures var run := RunFrom(input, batches, 0, Initial(old(exchange.State())));
              run.Success? && Settled(input, run.value).Success? ==>
                SettledOnce(input, batches, old(exchange.State()), settledBars)
    {
      hide RunFrom, EquityWindow.Increasing, EquityWindow.IsWindowOf, SettledExactly, SettledOnce, SettledState;
      hide Settled, Flattened;
      ghost var run := RunFrom(input, batches, 0, Progress());
      var alive := RunBatches(batches);
      if alive.Failure? {
        return Failure(alive.error), [];
      }
      r, order := Finish(alive.value, run.value);
      if Settled(input, run.value).Success? {
        EachBarSettledOnce(input, batches, old(exchange.State()), settledBars);
      }
    }

    /** The open symbols, each once, in the order a loop over the dictionary meets them. */
    method ListSymbols() returns (order: seq<Symbol>)
      ensures ListsPositions(exchange.State(), order)
    {
      order := [];
      var rest := exchange.positions.Keys;
      while rest != {}
        invariant rest <= exchange.positions.Keys
        invariant forall s :: s in order <==> s in exchange.positions && s !in rest
        invariant forall i, j :: 0 <= i < j < |order| ==> order[i] != order[j]
        decreases rest
      {
        var s :| s in rest;
        order := order + [s];
        rest := rest - {s};
      }
    }
  }

  lemma ReadyIsShorter(items: seq<Item>)
    ensures |Ready(items)| <= |items|
  {
    if items != [] {
      ReadyIsShorter(items[1..]);
    }
  }

  lemma ReadyFrom(items: seq<Item>, i: nat)
    requires i <= |items|
    ensures i == |items| ==> Ready(items[i..]) == []
    ensures i < |items| ==>
      && Ready(items[i..]) == (if items[i].hasSnapshot then [items[i].symbol] else []) + Ready(items[i + 1..])
      && |Ready(items[i + 1..])| <= |items| - i - 1
  {
    if i < |items| {
      assert items[i..][1..] == items[i + 1..];
      ReadyIsShorter(items[i + 1..]);
    }
  }

  /** What a finished run delivers: the flattened ledger of the replay and its curve, or the error
      at which the close-out stops. */
  ghost predicate Delivered(input: Input, step: Step, order: seq<Symbol>, r: Result<nat>, final: Ledger,
                            curve: seq<EquityPoint>)
    requires Consistent(input)
  {
    var settled := Settled(input, step);
    if settled.Failure? then r == Failure(settled.error) else
    && ListsPositions(settled.value, order)
    && var flat := Flattened(input, step, settled.value, order);
    if flat.Failure? then r == Failure(flat.error) else
    && flat == Success(final)
    && r == Success(|settled.value.pending| + |settled.value.scheduled|)
    && curve == step.progress.curve
                + [EquityPoint(EffectiveEnd(input, step), Max(EQUITY_FLOOR, Equity(final, map[])))]
  }
}
