/** The replay of one model over a window as a function of its inputs. The provider and the risk
    policy are arbitrary functions of the batch (and item) number and the portfolio they are shown. */
module Replay {
  import opened Market
  import opened Bookkeeping

  type Series = map<Symbol, seq<Candle>>

  /** Bars in order, none opening before the previous one has closed. */
  ghost predicate Spaced(cs: seq<Candle>) {
    forall i, j :: 0 <= i < j < |cs| ==> cs[i].timestamp + FIVE_MINUTES <= cs[j].timestamp
  }

  function ClosesAt(c: Candle): Time {
    c.timestamp + FIVE_MINUTES
  }

  /** bisect_left over the open times. */
  function OpenedBefore(cs: seq<Candle>, t: Time): (n: nat)
    ensures n <= |cs|
    ensures forall i :: 0 <= i < n ==> cs[i].timestamp < t
    ensures n < |cs| ==> t <= cs[n].timestamp
  {
    if cs == [] || t <= cs[0].timestamp then 0 else 1 + OpenedBefore(cs[1..], t)
  }

  /** bisect_right over the close times. */
  function ClosedBy(cs: seq<Candle>, t: Time): (n: nat)
    ensures n <= |cs|
    ensures forall i :: 0 <= i < n ==> ClosesAt(cs[i]) <= t
    ensures n < |cs| ==> t < ClosesAt(cs[n])
  {
    if cs == [] || t < ClosesAt(cs[0]) then 0 else 1 + ClosedBy(cs[1..], t)
  }

  /** The first bar that opens at or after `after`. */
  function NextCandle(cs: seq<Candle>, after: Time): Option<Candle> {
    var n := OpenedBefore(cs, after);
    if n < |cs| then Some(cs[n]) else None
  }

  /** Each symbol's close in the last bar that had closed by `at`. */
  function Marks(series: Series, at: Time): map<Symbol, real> {
    map s | s in series && ClosedBy(series[s], at) > 0 :: series[s][ClosedBy(series[s], at) - 1].close
  }

  datatype Intent = Hold | Act(leverage: Leverage)

  /** A decision due at the batch's instant; without a snapshot the model is not asked. */
  datatype Item = Item(symbol: Symbol, hasSnapshot: bool)

  datatype Batch = Batch(when: Time, items: seq<Item>)

  function Ready(items: seq<Item>): seq<Symbol> {
    if items == [] then []
    else (if items[0].hasSnapshot then [items[0].symbol] else []) + Ready(items[1..])
  }

  datatype Input = Input(
    config: Config,
    start: Time,
    end: Time,
    symbols: seq<Symbol>,        // the symbols of the spec
    series: Series,              // the 5-minute bars
    seriesOrder: seq<Symbol>,    // the keys of `series`, sorted
    maxAttempts: nat,
    provider: (nat, nat, Portfolio) -> Option<seq<Intent>>,
    policy: (nat, nat, Portfolio) -> Option<OrderPlan>)

  ghost predicate Consistent(input: Input) {
    && (forall s :: s in input.series ==> Spaced(input.series[s]))
    && (forall s :: s in input.seriesOrder <==> s in input.series)
    && (forall i, j :: 0 <= i < j < |input.seriesOrder| ==> input.seriesOrder[i] != input.seriesOrder[j])
    && (forall s :: s in input.symbols ==> s in input.series)
  }

  /** Every symbol of the batch has bars. */
  ghost predicate Known(input: Input, batch: Batch) {
    forall i :: 0 <= i < |batch.items| ==> batch.items[i].symbol in input.series
  }

  ghost predicate WellFormed(input: Input, batches: seq<Batch>) {
    Consistent(input) && forall k :: 0 <= k < |batches| ==> Known(input, batches[k])
  }

  // ----- settlement

  /** The index of the first bar of `s` that is not settled yet. */
  function Cursor(input: Input, cursor: map<Symbol, nat>, s: Symbol): nat
    requires s in input.series
  {
    if s in cursor then cursor[s] else OpenedBefore(input.series[s], input.start)
  }

  function Later(m: nat, n: nat): nat { if m < n then n else m }

  /** Settles the bars of one symbol in order, each after activating what is due at its open. */
  function SettleBars(cfg: Config, l: Ledger, s: Symbol, bars: seq<Candle>): Result<Ledger>
    decreases |bars|
  {
    if bars == [] then Success(l) else
    var active :- ActivateScheduled(cfg, l, s, bars[0].timestamp);
    var settled :- SettleCandle(cfg, active, s, bars[0]);
    SettleBars(cfg, settled, s, bars[1..])
  }

  lemma SettleBarsStep(cfg: Config, l: Ledger, s: Symbol, bars: seq<Candle>, i: nat)
    requires i < |bars|
    ensures SettleBars(cfg, l, s, bars[i..]) ==
            match ActivateScheduled(cfg, l, s, bars[i].timestamp)
            case Failure(e) => Failure(e)
            case Success(active) =>
              match SettleCandle(cfg, active, s, bars[i])
              case Failure(e) => Failure(e)
              case Success(settled) => SettleBars(cfg, settled, s, bars[i + 1..])
  {
    hide ActivateScheduled, SettleCandle;
    assert bars[i..][0] == bars[i] && bars[i..][1..] == bars[i + 1..];
  }

  lemma SettleBarsDone(cfg: Config, l: Ledger, s: Symbol, bars: seq<Candle>)
    ensures SettleBars(cfg, l, s, bars[|bars|..]) == Success(l)
    ensures bars[0..] == bars
  {
  }

  /** Python's `candles[from:until]`: empty when the bounds cross. */
  function Slice(cs: seq<Candle>, from: nat, until: nat): seq<Candle> {
    if from <= until <= |cs| then cs[from..until] else []
  }

  datatype Clocked = Clocked(ledger: Ledger, cursor: map<Symbol, nat>)

  function SettleUntil(input: Input, st: Clocked, s: Symbol, through: Time): Result<Clocked>
    requires s in input.series
  {
    var cs := input.series[s];
    var from := Cursor(input, st.cursor, s);
    var until := ClosedBy(cs, through);
    var settled :- SettleBars(input.config, st.ledger, s, Slice(cs, from, until));
    var active :- ActivateScheduled(input.config, settled, s, through);
    Success(Clocked(active, st.cursor[s := Later(from, until)]))
  }

  function SettleAll(input: Input, st: Clocked, symbols: seq<Symbol>, through: Time): Result<Clocked>
    requires forall s :: s in symbols ==> s in input.series
    decreases |symbols|
  {
    if symbols == [] then Success(st) else
    var next :- SettleUntil(input, st, symbols[0], through);
    SettleAll(input, next, symbols[1..], through)
  }

  // ----- one batch

  datatype Account = Account(ledger: Ledger, curve: seq<EquityPoint>)

  ghost function Mark(input: Input, b: Account, at: Time): Account {
    b.(curve := b.curve + [EquityPoint(at, Max(EQUITY_FLOOR, Equity(b.ledger, Marks(input.series, at))))])
  }

  /** The progress report: samples the portfolio and extends the live curve when it moved. */
  ghost function Reported(input: Input, b: Account, at: Time): Result<Account> {
    var (sampled, portfolio) :- ObserveAt(b.ledger, Marks(input.series, at), at);
    var point := EquityPoint(at, portfolio.equity);
    Success(Account(sampled,
                 if b.curve != [] && b.curve[|b.curve| - 1] == point then b.curve else b.curve + [point]))
  }

  ghost function ReportedTimes(input: Input, b: Account, at: Time, n: nat): Result<Account>
    decreases n
  {
    if n == 0 then Success(b) else
    var once :- Reported(input, b, at);
    ReportedTimes(input, once, at, n - 1)
  }

  /** The first valid answer within the allowed attempts. */
  function Ask(input: Input, k: nat, portfolio: Portfolio, expected: nat, attempt: nat): (r: Option<seq<Intent>>)
    ensures r.Some? ==> |r.value| == expected
    decreases input.maxAttempts - attempt
  {
    if attempt >= input.maxAttempts then None else
    var answer := input.provider(k, attempt, portfolio);
    if answer.Some? && |answer.value| == expected then answer
    else Ask(input, k, portfolio, expected, attempt + 1)
  }

  predicate HasPending(l: Ledger, s: Symbol) {
    s in l.pending || s in l.scheduled
  }

  /** Hands an accepted order to the exchange, to fill at the next bar if the window has one. */
  ghost function Submit(input: Input, b: Account, s: Symbol, order: OrderPlan, leverage: Leverage, when: Time): Result<Account>
    requires s in input.series
  {
    var candle := NextCandle(input.series[s], when);
    if candle.None? || candle.value.timestamp >= input.end then Success(b) else
    var executed :- Execute(input.config, b.ledger, order, candle.value, leverage, Some(when));
    Success(Mark(input, b.(ledger := executed), when))
  }

  /** One answered decision, up to but excluding its progress report. */
  ghost function Decide(input: Input, k: nat, i: nat, b: Account, s: Symbol, intent: Intent, when: Time): Result<Account>
    requires s in input.series
  {
    if intent.Hold? || HasPending(b.ledger, s) then Success(Mark(input, b, when)) else
    var (l, portfolio) :- ObserveAt(b.ledger, Marks(input.series, when), when);
    var seen := b.(ledger := l);
    var order := input.policy(k, i, portfolio);
    if order.None? then Success(Mark(input, seen, when)) else
    Submit(input, seen, s, order.value.(symbol := s), intent.leverage, when)
  }

  ghost function DecideEach(input: Input, k: nat, i: nat, b: Account, ready: seq<Symbol>,
                            intents: seq<Intent>, when: Time): Result<Account>
    requires |ready| == |intents|
    requires forall s :: s in ready ==> s in input.series
    decreases |ready|
  {
    if ready == [] then Success(b) else
    var decided :- Decide(input, k, i, b, ready[0], intents[0], when);
    var reported :- Reported(input, decided, when);
    DecideEach(input, k, i + 1, reported, ready[1..], intents[1..], when)
  }

  /** What the loop over batches carries. `saved` is the copy taken after the last success. */
  datatype Progress = Progress(
    clocked: Clocked,
    settledThrough: Option<Time>,
    curve: seq<EquityPoint>,
    saved: Ledger,
    savedAt: Option<Time>)

  datatype Step =
    | Continue(progress: Progress)
    | Died(progress: Progress)     // the provider failed for good

  lemma ReadyInSeries(input: Input, items: seq<Item>)
    requires forall i :: 0 <= i < |items| ==> items[i].symbol in input.series
    ensures forall s :: s in Ready(items) ==> s in input.series
    ensures |Ready(items)| <= |items|
  {
    if items != [] {
      ReadyInSeries(input, items[1..]);
    }
  }

  /** Settlement of every symbol, once per instant. */
  ghost function Advance(input: Input, p: Progress, when: Time): Result<Progress>
    requires Consistent(input)
  {
    if p.settledThrough == Some(when) then Success(p) else
    var clocked :- SettleAll(input, p.clocked, input.seriesOrder, when);
    Success(p.(clocked := clocked, settledThrough := Some(when)))
  }

  /** The instant a rolled-back run is valued at. */
  function SavedAt(input: Input, at: Option<Time>): Time {
    if at.Some? then at.value else input.start
  }

  /** The asked part of a batch: the provider sees one portfolio, the policy each later one. */
  ghost function Consult(input: Input, k: nat, p: Progress, ready: seq<Symbol>, when: Time): Result<Step>
    requires forall s :: s in ready ==> s in input.series
  {
    var (l, portfolio) :- ObserveAt(p.clocked.ledger, Marks(input.series, when), when);
    match Ask(input, k, portfolio, |ready|, 0)
    case None =>
      var b :- ReportedTimes(input, Account(p.saved, p.curve), SavedAt(input, p.savedAt), |ready|);
      Success(Died(p.(clocked := p.clocked.(ledger := b.ledger), curve := b.curve)))
    case Some(intents) =>
      var b :- DecideEach(input, k, 0, Account(l, p.curve), ready, intents, when);
      Success(Continue(p.(clocked := p.clocked.(ledger := b.ledger), curve := b.curve,
                          saved := b.ledger, savedAt := Some(when))))
  }

  ghost function RunBatch(input: Input, k: nat, batch: Batch, p: Progress): Result<Step>
    requires Consistent(input) && Known(input, batch)
  {
    ReadyInSeries(input, batch.items);
    var ready := Ready(batch.items);
    var settled :- Advance(input, p, batch.when);
    var b :- ReportedTimes(input, Account(settled.clocked.ledger, settled.curve), batch.when,
                           |batch.items| - |ready|);
    var seen := settled.(clocked := settled.clocked.(ledger := b.ledger), curve := b.curve);
    if ready == [] then Success(Continue(seen)) else Consult(input, k, seen, ready, batch.when)
  }

  // ----- the whole run

  function Initial(l: Ledger): Progress {
    Progress(Clocked(l, map[]), None, [], l, None)
  }

  /** Runs the batches from number `k` on. */
  ghost function RunFrom(input: Input, batches: seq<Batch>, k: nat, p: Progress): Result<Step>
    requires WellFormed(input, batches) && k <= |batches|
    decreases |batches| - k
  {
    if k == |batches| then Success(Continue(p)) else
    var step :- RunBatch(input, k, batches[k], p);
    if step.Died? then Success(step) else RunFrom(input, batches, k + 1, step.progress)
  }

  /** The outcome of the first `k` batches. */
  ghost function RunPrefix(input: Input, batches: seq<Batch>, l: Ledger, k: nat): Result<Step>
    requires WellFormed(input, batches) && k <= |batches|
  {
    if k == 0 then Success(Continue(Initial(l))) else
    var step :- RunPrefix(input, batches, l, k - 1);
    if step.Died? then Success(step) else RunBatch(input, k - 1, batches[k - 1], step.progress)
  }

  /** Carries on from the outcome of the first `k` batches. */
  ghost function Resume(input: Input, batches: seq<Batch>, k: nat, prefix: Result<Step>): Result<Step>
    requires WellFormed(input, batches) && k <= |batches|
  {
    if prefix.Failure? || prefix.value.Died? then prefix else RunFrom(input, batches, k, prefix.value.progress)
  }

  /** Running on from a prefix is running the whole schedule. */
  lemma {:induction false} PrefixThenRest(input: Input, batches: seq<Batch>, l: Ledger, k: nat)
    requires WellFormed(input, batches) && k <= |batches|
    ensures RunPrefix(input, batches, l, |batches|) == Resume(input, batches, k, RunPrefix(input, batches, l, k))
    decreases |batches| - k
  {
    hide RunBatch;
    if k < |batches| {
      PrefixThenRest(input, batches, l, k + 1);
    }
  }

  lemma RunIsWholePrefix(input: Input, batches: seq<Batch>, l: Ledger)
    requires WellFormed(input, batches)
    ensures RunFrom(input, batches, 0, Initial(l)) == RunPrefix(input, batches, l, |batches|)
  {
    PrefixThenRest(input, batches, l, 0);
  }

  /** The first `k` batches of a schedule behave as a schedule of those batches alone. */
  lemma {:induction false} PrefixOfTruncated(input: Input, batches: seq<Batch>, l: Ledger, k: nat, n: nat)
    requires WellFormed(input, batches) && k <= n <= |batches|
    ensures RunPrefix(input, batches[..n], l, k) == RunPrefix(input, batches, l, k)
    decreases k
  {
    hide RunBatch;
    if k > 0 {
      PrefixOfTruncated(input, batches, l, k - 1, n);
    }
  }

  ghost function EffectiveEnd(input: Input, step: Step): Time {
    if step.Continue? then input.end
    else SavedAt(input, step.progress.savedAt)
  }

  /** The ledger that is about to be flattened: a run that died settles nothing more. */
  ghost function Settled(input: Input, step: Step): Result<Ledger>
    requires Consistent(input)
  {
    if step.Died? then Success(step.progress.clocked.ledger) else
    var clocked :- SettleAll(input, step.progress.clocked, input.symbols, input.end);
    Success(clocked.ledger)
  }

  /** Flattening at the effective end, in the dictionary order `order`. */
  ghost function Flattened(input: Input, step: Step, l: Ledger, order: seq<Symbol>): Result<Ledger>
    requires ListsPositions(l, order)
  {
    var at := EffectiveEnd(input, step);
    CloseAll(input.config, l, order, Marks(input.series, at), at)
  }
}
