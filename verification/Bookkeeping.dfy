/** The book-keeping of the simulated exchange as functions on its whole state. The class
    Exchange.SimulatedExchange changes its fields step by step and is proved to compute these. */
module Bookkeeping {
  import opened Market
  import opened Sums
  import opened EquityWindow

  datatype Position = Position(
    side: Side, quantity: Quantity, entryPrice: real, entryTime: Time, leverage: Leverage,
    stopLoss: real, takeProfit: Option<real>, fees: real, funding: real, carriedPnl: real)

  datatype PendingOrder = PendingOrder(order: LimitOrder, submittedAt: Time, leverage: Leverage)

  datatype ScheduledOrder = ScheduledOrder(
    order: OrderPlan, submittedAt: Time, fillCandle: Candle, leverage: Leverage)

  datatype ExitReason = ModelExit | StopLoss | TakeProfit | RunEnd

  datatype Trade = Trade(
    symbol: Symbol, side: Side, quantity: real, entryTime: Time, entryPrice: real,
    exitTime: Time, exitPrice: real, netPnl: real, fees: real, funding: real, reason: ExitReason)

  /** What an independent clerk writes down: executed quantities with their prices, fees and
      funding. No operation reads it; the laws compare it with the average-cost accounts. */
  datatype Entry =
    | Traded(symbol: Symbol, side: OrderSide, quantity: real, price: real)
    | Charged(amount: real)

  /** `stray` totals the fees that were charged but will be booked to no trade. Like the blotter it is
      there for the laws, and no operation reads it. */
  datatype Ledger = Ledger(
    cash: real,
    positions: map<Symbol, Position>,
    pending: map<Symbol, PendingOrder>,
    scheduled: map<Symbol, ScheduledOrder>,
    cooldownUntil: map<Symbol, Time>,
    trades: seq<Trade>,
    window: seq<EquityPoint>,
    blotter: seq<Entry>,
    stray: real)

  datatype ReportStatus = New | Filled

  datatype Report = Report(
    status: ReportStatus, filledQuantity: real, averagePrice: Option<real>, timestamp: Time)

  // ----- prices

  function Slipped(cfg: Config, price: real, side: OrderSide): real {
    var drift := price * cfg.slippage;
    if side.Buy? then price + drift else price - drift
  }

  /** The price an order gets against `base`: slipped, but never through its own limit. */
  function FillPrice(cfg: Config, order: OrderPlan, base: real): real {
    var fill := Slipped(cfg, base, order.side);
    match order.limit
    case None => fill
    case Some(limit) => if order.side.Buy? then Min(fill, limit) else Max(fill, limit)
  }

  function FeeOf(cfg: Config, price: real, quantity: real): real {
    price * quantity * cfg.feeRate
  }

  /** What `quantity` gains between two prices on the given side. */
  function Gain(quantity: real, from: real, to: real, side: Side): real {
    quantity * (to - from) * Direction(side)
  }

  /** Would a limit at `limit` trade immediately against `open`? */
  predicate Marketable(side: OrderSide, limit: real, open: real) {
    if side.Buy? then limit >= open else limit <= open
  }

  /** Does the bar reach the resting limit? */
  predicate Reaches(side: OrderSide, limit: real, c: Candle) {
    if side.Buy? then c.low <= limit else c.high >= limit
  }

  /** Which protective trigger the bar touches; the stop wins over the target. */
  function Touched(p: Position, c: Candle, allowTarget: bool): Option<(real, ExitReason)> {
    var stopped := if p.side.Long? then c.low <= p.stopLoss else c.high >= p.stopLoss;
    var took := p.takeProfit.Some? &&
                if p.side.Long? then c.high >= p.takeProfit.value else c.low <= p.takeProfit.value;
    if stopped then Some((p.stopLoss, StopLoss))
    else if took && allowTarget then Some((p.takeProfit.value, TakeProfit))
    else None
  }

  // ----- booking

  /** The part of a running total that belongs to `quantity` out of `whole`. */
  function Share(total: real, quantity: real, whole: Quantity): real {
    total * (quantity / whole)
  }

  /** Takes `amount` out of cash and lets the clerk note it, with what was traded if anything. */
  function Pay(l: Ledger, amount: real, traded: seq<Entry>): Ledger {
    l.(cash := l.cash - amount, blotter := l.blotter + [Charged(amount)] + traded)
  }

  /** Realises `quantity` of the position at `exit`; the exit fee has already left cash. */
  function Book(l: Ledger, s: Symbol, quantity: real, exit: real, when: Time, fee: real,
                reason: ExitReason): Result<Ledger>
    requires s in l.positions && 0.0 < quantity <= l.positions[s].quantity
  {
    var p := l.positions[s];
    if when < p.entryTime then Failure(ExitBeforeEntry) else
    var lifetimeGross := Gain(quantity, p.entryPrice, exit, p.side);
    var carried := Share(p.carriedPnl, quantity, p.quantity);
    var entryFees := Share(p.fees, quantity, p.quantity);
    var funding := Share(p.funding, quantity, p.quantity);
    var net := lifetimeGross - carried - entryFees - fee - funding;
    var trade := Trade(s, p.side, quantity, p.entryTime, p.entryPrice, when, exit, net,
                       entryFees + fee, funding, reason);
    var left := p.quantity - quantity;
    Success(l.(
      cash := l.cash + lifetimeGross,
      trades := l.trades + [trade],
      cooldownUntil := if reason in {StopLoss, TakeProfit} && net < 0.0
                       then l.cooldownUntil[s := when + REENTRY_COOLDOWN] else l.cooldownUntil,
      positions := if left <= 0.0 then l.positions - {s}
                   else l.positions[s := p.(quantity := left, fees := p.fees - entryFees,
                                            funding := p.funding - funding,
                                            carriedPnl := p.carriedPnl - carried)]))
  }

  /** Closes the whole position against `price`, as a touched trigger and the run end do. */
  function CloseAt(cfg: Config, l: Ledger, s: Symbol, price: real, when: Time,
                   reason: ExitReason): (r: Result<Ledger>)
    requires s in l.positions
    ensures r.Success? ==> r.value.positions == l.positions - {s}
  {
    var p := l.positions[s];
    var fill := Slipped(cfg, price, ExitSide(p.side));
    var fee := FeeOf(cfg, fill, p.quantity);
    Book(Pay(l, fee, [Traded(s, ExitSide(p.side), p.quantity, fill)]),
         s, p.quantity, fill, when, fee, reason)
  }

  function AveragePrice(price0: real, quantity0: Quantity, price1: real, quantity1: Quantity): real {
    (price0 * quantity0 + price1 * quantity1) / (quantity0 + quantity1)
  }

  function OpenOrAdd(before: Ledger, order: OrderPlan, fill: real, when: Time, leverage: Leverage,
                     fee: real): Result<Ledger>
  {
    var s := order.symbol;
    var l := Pay(before, fee, [Traded(s, order.side, order.quantity, fill)]);
    if s !in l.positions then
      if order.stopPrice.None? then Failure(MissingStop) else
      Success(l.(
        positions := l.positions[s := Position(
          if order.side.Buy? then Long else Short, order.quantity, fill, when, leverage,
          order.stopPrice.value, order.takeProfit, fee, 0.0, 0.0)]))
    else
      var p := l.positions[s];
      var total: Quantity := p.quantity + order.quantity;
      Success(l.(
        positions := l.positions[s := p.(
          entryPrice := AveragePrice(p.entryPrice, p.quantity, fill, order.quantity),
          quantity := total,
          leverage := leverage,
          fees := p.fees + fee,
          stopLoss := if order.stopPrice.Some? then order.stopPrice.value else p.stopLoss,
          takeProfit := if order.takeProfit.Some? then order.takeProfit else p.takeProfit)]))
  }

  /** A reduce-only fill closes no more than is held, and nothing when nothing is held. */
  function Reduce(l: Ledger, order: OrderPlan, fill: real, when: Time, fee: real): Result<Ledger> {
    if order.symbol !in l.positions then Success(Pay(l, fee, []).(stray := l.stray + fee)) else
    var quantity := Min(order.quantity, l.positions[order.symbol].quantity);
    Book(Pay(l, fee, [Traded(order.symbol, order.side, quantity, fill)]),
         order.symbol, quantity, fill, when, fee, ModelExit)
  }

  /** The fee is charged on the whole order, even where less is left to close. */
  function Fill(cfg: Config, l: Ledger, order: OrderPlan, base: real, when: Time,
                leverage: Leverage): Result<Ledger>
  {
    var fill := FillPrice(cfg, order, base);
    var fee := FeeOf(cfg, fill, order.quantity);
    if order.reduceOnly then Reduce(l, order, fill, when, fee)
    else OpenOrAdd(l, order, fill, when, leverage, fee)
  }

  // ----- orders

  /** Does the order rest as a pending limit instead of filling at the open of `c`? */
  predicate Rests(order: OrderPlan, c: Candle) {
    order.limit.Some? && !Marketable(order.side, order.limit.value, c.open)
  }

  function ExecuteAtCandle(cfg: Config, l: Ledger, order: OrderPlan, c: Candle,
                           leverage: Leverage): Result<Ledger>
  {
    if Rests(order, c) then
      Success(l.(pending := l.pending[order.symbol := PendingOrder(order, c.timestamp, leverage)]))
    else Fill(cfg, l, order, c.open, c.timestamp, leverage)
  }

  /** Is the fill candle still in the future of the submission? */
  predicate Deferred(c: Candle, submittedAt: Option<Time>) {
    submittedAt.Some? && c.timestamp > submittedAt.value
  }

  function Execute(cfg: Config, l: Ledger, order: OrderPlan, c: Candle, leverage: Leverage,
                   submittedAt: Option<Time>): Result<Ledger>
  {
    if Deferred(c, submittedAt) then
      Success(l.(scheduled := l.scheduled[order.symbol :=
        ScheduledOrder(order, submittedAt.value, c, leverage)]))
    else ExecuteAtCandle(cfg, l, order, c, leverage)
  }

  function ExecutionReport(cfg: Config, order: OrderPlan, c: Candle, submittedAt: Option<Time>): Report {
    if Deferred(c, submittedAt) then Report(New, 0.0, None, submittedAt.value)
    else if Rests(order, c) then Report(New, 0.0, None, c.timestamp)
    else Report(Filled, order.quantity, Some(FillPrice(cfg, order, c.open)), c.timestamp)
  }

  predicate Due(l: Ledger, s: Symbol, through: Time) {
    s in l.scheduled && l.scheduled[s].fillCandle.timestamp <= through
  }

  /** Materialises a scheduled order once simulated time reaches its fill candle. */
  function ActivateScheduled(cfg: Config, l: Ledger, s: Symbol, through: Time): Result<Ledger> {
    if !Due(l, s, through) then Success(l) else
    var o := l.scheduled[s];
    var taken := l.(scheduled := l.scheduled - {s});
    if o.order.reduceOnly && s !in l.positions then Success(taken)
    else ExecuteAtCandle(cfg, taken, o.order, o.fillCandle, o.leverage)
  }

  // ----- settlement of one closed bar

  function FundingOf(p: Position, c: Candle): real {
    p.quantity * c.close * c.fundingRate * Direction(p.side)
  }

  function ChargeFunding(l: Ledger, s: Symbol, c: Candle): Ledger {
    if s !in l.positions then l else
    var p := l.positions[s];
    var funding := FundingOf(p, c);
    Pay(l, funding, []).(positions := l.positions[s := p.(funding := p.funding + funding)])
  }

  function Protect(cfg: Config, l: Ledger, s: Symbol, c: Candle, allowTarget: bool): Result<Ledger> {
    if s !in l.positions then Success(l) else
    match Touched(l.positions[s], c, allowTarget)
    case None => Success(l)
    case Some((price, reason)) => CloseAt(cfg, l, s, price, c.timestamp, reason)
  }

  /** Fills the resting limit of `s` if the bar reaches it. A target inside the fill bar is
      granted only when the order was already marketable at the open. */
  function FillResting(cfg: Config, l: Ledger, s: Symbol, c: Candle): Result<Ledger> {
    if s !in l.pending || c.timestamp < l.pending[s].submittedAt then Success(l) else
    var resting := l.pending[s];
    var order := resting.order;
    if !Reaches(order.side, order.limit.value, c) then Success(l) else
    var taken := l.(pending := l.pending - {s});
    if order.reduceOnly && s !in l.positions then Success(taken) else
    var atOpen := Marketable(order.side, order.limit.value, c.open);
    var filled :- Fill(cfg, taken, order, if atOpen then c.open else order.limit.value,
                       c.timestamp, resting.leverage);
    if order.reduceOnly then Success(filled) else Protect(cfg, filled, s, c, atOpen)
  }

  function SettleCandle(cfg: Config, l: Ledger, s: Symbol, c: Candle): Result<Ledger> {
    var guarded :- Protect(cfg, ChargeFunding(l, s, c), s, c, true);
    FillResting(cfg, guarded, s, c)
  }

  // ----- flattening

  function MarkOf(marks: map<Symbol, real>, s: Symbol, p: Position): real {
    if s in marks then marks[s] else p.entryPrice
  }

  /** Closes the listed positions one after the other. */
  function CloseEach(cfg: Config, l: Ledger, order: seq<Symbol>, marks: map<Symbol, real>,
                     when: Time): (r: Result<Ledger>)
    requires forall s :: s in order ==> s in l.positions
    requires forall i, j :: 0 <= i < j < |order| ==> order[i] != order[j]
    ensures r.Success? ==> forall s :: s in r.value.positions <==> s in l.positions && s !in order
    decreases |order|
  {
    if order == [] then Success(l) else
    var s := order[0];
    var closed :- CloseAt(cfg, l, s, MarkOf(marks, s, l.positions[s]), when, RunEnd);
    CloseEach(cfg, closed, order[1..], marks, when)
  }

  lemma CloseEachStep(cfg: Config, l: Ledger, order: seq<Symbol>, i: nat, marks: map<Symbol, real>,
                      when: Time)
    requires i < |order|
    requires forall s :: s in order[i..] ==> s in l.positions
    requires forall j, k :: 0 <= j < k < |order| ==> order[j] != order[k]
    ensures var s := order[i];
            match CloseAt(cfg, l, s, MarkOf(marks, s, l.positions[s]), when, RunEnd)
            case Success(next) =>
              && (forall t :: t in order[i + 1..] ==> t in next.positions)
              && CloseEach(cfg, l, order[i..], marks, when) == CloseEach(cfg, next, order[i + 1..], marks, when)
            case Failure(e) => CloseEach(cfg, l, order[i..], marks, when) == Failure(e)
  {
    hide CloseAt;
    assert order[i..][0] == order[i] && order[i..][1..] == order[i + 1..];
  }

  /** `order` lists every open symbol once: the iteration order of the positions dictionary. */
  ghost predicate ListsPositions(l: Ledger, order: seq<Symbol>) {
    && (forall s :: s in order <==> s in l.positions)
    && (forall i, j :: 0 <= i < j < |order| ==> order[i] != order[j])
  }

  function CloseAll(cfg: Config, l: Ledger, order: seq<Symbol>, marks: map<Symbol, real>,
                    when: Time): Result<Ledger>
    requires forall s :: s in order ==> s in l.positions
    requires forall i, j :: 0 <= i < j < |order| ==> order[i] != order[j]
  {
    var flat :- CloseEach(cfg, l, order, marks, when);
    Success(flat.(pending := map[], scheduled := map[]))
  }

  // ----- valuation

  function PnlOf(p: Position, mark: real): real {
    Gain(p.quantity, p.entryPrice, mark, p.side)
  }

  function MarginOf(p: Position, mark: real): real {
    p.quantity * mark / (p.leverage as real)
  }

  /** The sum of `f` over all open positions. */
  ghost function Total(positions: map<Symbol, Position>, f: (Symbol, Position) -> real): real {
    Sum(map s | s in positions :: f(s, positions[s]))
  }

  function PnlAt(marks: map<Symbol, real>): (Symbol, Position) -> real {
    (s: Symbol, p: Position) => PnlOf(p, MarkOf(marks, s, p))
  }

  function MarginAt(marks: map<Symbol, real>): (Symbol, Position) -> real {
    (s: Symbol, p: Position) => MarginOf(p, MarkOf(marks, s, p))
  }

  ghost function Equity(l: Ledger, marks: map<Symbol, real>): real {
    l.cash + Total(l.positions, PnlAt(marks))
  }

  datatype PositionView = PositionView(
    side: Side, quantity: Quantity, entryPrice: real, unrealizedPnl: real, leverage: Leverage,
    initialMargin: real, stopLoss: Option<real>, takeProfit: Option<real>)

  function ViewOf(p: Position, mark: real): PositionView {
    PositionView(p.side, p.quantity, p.entryPrice, PnlOf(p, mark), p.leverage,
                 MarginOf(p, mark), Some(p.stopLoss), p.takeProfit)
  }

  function ViewsOf(positions: map<Symbol, Position>, marks: map<Symbol, real>): map<Symbol, PositionView> {
    map s | s in positions :: ViewOf(positions[s], MarkOf(marks, s, positions[s]))
  }

  /** The re-entry cooldowns still running at `asOf`. */
  function Cooling(until: map<Symbol, Time>, asOf: Option<Time>): map<Symbol, Time> {
    map s | s in until && (asOf.None? || until[s] > asOf.value) :: until[s]
  }

  datatype Portfolio = Portfolio(
    equity: real, availableBalance: real, pnl24h: real, openPositions: nat, marginUsed: real,
    positions: map<Symbol, PositionView>, cooldownUntil: map<Symbol, Time>)

  /** The smallest equity a portfolio reports. */
  const EQUITY_FLOOR: real := 0.00000001

  /** The portfolio shown to the model; `windowStart` is the equity 24 hours ago. */
  ghost function Observe(l: Ledger, marks: map<Symbol, real>, windowStart: real,
                         asOf: Option<Time>): Portfolio
  {
    var equity := Equity(l, marks);
    var margin := Total(l.positions, MarginAt(marks));
    Portfolio(
      Max(EQUITY_FLOOR, equity), Max(0.0, equity - margin), equity - windowStart,
      |l.positions|, margin, ViewsOf(l.positions, marks), Cooling(l.cooldownUntil, asOf))
  }

  /** The equity the 24-hour PnL of `l` is measured from when no instant is given. */
  function WindowStart(cfg: Config, l: Ledger): real {
    if l.window == [] then cfg.initialEquity else l.window[0].equity
  }

  /** A portfolio seen at an instant: the equity is sampled into the rolling window first. */
  ghost function ObserveAt(l: Ledger, marks: map<Symbol, real>, now: Time): Result<(Ledger, Portfolio)> {
    if l.window != [] && now < l.window[|l.window| - 1].timestamp then Failure(TimeMovedBackwards) else
    var sampled := l.(window := Prune(Record(l.window, EquityPoint(now, Equity(l, marks))), now - DAY));
    Success((sampled, Observe(sampled, marks, sampled.window[0].equity, Some(now))))
  }
}
