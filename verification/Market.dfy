/** Values shared by the backtest exchange and the replay clock. Prices and money are exact
    reals; instants are integer milliseconds since the epoch (UTC). */
module Market {
  type Symbol = string
  type Time = int

  const MINUTE: Time := 60_000
  const FIVE_MINUTES: Time := 300_000
  const DAY: Time := 86_400_000
  /** STOP_LOSS_REENTRY_COOLDOWN of the risk policy. */
  const REENTRY_COOLDOWN: Time := 90 * MINUTE

  type Quantity = q: real | q > 0.0 witness 1.0
  type Leverage = n: int | n >= 1 witness 1

  datatype Option<+T> = None | Some(value: T)

  /** The exceptions the exchange can raise while it books an order. */
  datatype Error =
    | ExitBeforeEntry       // "trade exit cannot precede its entry"
    | TimeMovedBackwards    // "portfolio time cannot move backwards"
    | MissingStop           // an opening order without a protective stop
    | EquityMismatch        // "initial portfolio equity must match backtest initial equity"

  datatype Result<+T> = Success(value: T) | Failure(error: Error) {
    predicate IsFailure() { Failure? }

    function PropagateFailure<U>(): Result<U>
      requires Failure?
    {
      Failure(error)
    }

    function Extract(): T
      requires Success?
    {
      value
    }
  }

  datatype Side = Long | Short
  datatype OrderSide = Buy | Sell

  /** +1 for a long position, -1 for a short one. */
  function Direction(side: Side): real {
    if side.Long? then 1.0 else -1.0
  }

  function ExitSide(side: Side): OrderSide {
    if side.Long? then Sell else Buy
  }

  function Sign(side: OrderSide): real {
    if side.Buy? then 1.0 else -1.0
  }

  function Min(x: real, y: real): real { if x <= y then x else y }
  function Max(x: real, y: real): real { if x >= y then x else y }

  /** One bar; `timestamp` is its open. */
  datatype Candle = Candle(
    timestamp: Time, open: real, high: real, low: real, close: real, fundingRate: real)

  datatype Config = Config(initialEquity: real, feeRate: real, slippage: real)

  /** A MARKET order has no limit price. */
  datatype OrderPlan = OrderPlan(
    symbol: Symbol, side: OrderSide, quantity: Quantity, limit: Option<real>,
    stopPrice: Option<real>, takeProfit: Option<real>, reduceOnly: bool)

  type LimitOrder = o: OrderPlan | o.limit.Some?
    witness OrderPlan("", Buy, 1.0, Some(1.0), None, None, false)

  datatype EquityPoint = EquityPoint(timestamp: Time, equity: real)
}
