/**
 * The brokerage SDK as the core sees it: the request values it builds, the
 * records the SDK hands back, and the outcome of one SDK call (a returned
 * value or a raised exception, with the exception's text).
 */
module Broker {
  import opened Wrappers
  import opened Values

  datatype Side = Buy | Sell

  datatype TimeInForce = Day | Gtc

  datatype OrderClass = Bracket | Oco | Oto

  datatype QueryOrderStatus = Open | Closed | All

  /** The exit leg that takes profit at a limit price. */
  datatype TakeProfitRequest = TakeProfitRequest(limitPrice: Value)

  /** The exit leg that stops a loss; a limit price makes it a stop-limit leg. */
  datatype StopLossRequest = StopLossRequest(stopPrice: Value, limitPrice: Option<Value>)

  /**
   * The SDK's order-request classes. Quantities and prices carry the
   * argument value exactly as the handler received it; `None` in an optional
   * field means the keyword was not passed.
   */
  datatype OrderRequest =
    | MarketOrderRequest(symbol: string, qty: Value, side: Side, timeInForce: Option<TimeInForce>,
                         orderClass: Option<OrderClass>, takeProfit: Option<TakeProfitRequest>,
                         stopLoss: Option<StopLossRequest>)
    | LimitOrderRequest(symbol: string, qty: Value, side: Side, limitPrice: Value,
                        timeInForce: Option<TimeInForce>, orderClass: Option<OrderClass>,
                        takeProfit: Option<TakeProfitRequest>, stopLoss: Option<StopLossRequest>)
    | TrailingStopOrderRequest(symbol: string, qty: Value, side: Side, timeInForce: Option<TimeInForce>,
                               trailPrice: Option<Value>, trailPercent: Option<Value>)

  datatype ClosePositionRequest = ClosePositionRequest(percentage: Value)

  /**
   * An order as the brokerage reports it; numeric fields are the decimal
   * text it sends, order type and order class the value of their enum.
   */
  datatype Order = Order(id: string, symbol: string, side: string, qty: string, status: string,
                         orderType: string, orderClass: string,
                         filledQty: Option<string>, limitPrice: Option<string>, stopPrice: Option<string>,
                         filledAvgPrice: Option<string>, trailPrice: Option<string>,
                         trailPercent: Option<string>)

  /** An open position; the unrealized P/L fraction is absent when the brokerage sends none. */
  datatype Position = Position(symbol: string, side: string, qty: string, unrealizedPlpc: Option<real>)

  /** One entry of a bulk cancel or close response: an id and an HTTP status code. */
  datatype StatusResponse = StatusResponse(id: string, status: int)

  /**
   * The class of an exception the SDK raises, as the stand-alone server's
   * `except` clauses tell them apart: the SDK's own APIError, a ValueError
   * (a response that fails validation or is not JSON), or anything else.
   */
  datatype ErrorKind = ApiErrorKind | ValueErrorKind | OtherKind

  /** An exception raised by the SDK: its text and its class. */
  datatype SdkError = SdkError(text: string, kind: ErrorKind)

  /** The outcome of one SDK call, supplied to the model from outside. */
  datatype SdkResult<T> = Returned(value: T) | Raised(error: SdkError)

  /**
   * The status-filter rule shared by `handle_get_orders`, `AlpacaClient.list_orders`
   * and the stand-alone server's `get_orders`: applied to the lower-cased
   * filter, "open" and "closed" select themselves and anything else selects all.
   */
  function QueryStatusFor(status: string): (q: QueryOrderStatus)
    ensures q == Open <==> status == "open"
    ensures q == Closed <==> status == "closed"
    ensures q == All <==> status != "open" && status != "closed"
  {
    if status == "open" then Open
    else if status == "closed" then Closed
    else All
  }
}
