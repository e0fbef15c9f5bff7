/**
 * src/brokers/alpaca/client.py: the AlpacaClient wrapper around the SDK's
 * trading and market-data clients. Every SDK call it makes is appended to a
 * ghost trace; the call's outcome is a parameter of the method that makes it.
 */
module Client {
  import opened Wrappers
  import opened Text
  import opened Exceptions
  import opened Values
  import opened Broker
  import opened Settings
  import Utils

  /** The SDK calls the client issues. */
  datatype SdkCall =
    | GetAccountCall
    | GetAllPositionsCall
    | GetOrdersCall(status: QueryOrderStatus, limit: Value)
    | SubmitOrderCall(request: OrderRequest)
    | CancelOrdersCall
    | CloseAllPositionsCall(cancelOrders: Value)
    | ClosePositionCall(symbol: string, options: ClosePositionRequest)
    | LatestQuoteCall(symbol: string)
    | StockBarsCall(symbol: string, days: int)
    | GetOpenPositionCall(symbol: string)

  /** `APIError(f"Failed to {action}: {cause}", "alpaca", cause)` */
  function ApiWrap(action: string, cause: string): (e: Exception)
    ensures e.ApiError? && e.broker == "alpaca" && e.cause == cause
    ensures e.msg == "Failed to " + action + ": " + cause
  {
    ApiError("Failed to " + action + ": " + cause, "alpaca", cause)
  }

  /**
   * The try/except around one SDK call: the returned value passes through,
   * and any exception the SDK raises comes back as the project's APIError.
   */
  function Wrapped<T>(action: string, outcome: SdkResult<T>): (r: Result<T, Exception>)
    ensures r.Ok? <==> outcome.Returned?
    ensures r.Ok? ==> r.value == outcome.value
    ensures r.Err? ==> r.error == ApiWrap(action, outcome.error.text)
  {
    match outcome
    case Returned(v) => Ok(v)
    case Raised(e) => Err(ApiWrap(action, e.text))
  }

  /** An outer method that calls an inner one re-wraps the inner APIError. */
  function Rewrapped<T>(action: string, inner: Result<T, Exception>): (r: Result<T, Exception>)
    ensures r.Ok? <==> inner.Ok?
    ensures r.Ok? ==> r == inner
    ensures r.Err? ==> r.error == ApiWrap(action, Exceptions.Str(inner.error))
  {
    match inner
    case Ok(v) => Ok(v)
    case Err(e) => Err(ApiWrap(action, Exceptions.Str(e)))
  }

  /** `OrderSide.BUY if side.lower() == "buy" else OrderSide.SELL`: no side is refused. */
  function LenientSide(side: string): (s: Side)
    ensures s == Buy <==> Lower(side) == "buy"
    ensures s == Sell <==> Lower(side) != "buy"
  {
    if Lower(side) == "buy" then Buy else Sell
  }

  /** The keyword arguments `__init__` gives the SDK's trading client. */
  datatype TradingClientSettings = TradingClientSettings(apiKey: string, secretKey: string, paper: bool,
                                                         urlOverride: Option<string>)

  /** The keyword arguments `__init__` gives the SDK's market-data client. */
  datatype DataClientSettings = DataClientSettings(apiKey: string, secretKey: string)

  /**
   * Every bulk close that asks for open orders to be cancelled is issued
   * right after a cancel call.
   */
  ghost predicate CancelPrecedesClose(calls: seq<SdkCall>) {
    forall i | 0 <= i < |calls| && calls[i].CloseAllPositionsCall? && Truthy(calls[i].cancelOrders) ::
      0 < i && calls[i - 1] == CancelOrdersCall
  }

  /** The calls `close_all_positions` issues, given whether the cancel call returned. */
  function CloseAllCalls(cancelOrders: Value, cancelReturned: bool): seq<SdkCall> {
    if !Truthy(cancelOrders) then [CloseAllPositionsCall(cancelOrders)]
    else if cancelReturned then [CancelOrdersCall, CloseAllPositionsCall(cancelOrders)]
    else [CancelOrdersCall]
  }

  /**
   * `close_all_positions` cancels strictly before it closes, closes only if
   * the cancel returned, forwards the flag unchanged, and issues no cancel
   * when the flag is false; so it keeps CancelPrecedesClose.
   */
  lemma CloseAllKeepsOrder(calls: seq<SdkCall>, cancelOrders: Value, cancelReturned: bool)
    requires CancelPrecedesClose(calls)
    ensures CancelPrecedesClose(calls + CloseAllCalls(cancelOrders, cancelReturned))
    ensures Truthy(cancelOrders) <==> CancelOrdersCall in CloseAllCalls(cancelOrders, cancelReturned)
    ensures CloseAllPositionsCall(cancelOrders) in CloseAllCalls(cancelOrders, cancelReturned)
            <==> !Truthy(cancelOrders) || cancelReturned
  {
  }

  class AlpacaClient {
    const config: AlpacaConfig
    const tradingClient: TradingClientSettings
    const dataClient: DataClientSettings
    /** The SDK calls issued so far, oldest first. */
    ghost var calls: seq<SdkCall>

    ghost predicate Valid()
      reads this
    {
      CancelPrecedesClose(calls)
    }

    /** `__init__`, when the SDK clients are constructed without raising. */
    constructor (config: AlpacaConfig)
      ensures this.config == config
      ensures tradingClient == TradingClientSettings(config.apiKey, config.secretKey, config.paper, config.baseUrl)
      ensures dataClient == DataClientSettings(config.apiKey, config.secretKey)
      ensures calls == [] && Valid()
    {
      this.config := config;
      tradingClient := TradingClientSettings(config.apiKey, config.secretKey, config.paper, config.baseUrl);
      dataClient := DataClientSettings(config.apiKey, config.secretKey);
      calls := [];
    }

    /** Appends calls that hold no bulk close. */
    ghost method Record(added: seq<SdkCall>)
      requires Valid()
      requires forall c | c in added :: !c.CloseAllPositionsCall?
      modifies this
      ensures calls == old(calls) + added && Valid()
    {
      calls := calls + added;
      forall i | |old(calls)| <= i < |calls|
        ensures !calls[i].CloseAllPositionsCall?
      {
        assert calls[i] == added[i - |old(calls)|];
      }
    }

    method GetAccount<A>(outcome: SdkResult<A>) returns (r: Result<A, Exception>)
      requires Valid()
      modifies this
      ensures Valid() && calls == old(calls) + [GetAccountCall]
      ensures r == Wrapped("get account info", outcome)
    {
      Record([GetAccountCall]);
      r := Wrapped("get account info", outcome);
    }

    method GetAllPositions(outcome: SdkResult<seq<Position>>) returns (r: Result<seq<Position>, Exception>)
      requires Valid()
      modifies this
      ensures Valid() && calls == old(calls) + [GetAllPositionsCall]
      ensures r == Wrapped("get positions", outcome)
    {
      Record([GetAllPositionsCall]);
      r := Wrapped("get positions", outcome);
    }

    method GetOrders(status: QueryOrderStatus, limit: Value, outcome: SdkResult<seq<Order>>)
      returns (r: Result<seq<Order>, Exception>)
      requires Valid()
      modifies this
      ensures Valid() && calls == old(calls) + [GetOrdersCall(status, limit)]
      ensures r == Wrapped("get orders", outcome)
    {
      Record([GetOrdersCall(status, limit)]);
      r := Wrapped("get orders", outcome);
    }

    method SubmitOrder(request: OrderRequest, outcome: SdkResult<Order>) returns (r: Result<Order, Exception>)
      requires Valid()
      modifies this
      ensures Valid() && calls == old(calls) + [SubmitOrderCall(request)]
      ensures r == Wrapped("submit order", outcome)
    {
      Record([SubmitOrderCall(request)]);
      r := Wrapped("submit order", outcome);
    }

    /** `cancel_all_orders`; the element type is whatever the SDK's cancel call returns. */
    method CancelAllOrders<C>(outcome: SdkResult<seq<C>>) returns (r: Result<seq<C>, Exception>)
      requires Valid()
      modifies this
      ensures Valid() && calls == old(calls) + [CancelOrdersCall]
      ensures r == Wrapped("cancel all orders", outcome)
    {
      Record([CancelOrdersCall]);
      r := Wrapped("cancel all orders", outcome);
    }

    /**
     * `close_all_positions`: with a truthy flag, cancel open orders first;
     * a failed cancel aborts before any close is issued.
     */
    method CloseAllPositions<C, P>(cancelOrders: Value, cancelOutcome: SdkResult<C>,
                                   closeOutcome: SdkResult<seq<P>>)
      returns (r: Result<seq<P>, Exception>)
      requires Valid()
      modifies this
      ensures Valid() && calls == old(calls) + CloseAllCalls(cancelOrders, cancelOutcome.Returned?)
      ensures Truthy(cancelOrders) && cancelOutcome.Raised? ==>
                r == Err(ApiWrap("close all positions", cancelOutcome.error.text))
      ensures !Truthy(cancelOrders) || cancelOutcome.Returned? ==> r == Wrapped("close all positions", closeOutcome)
    {
      CloseAllKeepsOrder(calls, cancelOrders, cancelOutcome.Returned?);
      calls := calls + CloseAllCalls(cancelOrders, cancelOutcome.Returned?);
      if Truthy(cancelOrders) && cancelOutcome.Raised? {
        r := Err(ApiWrap("close all positions", cancelOutcome.error.text));
      } else {
        r := Wrapped("close all positions", closeOutcome);
      }
    }

    method ClosePosition(symbol: string, request: ClosePositionRequest, outcome: SdkResult<Order>)
      returns (r: Result<Order, Exception>)
      requires Valid()
      modifies this
      ensures Valid() && calls == old(calls) + [ClosePositionCall(symbol, request)]
      ensures r == Wrapped("close position for " + symbol, outcome)
    {
      Record([ClosePositionCall(symbol, request)]);
      r := Wrapped("close position for " + symbol, outcome);
    }

    /** `get_latest_quote`: the symbol's entry of the SDK's response; a missing entry raises KeyError inside the try. */
    method GetLatestQuote<Q>(symbol: string, outcome: SdkResult<map<string, Q>>) returns (r: Result<Q, Exception>)
      requires Valid()
      modifies this
      ensures Valid() && calls == old(calls) + [LatestQuoteCall(symbol)]
      ensures r.Ok? <==> outcome.Returned? && symbol in outcome.value
      ensures r.Ok? ==> r.value == outcome.value[symbol]
      ensures outcome.Raised? ==> r == Err(ApiWrap("get quote for " + symbol, outcome.error.text))
      ensures outcome.Returned? && symbol !in outcome.value ==>
                r == Err(ApiWrap("get quote for " + symbol, Exceptions.Str(KeyError(symbol))))
    {
      Record([LatestQuoteCall(symbol)]);
      match outcome
      case Raised(e) => r := Err(ApiWrap("get quote for " + symbol, e.text));
      case Returned(quotes) =>
        if symbol in quotes {
          r := Ok(quotes[symbol]);
        } else {
          r := Err(ApiWrap("get quote for " + symbol, Exceptions.Str(KeyError(symbol))));
        }
    }

    /** `get_stock_bars`: the symbol's bar list of the SDK's response, like `get_latest_quote`. */
    method GetStockBars<B>(symbol: string, days: int, outcome: SdkResult<map<string, seq<B>>>)
      returns (r: Result<seq<B>, Exception>)
      requires Valid()
      modifies this
      ensures Valid() && calls == old(calls) + [StockBarsCall(symbol, days)]
      ensures r.Ok? <==> outcome.Returned? && symbol in outcome.value
      ensures r.Ok? ==> r.value == outcome.value[symbol]
      ensures outcome.Raised? ==> r == Err(ApiWrap("get bars for " + symbol, outcome.error.text))
      ensures outcome.Returned? && symbol !in outcome.value ==>
                r == Err(ApiWrap("get bars for " + symbol, Exceptions.Str(KeyError(symbol))))
    {
      Record([StockBarsCall(symbol, days)]);
      match outcome
      case Raised(e) => r := Err(ApiWrap("get bars for " + symbol, e.text));
      case Returned(bars) =>
        if symbol in bars {
          r := Ok(bars[symbol]);
        } else {
          r := Err(ApiWrap("get bars for " + symbol, Exceptions.Str(KeyError(symbol))));
        }
    }

    /** `list_orders`: the status-filter rule on the lower-cased status, then `get_orders`, re-wrapped. */
    method ListOrders(status: string, limit: Value, outcome: SdkResult<seq<Order>>)
      returns (r: Result<seq<Order>, Exception>)
      requires Valid()
      modifies this
      ensures Valid() && calls == old(calls) + [GetOrdersCall(QueryStatusFor(Lower(status)), limit)]
      ensures r == Rewrapped("list orders", Wrapped("get orders", outcome))
    {
      var inner := GetOrders(QueryStatusFor(Lower(status)), limit, outcome);
      r := Rewrapped("list orders", inner);
    }

    /** `submit_market_order`: lenient side, no time in force, then `submit_order`, re-wrapped. */
    method SubmitMarketOrder(symbol: string, side: string, quantity: real, outcome: SdkResult<Order>)
      returns (r: Result<Order, Exception>)
      requires Valid()
      modifies this
      ensures Valid()
      ensures calls == old(calls) + [SubmitOrderCall(MarketOrderRequest(symbol, Number(quantity), LenientSide(side),
                                                                        None, None, None, None))]
      ensures r == Rewrapped("submit market order", Wrapped("submit order", outcome))
    {
      var request := MarketOrderRequest(symbol, Number(quantity), LenientSide(side), None, None, None, None);
      var inner := SubmitOrder(request, outcome);
      r := Rewrapped("submit market order", inner);
    }

    /** `submit_limit_order`: lenient side, no time in force, then `submit_order`, re-wrapped. */
    method SubmitLimitOrder(symbol: string, side: string, quantity: real, limitPrice: real, outcome: SdkResult<Order>)
      returns (r: Result<Order, Exception>)
      requires Valid()
      modifies this
      ensures Valid()
      ensures calls == old(calls) + [SubmitOrderCall(LimitOrderRequest(symbol, Number(quantity), LenientSide(side),
                                                                       Number(limitPrice), None, None, None, None))]
      ensures r == Rewrapped("submit limit order", Wrapped("submit order", outcome))
    {
      var request := LimitOrderRequest(symbol, Number(quantity), LenientSide(side), Number(limitPrice), None, None, None, None);
      var inner := SubmitOrder(request, outcome);
      r := Rewrapped("submit limit order", inner);
    }

    /**
     * `get_position`: an SDK failure whose lower-cased text mentions
     * "position does not exist" means no position; any other failure is an APIError.
     */
    method GetPosition(symbol: string, outcome: SdkResult<Position>) returns (r: Result<Option<Position>, Exception>)
      requires Valid()
      modifies this
      ensures Valid() && calls == old(calls) + [GetOpenPositionCall(symbol)]
      ensures r == PositionLookup(symbol, outcome)
    {
      Record([GetOpenPositionCall(symbol)]);
      r := PositionLookup(symbol, outcome);
    }
  }

  /** The not-found classification of `get_position`. */
  function PositionLookup(symbol: string, outcome: SdkResult<Position>): (r: Result<Option<Position>, Exception>)
    ensures outcome.Returned? ==> r == Ok(Some(outcome.value))
    ensures outcome.Raised? ==> (r == Ok(None) <==> Contains(Lower(outcome.error.text), "position does not exist"))
    ensures outcome.Raised? && r.Err? ==> r.error == ApiWrap("get position for " + symbol, outcome.error.text)
    ensures outcome.Raised? && !Contains(Lower(outcome.error.text), "position does not exist") ==>
              r == Err(ApiWrap("get position for " + symbol, outcome.error.text))
    ensures r.Ok? || r.error.ApiError?
  {
    match outcome
    case Returned(p) => Ok(Some(p))
    case Raised(e) =>
      if Contains(Lower(e.text), "position does not exist") then Ok(None)
      else Err(ApiWrap("get position for " + symbol, e.text))
  }

  /** The lenient mapping agrees with `get_order_side` wherever that one accepts the side. */
  lemma LenientSideAgreesWithStrict(side: string)
    ensures Utils.GetOrderSide(side).Ok? ==> Utils.GetOrderSide(side).value == LenientSide(side)
    ensures Utils.GetOrderSide(side).Err? ==> LenientSide(side) == Sell
  {
  }
}
