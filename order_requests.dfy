/**
 * The order-intent translation of the tool handlers in
 * src/brokers/alpaca/tools/orders.py: a flat argument dictionary becomes one
 * SDK order request, or the exception the handler raises before it submits
 * anything. Arguments are read in the handler's own order, so the exception
 * is the one Python raises first.
 */
module OrderRequests {
  import opened Wrappers
  import opened Text
  import opened Exceptions
  import opened Values
  import opened Broker
  import opened Utils

  const LimitPriceRequired := "limit_price is required for limit orders"
  const OtoLegRequired := "Must provide exactly one of take_profit_price or stop_loss_price for OTO orders"
  const TrailTypeInvalid := "trail_type must be 'price' or 'percent'"

  /** `arguments["symbol"].upper()` */
  function SymbolArg(args: Args): (r: Result<string, Exception>)
    ensures r.Ok? <==> "symbol" in args && args["symbol"].Str?
    ensures r.Ok? ==> r.value == Upper(args["symbol"].s)
    ensures "symbol" !in args ==> r == Err(KeyError("symbol"))
  {
    var v :- Index(args, "symbol");
    UpperOf(v)
  }

  /** The side argument is a string that `get_order_side` refuses. */
  predicate InvalidSide(args: Args) {
    "side" in args && args["side"].Str? && GetOrderSide(args["side"].s).Err?
  }

  /** `get_order_side(arguments["side"])` */
  function SideArg(args: Args): (r: Result<Side, Exception>)
    ensures r.Ok? <==> "side" in args && args["side"].Str? && GetOrderSide(args["side"].s).Ok?
    ensures r.Ok? ==> r == GetOrderSide(args["side"].s)
    ensures r.Err? && r.error.ValueError? <==> InvalidSide(args)
    ensures InvalidSide(args) ==> r == Err(ValueError(InvalidSideMessage(args["side"].s)))
  {
    var v :- Index(args, "side");
    if v.Str? then GetOrderSide(v.s) else Err(AttributeError(TypeName(v), "lower"))
  }

  /** `arguments.get("order_type", "market").lower()` */
  function OrderTypeArg(args: Args): (r: Result<string, Exception>)
    ensures r.Ok? <==> GetOr(args, "order_type", Str("market")).Str?
    ensures r.Ok? ==> r.value == Lower(GetOr(args, "order_type", Str("market")).s)
  {
    LowerOf(GetOr(args, "order_type", Str("market")))
  }

  /** `TimeInForce.GTC if time_in_force_str == "GTC" else TimeInForce.DAY` */
  function TimeInForceFor(name: string): (t: TimeInForce)
    ensures t == Gtc <==> name == "GTC"
    ensures t == Day <==> name != "GTC"
  {
    if name == "GTC" then Gtc else Day
  }

  /**
   * `arguments.get("time_in_force", default).upper()`, mapped by
   * TimeInForceFor; a non-string value raises AttributeError.
   */
  function TimeInForceArg(args: Args, default: string): (r: Result<TimeInForce, Exception>)
    ensures r.Ok? <==> GetOr(args, "time_in_force", Str(default)).Str?
    ensures r.Ok? ==> (r.value == Gtc <==> Upper(GetOr(args, "time_in_force", Str(default)).s) == "GTC")
  {
    var name :- UpperOf(GetOr(args, "time_in_force", Str(default)));
    Ok(TimeInForceFor(name))
  }

  /** The stop-loss leg: a stop-limit leg exactly when the stop-loss limit price is truthy. */
  function StopLeg(stopPrice: Value, stopLimitPrice: Value): (leg: StopLossRequest)
    ensures leg.stopPrice == stopPrice
    ensures leg.limitPrice.Some? <==> Truthy(stopLimitPrice)
    ensures leg.limitPrice.Some? ==> leg.limitPrice.value == stopLimitPrice
  {
    if Truthy(stopLimitPrice) then StopLossRequest(stopPrice, Some(stopLimitPrice))
    else StopLossRequest(stopPrice, None)
  }

  /** `handle_place_market_order`: a DAY market order for the upper-cased symbol. */
  function BuildMarketOrder(args: Args): (r: Result<OrderRequest, Exception>)
    ensures r.Ok? <==> SymbolArg(args).Ok? && SideArg(args).Ok? && "quantity" in args
    ensures r.Ok? ==> r.value == MarketOrderRequest(Upper(args["symbol"].s), args["quantity"],
                                                     SideArg(args).value, Some(Day), None, None, None)
    ensures r.Err? && r.error.ValueError? <==> SymbolArg(args).Ok? && InvalidSide(args)
  {
    var symbol :- SymbolArg(args);
    var side :- SideArg(args);
    var quantity :- Index(args, "quantity");
    Ok(MarketOrderRequest(symbol, quantity, side, Some(Day), None, None, None))
  }

  /** `handle_place_limit_order`: a DAY limit order for the upper-cased symbol. */
  function BuildLimitOrder(args: Args): (r: Result<OrderRequest, Exception>)
    ensures r.Ok? <==> SymbolArg(args).Ok? && SideArg(args).Ok? && "quantity" in args && "limit_price" in args
    ensures r.Ok? ==> r.value == LimitOrderRequest(Upper(args["symbol"].s), args["quantity"], SideArg(args).value,
                                                    args["limit_price"], Some(Day), None, None, None)
    ensures r.Err? && r.error.ValueError? <==> SymbolArg(args).Ok? && InvalidSide(args)
  {
    var symbol :- SymbolArg(args);
    var side :- SideArg(args);
    var quantity :- Index(args, "quantity");
    var limitPrice :- Index(args, "limit_price");
    Ok(LimitOrderRequest(symbol, quantity, side, limitPrice, Some(Day), None, None, None))
  }

  /** Every argument of a bracket order reads without raising. */
  predicate BracketArgsRead(args: Args) {
    SymbolArg(args).Ok? && SideArg(args).Ok? && "quantity" in args && OrderTypeArg(args).Ok?
    && "take_profit_price" in args && "stop_loss_price" in args && TimeInForceArg(args, "gtc").Ok?
  }

  /**
   * `handle_place_bracket_order`: a limit entry when the lower-cased order
   * type is "limit" (which then needs a truthy limit price), a market entry
   * for any other order type; class BRACKET with both exit legs.
   */
  function BuildBracketOrder(args: Args): (r: Result<OrderRequest, Exception>)
    ensures r.Ok? <==> BracketArgsRead(args) && !(OrderTypeArg(args).value == "limit" && !Truthy(Get(args, "limit_price")))
    ensures BracketArgsRead(args) && OrderTypeArg(args).value == "limit" && !Truthy(Get(args, "limit_price")) ==>
              r == Err(ValueError(LimitPriceRequired))
    ensures r.Ok? ==>
              var q := r.value;
              && !q.TrailingStopOrderRequest?
              && (q.LimitOrderRequest? <==> OrderTypeArg(args).value == "limit")
              && (q.LimitOrderRequest? ==> q.limitPrice == args["limit_price"] && Truthy(q.limitPrice))
              && q.symbol == Upper(args["symbol"].s) && q.qty == args["quantity"] && q.side == SideArg(args).value
              && q.timeInForce == Some(TimeInForceArg(args, "gtc").value)
              && q.orderClass == Some(Bracket)
              && q.takeProfit == Some(TakeProfitRequest(args["take_profit_price"]))
              && q.stopLoss == Some(StopLeg(args["stop_loss_price"], Get(args, "stop_loss_limit_price")))
  {
    var symbol :- SymbolArg(args);
    var side :- SideArg(args);
    var quantity :- Index(args, "quantity");
    var orderType :- OrderTypeArg(args);
    var limitPrice := Get(args, "limit_price");
    var takeProfitPrice :- Index(args, "take_profit_price");
    var stopLossPrice :- Index(args, "stop_loss_price");
    var stopLossLimitPrice := Get(args, "stop_loss_limit_price");
    var timeInForce :- TimeInForceArg(args, "gtc");
    if orderType == "limit" && !Truthy(limitPrice) then
      Err(ValueError(LimitPriceRequired))
    else
      var takeProfit := TakeProfitRequest(takeProfitPrice);
      var stopLoss := StopLeg(stopLossPrice, stopLossLimitPrice);
      if orderType == "limit" then
        Ok(LimitOrderRequest(symbol, quantity, side, limitPrice, Some(timeInForce), Some(Bracket),
                             Some(takeProfit), Some(stopLoss)))
      else
        Ok(MarketOrderRequest(symbol, quantity, side, Some(timeInForce), Some(Bracket),
                              Some(takeProfit), Some(stopLoss)))
  }

  /**
   * `handle_place_oco_order`: always a SELL limit order at the take-profit
   * price, class OCO, with both exit legs; the side argument is not read.
   */
  function BuildOcoOrder(args: Args): (r: Result<OrderRequest, Exception>)
    ensures r.Ok? <==> SymbolArg(args).Ok? && "quantity" in args && "take_profit_price" in args
                       && "stop_loss_price" in args && TimeInForceArg(args, "gtc").Ok?
    ensures r.Ok? ==>
              var q := r.value;
              && q.LimitOrderRequest? && q.side == Sell
              && q.limitPrice == args["take_profit_price"]
              && q.symbol == Upper(args["symbol"].s) && q.qty == args["quantity"]
              && q.timeInForce == Some(TimeInForceArg(args, "gtc").value)
              && q.orderClass == Some(Oco)
              && q.takeProfit == Some(TakeProfitRequest(q.limitPrice))
              && q.stopLoss == Some(StopLeg(args["stop_loss_price"], Get(args, "stop_loss_limit_price")))
    ensures r.Err? ==> !r.error.ValueError?
  {
    var symbol :- SymbolArg(args);
    var quantity :- Index(args, "quantity");
    var takeProfitPrice :- Index(args, "take_profit_price");
    var stopLossPrice :- Index(args, "stop_loss_price");
    var stopLossLimitPrice := Get(args, "stop_loss_limit_price");
    var timeInForce :- TimeInForceArg(args, "gtc");
    Ok(LimitOrderRequest(symbol, quantity, Sell, takeProfitPrice, Some(timeInForce), Some(Oco),
                         Some(TakeProfitRequest(takeProfitPrice)),
                         Some(StopLeg(stopLossPrice, stopLossLimitPrice))))
  }

  /** Every argument of an OTO order reads without raising. */
  predicate OtoArgsRead(args: Args) {
    SymbolArg(args).Ok? && SideArg(args).Ok? && "quantity" in args && OrderTypeArg(args).Ok?
    && TimeInForceArg(args, "gtc").Ok?
  }

  /** `(take_profit_price is None) ^ (stop_loss_price is None)` */
  predicate ExactlyOneExitPrice(args: Args) {
    Get(args, "take_profit_price").Null? != Get(args, "stop_loss_price").Null?
  }

  /**
   * The keyword arguments the OTO handler collects in `common_kwargs`
   * before it adds one exit leg.
   */
  datatype OrderKwargs = OrderKwargs(symbol: string, qty: Value, side: Side, timeInForce: TimeInForce,
                                     orderClass: OrderClass, takeProfit: Option<TakeProfitRequest>,
                                     stopLoss: Option<StopLossRequest>)

  /**
   * 2^1024 - 2^970: the least integer that rounds beyond the largest double,
   * so that converting it (or anything larger) to a float raises.
   */
  const FloatIntLimit: int := 0xFFFFFFFFFFFFFC00000000000000000000000000000000000000000000000000000000000000000000000000000000000000000000000000000000000000000000000000000000000000000000000000000000000000000000000000000000000000000000000000000000000000000000000000000000000000000000000000

  /** An int whose conversion to a float raises OverflowError. */
  predicate BeyondFloat(i: int) {
    i <= -FloatIntLimit || FloatIntLimit <= i
  }

  /** A value that `f"${amount:.2f}"` renders: a float, a bool, or an int within the range of a float. */
  predicate CurrencyFormattable(amount: Value) {
    amount.Number? || amount.Flag? || (amount.Int? && !BeyondFloat(amount.i))
  }

  /**
   * The exception `format_currency` raises for a value: `None` has no float
   * format, a string refuses the `f` code, and an int too large for a float
   * cannot be converted to one.
   */
  function CurrencyFormatError(amount: Value): (e: Option<Exception>)
    ensures e.None? <==> CurrencyFormattable(amount)
    ensures amount.Null? ==> e == Some(TypeError("unsupported format string passed to NoneType.__format__"))
    ensures amount.Str? ==> e == Some(ValueError("Unknown format code 'f' for object of type 'str'"))
    ensures amount.Int? && BeyondFloat(amount.i) ==> e == Some(OverflowError("int too large to convert to float"))
  {
    match amount
    case Null => Some(TypeError("unsupported format string passed to NoneType.__format__"))
    case Str(_) => Some(ValueError("Unknown format code 'f' for object of type 'str'"))
    case Int(i) => if BeyondFloat(i) then Some(OverflowError("int too large to convert to float")) else None
    case _ => None
  }

  /**
   * The exception raised while the OTO handler describes its exit leg, which
   * happens before the order is submitted: the take-profit price when it is
   * truthy, otherwise the stop-loss price and then, when it is truthy, the
   * stop-loss limit price.
   */
  function ExitFormatError(args: Args): (e: Option<Exception>)
    ensures e.None? <==>
              if Truthy(Get(args, "take_profit_price")) then CurrencyFormattable(Get(args, "take_profit_price"))
              else CurrencyFormattable(Get(args, "stop_loss_price"))
                   && (Truthy(Get(args, "stop_loss_limit_price")) ==> CurrencyFormattable(Get(args, "stop_loss_limit_price")))
    ensures Truthy(Get(args, "take_profit_price")) ==> e == CurrencyFormatError(Get(args, "take_profit_price"))
    ensures !Truthy(Get(args, "take_profit_price")) && !CurrencyFormattable(Get(args, "stop_loss_price")) ==>
              e == CurrencyFormatError(Get(args, "stop_loss_price"))
    ensures !Truthy(Get(args, "take_profit_price")) && CurrencyFormattable(Get(args, "stop_loss_price")) ==>
              e == (if Truthy(Get(args, "stop_loss_limit_price")) then CurrencyFormatError(Get(args, "stop_loss_limit_price")) else None)
  {
    var takeProfitPrice := Get(args, "take_profit_price");
    var stopLossPrice := Get(args, "stop_loss_price");
    var stopLossLimitPrice := Get(args, "stop_loss_limit_price");
    if Truthy(takeProfitPrice) then CurrencyFormatError(takeProfitPrice)
    else if CurrencyFormatError(stopLossPrice).Some? then CurrencyFormatError(stopLossPrice)
    else if Truthy(stopLossLimitPrice) then CurrencyFormatError(stopLossLimitPrice)
    else None
  }

  /**
   * `handle_place_oto_order`: exactly one of the two exit prices must be
   * given (a test on `None`, made before the limit-price test); the leg
   * attached is chosen by the truthiness of the take-profit price, and its
   * prices must be printable before the order is submitted.
   */
  function BuildOtoOrder(args: Args): (r: Result<OrderRequest, Exception>)
    ensures r.Ok? <==> OtoArgsRead(args) && ExactlyOneExitPrice(args)
                       && !(OrderTypeArg(args).value == "limit" && !Truthy(Get(args, "limit_price")))
                       && ExitFormatError(args).None?
    ensures OtoArgsRead(args) && !ExactlyOneExitPrice(args) ==> r == Err(ValueError(OtoLegRequired))
    ensures (OtoArgsRead(args) && ExactlyOneExitPrice(args) && OrderTypeArg(args).value == "limit"
             && !Truthy(Get(args, "limit_price"))) ==> r == Err(ValueError(LimitPriceRequired))
    ensures (OtoArgsRead(args) && ExactlyOneExitPrice(args)
             && !(OrderTypeArg(args).value == "limit" && !Truthy(Get(args, "limit_price")))
             && ExitFormatError(args).Some?) ==> r == Err(ExitFormatError(args).value)
    ensures r.Ok? ==>
              var q := r.value;
              && !q.TrailingStopOrderRequest?
              && (q.LimitOrderRequest? <==> OrderTypeArg(args).value == "limit")
              && (q.LimitOrderRequest? ==> q.limitPrice == args["limit_price"] && Truthy(q.limitPrice))
              && q.symbol == Upper(args["symbol"].s) && q.qty == args["quantity"] && q.side == SideArg(args).value
              && q.timeInForce == Some(TimeInForceArg(args, "gtc").value)
              && q.orderClass == Some(Oto)
              && (q.takeProfit.Some? != q.stopLoss.Some?)
              && (q.takeProfit.Some? <==> Truthy(Get(args, "take_profit_price")))
              && (q.takeProfit.Some? ==> q.takeProfit.value == TakeProfitRequest(args["take_profit_price"]))
              && (q.stopLoss.Some? ==>
                    q.stopLoss.value == StopLeg(Get(args, "stop_loss_price"), Get(args, "stop_loss_limit_price")))
  {
    var symbol :- SymbolArg(args);
    var side :- SideArg(args);
    var quantity :- Index(args, "quantity");
    var orderType :- OrderTypeArg(args);
    var limitPrice := Get(args, "limit_price");
    var takeProfitPrice := Get(args, "take_profit_price");
    var stopLossPrice := Get(args, "stop_loss_price");
    var stopLossLimitPrice := Get(args, "stop_loss_limit_price");
    var timeInForce :- TimeInForceArg(args, "gtc");
    if takeProfitPrice.Null? == stopLossPrice.Null? then
      Err(ValueError(OtoLegRequired))
    else if orderType == "limit" && !Truthy(limitPrice) then
      Err(ValueError(LimitPriceRequired))
    else if ExitFormatError(args).Some? then
      Err(ExitFormatError(args).value)
    else
      var common := OrderKwargs(symbol, quantity, side, timeInForce, Oto, None, None);
      var kwargs := if Truthy(takeProfitPrice) then common.(takeProfit := Some(TakeProfitRequest(takeProfitPrice)))
                    else common.(stopLoss := Some(StopLeg(stopLossPrice, stopLossLimitPrice)));
      if orderType == "limit" then
        Ok(LimitOrderRequest(kwargs.symbol, kwargs.qty, kwargs.side, limitPrice, Some(kwargs.timeInForce),
                             Some(kwargs.orderClass), kwargs.takeProfit, kwargs.stopLoss))
      else
        Ok(MarketOrderRequest(kwargs.symbol, kwargs.qty, kwargs.side, Some(kwargs.timeInForce),
                              Some(kwargs.orderClass), kwargs.takeProfit, kwargs.stopLoss))
  }

  /**
   * The exception raised while formatting `trail_amount * 100` with `.2f`
   * for a percent trail, which happens before the order is submitted: a
   * string is repeated and then refused by the float format, `None` cannot
   * be multiplied, and an int product too large for a float cannot be
   * converted to one.
   */
  function PercentTrailFormatError(trailAmount: Value): (e: Option<Exception>)
    ensures e.None? <==> (trailAmount.Int? && !BeyondFloat(trailAmount.i * 100)) || trailAmount.Number? || trailAmount.Flag?
    ensures trailAmount.Int? && BeyondFloat(trailAmount.i * 100) ==>
              e == Some(OverflowError("int too large to convert to float"))
    ensures trailAmount.Str? ==> e.Some? && e.value.ValueError?
    ensures trailAmount.Null? ==> e.Some? && e.value.TypeError?
  {
    match trailAmount
    case Str(_) => Some(ValueError("Unknown format code 'f' for object of type 'str'"))
    case Null => Some(TypeError("unsupported operand type(s) for *: 'NoneType' and 'int'"))
    case Int(i) => if BeyondFloat(i * 100) then Some(OverflowError("int too large to convert to float")) else None
    case _ => None
  }

  /** Every argument of a trailing-stop order reads without raising. */
  predicate TrailingArgsRead(args: Args) {
    SymbolArg(args).Ok? && SideArg(args).Ok? && "quantity" in args
    && "trail_type" in args && args["trail_type"].Str? && "trail_amount" in args
    && TimeInForceArg(args, "day").Ok?
  }

  /**
   * `handle_place_trailing_stop_order`: the lower-cased trail type selects
   * which of trail price and trail percent carries the trail amount; the
   * other is not passed.
   */
  function BuildTrailingStopOrder(args: Args): (r: Result<OrderRequest, Exception>)
    ensures (TrailingArgsRead(args) && Lower(args["trail_type"].s) != "price"
             && Lower(args["trail_type"].s) != "percent") ==> r == Err(ValueError(TrailTypeInvalid))
    ensures r.Ok? <==> TrailingArgsRead(args)
                       && (Lower(args["trail_type"].s) == "price"
                           || (Lower(args["trail_type"].s) == "percent"
                               && PercentTrailFormatError(args["trail_amount"]).None?))
    ensures (TrailingArgsRead(args) && Lower(args["trail_type"].s) == "percent"
             && PercentTrailFormatError(args["trail_amount"]).Some?) ==>
              r == Err(PercentTrailFormatError(args["trail_amount"]).value)
    ensures r.Ok? ==>
              var q := r.value;
              && q.TrailingStopOrderRequest?
              && q.symbol == Upper(args["symbol"].s) && q.qty == args["quantity"] && q.side == SideArg(args).value
              && q.timeInForce == Some(TimeInForceArg(args, "day").value)
              && (q.trailPrice.Some? != q.trailPercent.Some?)
              && (q.trailPrice.Some? <==> Lower(args["trail_type"].s) == "price")
              && (q.trailPrice.Some? ==> q.trailPrice.value == args["trail_amount"])
              && (q.trailPercent.Some? ==> q.trailPercent.value == args["trail_amount"])
  {
    var symbol :- SymbolArg(args);
    var side :- SideArg(args);
    var quantity :- Index(args, "quantity");
    var trailTypeArg :- Index(args, "trail_type");
    var trailType :- LowerOf(trailTypeArg);
    var trailAmount :- Index(args, "trail_amount");
    var timeInForce :- TimeInForceArg(args, "day");
    if trailType != "price" && trailType != "percent" then
      Err(ValueError(TrailTypeInvalid))
    else if trailType == "price" then
      Ok(TrailingStopOrderRequest(symbol, quantity, side, Some(timeInForce), Some(trailAmount), None))
    else if PercentTrailFormatError(trailAmount).Some? then
      Err(PercentTrailFormatError(trailAmount).value)
    else
      Ok(TrailingStopOrderRequest(symbol, quantity, side, Some(timeInForce), None, Some(trailAmount)))
  }

  /**
   * A side that `get_order_side` refuses stops every handler that reads a
   * side with the same ValueError, once the symbol has been read.
   */
  lemma InvalidSideBuildsNothing(args: Args)
    requires SymbolArg(args).Ok? && InvalidSide(args)
    ensures BuildMarketOrder(args) == Err(ValueError(InvalidSideMessage(args["side"].s)))
    ensures BuildLimitOrder(args) == Err(ValueError(InvalidSideMessage(args["side"].s)))
    ensures BuildBracketOrder(args) == Err(ValueError(InvalidSideMessage(args["side"].s)))
    ensures BuildOtoOrder(args) == Err(ValueError(InvalidSideMessage(args["side"].s)))
    ensures BuildTrailingStopOrder(args) == Err(ValueError(InvalidSideMessage(args["side"].s)))
  {
  }

  /**
   * An illustration: without a time-in-force argument, the advanced orders
   * default to GTC and the trailing stop to DAY.
   */
  lemma TimeInForceDefaults(args: Args)
    requires "time_in_force" !in args
    ensures TimeInForceArg(args, "gtc") == Ok(Gtc)
    ensures TimeInForceArg(args, "day") == Ok(Day)
  {
    assert Upper("gtc") == "GTC";
    assert Upper("day") == "DAY";
  }

  /**
   * Illustrations of the time-in-force rule: it ignores case, and every
   * name other than GTC means DAY.
   */
  lemma TimeInForceExamples()
    ensures TimeInForceArg(map["time_in_force" := Str("Gtc")], "day") == Ok(Gtc)
    ensures TimeInForceArg(map["time_in_force" := Str("ioc")], "gtc") == Ok(Day)
    ensures TimeInForceArg(map["time_in_force" := Str(" gtc")], "gtc") == Ok(Day)
    ensures TimeInForceArg(map["time_in_force" := Null], "gtc") == Err(AttributeError("NoneType", "upper"))
  {
    assert Upper("Gtc") == "GTC";
    assert Upper("ioc") == "IOC";
    assert Upper(" gtc") == " GTC";
  }

  /**
   * An OTO order whose take-profit price is given but falsy (0, 0.0, False
   * or "") and whose stop-loss price is absent passes the `None` test but
   * fails the truthiness test, so the handler goes on to describe a stop-loss
   * leg whose stop price is None, and formatting that None raises before
   * anything is submitted. This holds as the request is modelled here: the
   * SDK's own validation of `StopLossRequest(stop_price=None)` is not part of
   * the model.
   */
  lemma OtoFalsyTakeProfitIsRefused(args: Args)
    requires OtoArgsRead(args) && OrderTypeArg(args).value == "market"
    requires "take_profit_price" in args && !args["take_profit_price"].Null? && !Truthy(args["take_profit_price"])
    requires "stop_loss_price" !in args
    ensures BuildOtoOrder(args) == Err(TypeError("unsupported format string passed to NoneType.__format__"))
  {
  }

  /**
   * A percent trail whose int amount times 100 is beyond the range of a
   * float is refused before submission, while the same amount as a price
   * trail is passed on unformatted.
   */
  lemma HugePercentTrailIsRefused(args: Args)
    requires TrailingArgsRead(args) && args["trail_amount"] == Int(FloatIntLimit)
    ensures Lower(args["trail_type"].s) == "percent" ==>
              BuildTrailingStopOrder(args) == Err(OverflowError("int too large to convert to float"))
    ensures Lower(args["trail_type"].s) == "price" ==> BuildTrailingStopOrder(args).Ok?
  {
  }

  /** A bracket order with an order type other than "market" or "limit" is sent as a market order. */
  lemma BracketUnknownTypeIsMarket(args: Args)
    requires BracketArgsRead(args) && OrderTypeArg(args).value == "stop"
    ensures BuildBracketOrder(args).Ok? && BuildBracketOrder(args).value.MarketOrderRequest?
  {
  }
}
