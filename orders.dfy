/**
 * The order tool handlers of src/brokers/alpaca/tools/orders.py, each over
 * an AlpacaClient whose SDK outcomes are parameters. Success replies are
 * kept as the values they display; the float formatting of the text is not
 * modelled.
 */
module Orders {
  import opened Wrappers
  import opened Text
  import opened Exceptions
  import opened Values
  import opened Broker
  import opened Client
  import opened OrderRequests

  /** What a handler replies with. */
  datatype Reply =
    | OrderPlaced(order: Order)
    | OrdersFound(message: string, entries: seq<OrderEntry>)
    | Message(text: string)
    | ThresholdNotMet(symbol: string, plpc: real, threshold: Value)
    | ProfitTaken(symbol: string, plpc: real, threshold: Value, closePercentage: Value, order: Order)
    | Failed(text: string)

  /**
   * The text of the `except` clause that catches `e`: `except ValueError`
   * (only where the handler has one), `except APIError`, `except Exception`.
   */
  function ErrorText(action: string, catchesValueError: bool, e: Exception): (text: string)
    ensures Classify(e, catchesValueError) == Validation ==> text == "Invalid parameters: " + Exceptions.Str(e)
    ensures Classify(e, catchesValueError) == Api ==> text == "Error " + action + ": " + Exceptions.Str(e)
    ensures Classify(e, catchesValueError) == Unexpected ==> text == "Unexpected error: " + Exceptions.Str(e)
  {
    match Classify(e, catchesValueError)
    case Validation => "Invalid parameters: " + Exceptions.Str(e)
    case Api => "Error " + action + ": " + Exceptions.Str(e)
    case Unexpected => "Unexpected error: " + Exceptions.Str(e)
  }

  /** The reply to a submission attempt once the request was built. */
  function SubmitReply(action: string, catchesValueError: bool, submitted: Result<Order, Exception>): Reply {
    match submitted
    case Ok(order) => OrderPlaced(order)
    case Err(e) => Failed(ErrorText(action, catchesValueError, e))
  }

  /**
   * The shared shape of the placing handlers: a request that could not be
   * built is answered without any SDK call; a built one is submitted once.
   */
  method PlaceOrder(client: AlpacaClient, request: Result<OrderRequest, Exception>, action: string,
                    catchesValueError: bool, outcome: SdkResult<Order>)
    returns (reply: Reply)
    requires client.Valid()
    modifies client
    ensures client.Valid()
    ensures request.Err? ==> client.calls == old(client.calls)
                             && reply == Failed(ErrorText(action, catchesValueError, request.error))
    ensures request.Ok? ==> client.calls == old(client.calls) + [SubmitOrderCall(request.value)]
                            && reply == SubmitReply(action, catchesValueError, Wrapped("submit order", outcome))
  {
    match request
    case Err(e) =>
      reply := Failed(ErrorText(action, catchesValueError, e));
    case Ok(req) =>
      var submitted := client.SubmitOrder(req, outcome);
      reply := SubmitReply(action, catchesValueError, submitted);
  }

  /** `handle_place_market_order`; an invalid side is answered "Invalid parameters: ..." with nothing submitted. */
  method HandlePlaceMarketOrder(client: AlpacaClient, args: Args, outcome: SdkResult<Order>) returns (reply: Reply)
    requires client.Valid()
    modifies client
    ensures client.Valid()
    ensures BuildMarketOrder(args).Err? ==> client.calls == old(client.calls)
                                            && reply == Failed(ErrorText("placing market order", true, BuildMarketOrder(args).error))
    ensures BuildMarketOrder(args).Ok? ==> client.calls == old(client.calls) + [SubmitOrderCall(BuildMarketOrder(args).value)]
    ensures SymbolArg(args).Ok? && InvalidSide(args) ==>
              reply == Failed("Invalid parameters: " + Utils.InvalidSideMessage(args["side"].s))
    ensures BuildMarketOrder(args).Ok? ==> reply == SubmitReply("placing market order", true, Wrapped("submit order", outcome))
  {
    reply := PlaceOrder(client, BuildMarketOrder(args), "placing market order", true, outcome);
  }

  /** `handle_place_limit_order` */
  method HandlePlaceLimitOrder(client: AlpacaClient, args: Args, outcome: SdkResult<Order>) returns (reply: Reply)
    requires client.Valid()
    modifies client
    ensures client.Valid()
    ensures BuildLimitOrder(args).Err? ==> client.calls == old(client.calls)
                                           && reply == Failed(ErrorText("placing limit order", true, BuildLimitOrder(args).error))
    ensures BuildLimitOrder(args).Ok? ==> client.calls == old(client.calls) + [SubmitOrderCall(BuildLimitOrder(args).value)]
    ensures SymbolArg(args).Ok? && InvalidSide(args) ==>
              reply == Failed("Invalid parameters: " + Utils.InvalidSideMessage(args["side"].s))
    ensures BuildLimitOrder(args).Ok? ==> reply == SubmitReply("placing limit order", true, Wrapped("submit order", outcome))
  {
    reply := PlaceOrder(client, BuildLimitOrder(args), "placing limit order", true, outcome);
  }

  /** `handle_place_bracket_order` */
  method HandlePlaceBracketOrder(client: AlpacaClient, args: Args, outcome: SdkResult<Order>) returns (reply: Reply)
    requires client.Valid()
    modifies client
    ensures client.Valid()
    ensures BuildBracketOrder(args).Err? ==> client.calls == old(client.calls)
                                             && reply == Failed(ErrorText("placing bracket order", true, BuildBracketOrder(args).error))
    ensures BuildBracketOrder(args).Ok? ==> client.calls == old(client.calls) + [SubmitOrderCall(BuildBracketOrder(args).value)]
                                            && reply == SubmitReply("placing bracket order", true, Wrapped("submit order", outcome))
  {
    reply := PlaceOrder(client, BuildBracketOrder(args), "placing bracket order", true, outcome);
  }

  /** `handle_place_oco_order`, which has no `except ValueError` clause. */
  method HandlePlaceOcoOrder(client: AlpacaClient, args: Args, outcome: SdkResult<Order>) returns (reply: Reply)
    requires client.Valid()
    modifies client
    ensures client.Valid()
    ensures BuildOcoOrder(args).Err? ==> client.calls == old(client.calls)
                                         && reply == Failed(ErrorText("placing OCO order", false, BuildOcoOrder(args).error))
    ensures BuildOcoOrder(args).Ok? ==> client.calls == old(client.calls) + [SubmitOrderCall(BuildOcoOrder(args).value)]
                                        && reply == SubmitReply("placing OCO order", false, Wrapped("submit order", outcome))
  {
    reply := PlaceOrder(client, BuildOcoOrder(args), "placing OCO order", false, outcome);
  }

  /** `handle_place_oto_order` */
  method HandlePlaceOtoOrder(client: AlpacaClient, args: Args, outcome: SdkResult<Order>) returns (reply: Reply)
    requires client.Valid()
    modifies client
    ensures client.Valid()
    ensures BuildOtoOrder(args).Err? ==> client.calls == old(client.calls)
                                         && reply == Failed(ErrorText("placing OTO order", true, BuildOtoOrder(args).error))
    ensures BuildOtoOrder(args).Ok? ==> client.calls == old(client.calls) + [SubmitOrderCall(BuildOtoOrder(args).value)]
                                        && reply == SubmitReply("placing OTO order", true, Wrapped("submit order", outcome))
  {
    reply := PlaceOrder(client, BuildOtoOrder(args), "placing OTO order", true, outcome);
  }

  /** `handle_place_trailing_stop_order` */
  method HandlePlaceTrailingStopOrder(client: AlpacaClient, args: Args, outcome: SdkResult<Order>) returns (reply: Reply)
    requires client.Valid()
    modifies client
    ensures client.Valid()
    ensures BuildTrailingStopOrder(args).Err? ==>
              client.calls == old(client.calls)
              && reply == Failed(ErrorText("placing trailing stop order", true, BuildTrailingStopOrder(args).error))
    ensures BuildTrailingStopOrder(args).Ok? ==>
              client.calls == old(client.calls) + [SubmitOrderCall(BuildTrailingStopOrder(args).value)]
              && reply == SubmitReply("placing trailing stop order", true, Wrapped("submit order", outcome))
  {
    reply := PlaceOrder(client, BuildTrailingStopOrder(args), "placing trailing stop order", true, outcome);
  }

  /** `x if x else ...` on an optional decimal text: absent and empty text are falsy. */
  predicate TruthyText(t: Option<string>) {
    t.Some? && t.value != ""
  }

  /** One entry of the `get_orders` listing; optional numbers are dropped when falsy. */
  datatype OrderEntry = OrderEntry(id: string, symbol: string, qty: string, filledQty: string, side: string,
                                   orderType: string, orderClass: string, status: string, limitPrice: Option<string>, stopPrice: Option<string>,
                                   avgFillPrice: Option<string>, trailPrice: Option<string>,
                                   trailPercent: Option<string>)

  /** `float(x) if x else None` */
  function IfTruthy(t: Option<string>): (r: Option<string>)
    ensures r.Some? <==> TruthyText(t)
    ensures r.Some? ==> r == t
  {
    if TruthyText(t) then t else None
  }

  /** The entry `handle_get_orders` builds for one order. */
  function EntryOf(o: Order): (e: OrderEntry)
    ensures e.id == o.id && e.symbol == o.symbol && e.qty == o.qty && e.side == o.side && e.status == o.status
    ensures e.orderType == o.orderType && e.orderClass == o.orderClass
    ensures TruthyText(o.filledQty) ==> e.filledQty == o.filledQty.value
    ensures !TruthyText(o.filledQty) ==> e.filledQty == "0"
    ensures e.limitPrice == IfTruthy(o.limitPrice) && e.stopPrice == IfTruthy(o.stopPrice)
    ensures e.avgFillPrice == IfTruthy(o.filledAvgPrice)
    ensures e.trailPrice == IfTruthy(o.trailPrice) && e.trailPercent == IfTruthy(o.trailPercent)
  {
    OrderEntry(o.id, o.symbol, o.qty, if TruthyText(o.filledQty) then o.filledQty.value else "0", o.side,
               o.orderType, o.orderClass, o.status,
               IfTruthy(o.limitPrice), IfTruthy(o.stopPrice), IfTruthy(o.filledAvgPrice),
               IfTruthy(o.trailPrice), IfTruthy(o.trailPercent))
  }

  /** The loop of `handle_get_orders` that appends one entry per order, in order. */
  method CollectOrders(orders: seq<Order>) returns (entries: seq<OrderEntry>)
    ensures |entries| == |orders|
    ensures forall i | 0 <= i < |orders| :: entries[i] == EntryOf(orders[i])
  {
    entries := [];
    for i := 0 to |orders|
      invariant |entries| == i
      invariant forall j | 0 <= j < i :: entries[j] == EntryOf(orders[j])
    {
      entries := entries + [EntryOf(orders[i])];
    }
  }

  /** `handle_get_orders`: the status filter, the limit (default 10), and the empty-result message. */
  method HandleGetOrders(client: AlpacaClient, args: Args, outcome: SdkResult<seq<Order>>) returns (reply: Reply)
    requires client.Valid()
    modifies client
    ensures client.Valid()
    ensures !GetOr(args, "status", Str("all")).Str? ==>
              client.calls == old(client.calls)
              && reply == Failed(ErrorText("getting orders", false, LowerOf(GetOr(args, "status", Str("all"))).error))
    ensures GetOr(args, "status", Str("all")).Str? ==>
              var status := Lower(GetOr(args, "status", Str("all")).s);
              && client.calls == old(client.calls) + [GetOrdersCall(QueryStatusFor(status), GetOr(args, "limit", Int(10)))]
              && (outcome.Raised? ==> reply == Failed(ErrorText("getting orders", false, ApiWrap("get orders", outcome.error.text))))
              && (outcome.Returned? && outcome.value == [] ==> reply == OrdersFound("No " + status + " orders found.", []))
              && (outcome.Returned? && outcome.value != [] ==>
                    reply.OrdersFound?
                    && reply.message == "Found " + NatText(|outcome.value|) + " " + status + " orders"
                    && |reply.entries| == |outcome.value|
                    && forall i | 0 <= i < |outcome.value| :: reply.entries[i] == EntryOf(outcome.value[i]))
  {
    var statusArg := LowerOf(GetOr(args, "status", Str("all")));
    if statusArg.Err? {
      return Failed(ErrorText("getting orders", false, statusArg.error));
    }
    var status := statusArg.value;
    var limit := GetOr(args, "limit", Int(10));
    var orders := client.GetOrders(QueryStatusFor(status), limit, outcome);
    if orders.Err? {
      return Failed(ErrorText("getting orders", false, orders.error));
    }
    if orders.value == [] {
      reply := OrdersFound("No " + status + " orders found.", []);
    } else {
      var entries := CollectOrders(orders.value);
      reply := OrdersFound("Found " + NatText(|orders.value|) + " " + status + " orders", entries);
    }
  }

  /** The concatenated lines of a listing, one per item, in order. */
  function Lines<T>(items: seq<T>, line: T -> string): string {
    if items == [] then "" else line(items[0]) + Lines(items[1..], line)
  }

  /** Lines of a concatenation are the concatenated lines. */
  lemma {:induction false} LinesAppend<T>(a: seq<T>, b: seq<T>, line: T -> string)
    ensures Lines(a + b, line) == Lines(a, line) + Lines(b, line)
  {
    if a == [] {
      assert a + b == b;
    } else {
      assert (a + b)[1..] == a[1..] + b;
      LinesAppend(a[1..], b, line);
    }
  }

  /** The `response += ...` loop of the cancel and close handlers. */
  method ListingText<T>(header: string, items: seq<T>, line: T -> string) returns (text: string)
    ensures text == header + Lines(items, line)
  {
    text := header;
    for i := 0 to |items|
      invariant text == header + Lines(items[..i], line)
    {
      LinesAppend(items[..i], [items[i]], line);
      assert items[..i + 1] == items[..i] + [items[i]];
      text := text + line(items[i]);
    }
    assert items[..|items|] == items;
  }

  function OrderLine(o: Order): string {
    "- " + o.symbol + " " + o.side + " " + o.qty + " (Order ID: " + o.id + ")\n"
  }

  function PositionLine(p: Position): string {
    "- " + p.symbol + " " + p.side + " " + p.qty + "\n"
  }

  /** `handle_cancel_all_orders`: an empty result is "No orders to cancel.", otherwise one line per order. */
  method HandleCancelAllOrders(client: AlpacaClient, outcome: SdkResult<seq<Order>>) returns (reply: Reply)
    requires client.Valid()
    modifies client
    ensures client.Valid() && client.calls == old(client.calls) + [CancelOrdersCall]
    ensures outcome.Raised? ==>
              reply == Failed(ErrorText("cancelling orders", false, ApiWrap("cancel all orders", outcome.error.text)))
    ensures outcome.Returned? && outcome.value == [] ==> reply == Message("No orders to cancel.")
    ensures outcome.Returned? && outcome.value != [] ==>
              reply == Message("Successfully cancelled " + NatText(|outcome.value|) + " orders:\n"
                               + Lines(outcome.value, OrderLine))
  {
    var cancelled := client.CancelAllOrders(outcome);
    if cancelled.Err? {
      return Failed(ErrorText("cancelling orders", false, cancelled.error));
    }
    if cancelled.value == [] {
      reply := Message("No orders to cancel.");
    } else {
      var text := ListingText("Successfully cancelled " + NatText(|cancelled.value|) + " orders:\n",
                              cancelled.value, OrderLine);
      reply := Message(text);
    }
  }

  /**
   * `handle_close_all_positions`: `cancel_orders` defaults to True and is
   * forwarded as given; an empty result is "No positions to close.".
   */
  method HandleCloseAllPositions<C>(client: AlpacaClient, args: Args, cancelOutcome: SdkResult<C>,
                                    closeOutcome: SdkResult<seq<Position>>)
    returns (reply: Reply)
    requires client.Valid()
    modifies client
    ensures client.Valid()
    ensures var flag := GetOr(args, "cancel_orders", Flag(true));
            client.calls == old(client.calls) + CloseAllCalls(flag, cancelOutcome.Returned?)
    ensures var flag := GetOr(args, "cancel_orders", Flag(true));
            Truthy(flag) && cancelOutcome.Raised? ==>
              reply == Failed(ErrorText("closing positions", false, ApiWrap("close all positions", cancelOutcome.error.text)))
    ensures var flag := GetOr(args, "cancel_orders", Flag(true));
            (!Truthy(flag) || cancelOutcome.Returned?) ==>
              && (closeOutcome.Raised? ==>
                    reply == Failed(ErrorText("closing positions", false,
                                              ApiWrap("close all positions", closeOutcome.error.text))))
              && (closeOutcome.Returned? && closeOutcome.value == [] ==> reply == Message("No positions to close."))
              && (closeOutcome.Returned? && closeOutcome.value != [] ==>
                    reply == Message("Successfully closed " + NatText(|closeOutcome.value|) + " positions:\n"
                                     + Lines(closeOutcome.value, PositionLine)))
  {
    var flag := GetOr(args, "cancel_orders", Flag(true));
    var closed := client.CloseAllPositions(flag, cancelOutcome, closeOutcome);
    if closed.Err? {
      return Failed(ErrorText("closing positions", false, closed.error));
    }
    if closed.value == [] {
      reply := Message("No positions to close.");
    } else {
      var text := ListingText("Successfully closed " + NatText(|closed.value|) + " positions:\n",
                              closed.value, PositionLine);
      reply := Message(text);
    }
  }

  /** The index of the first position held in `symbol`, if any. */
  function FirstMatch(positions: seq<Position>, symbol: string): (r: Option<nat>)
    ensures r.None? <==> forall i | 0 <= i < |positions| :: positions[i].symbol != symbol
    ensures r.Some? ==> r.value < |positions| && positions[r.value].symbol == symbol
                        && forall j | 0 <= j < r.value :: positions[j].symbol != symbol
  {
    if positions == [] then None
    else if positions[0].symbol == symbol then Some(0)
    else match FirstMatch(positions[1..], symbol)
      case None => None
      case Some(k) => Some(k + 1)
  }

  /** The search loop of `handle_take_partial_profit`, which stops at the first match. */
  method FindPosition(positions: seq<Position>, symbol: string) returns (position: Option<Position>)
    ensures position.None? <==> FirstMatch(positions, symbol).None?
    ensures position.Some? ==> position.value == positions[FirstMatch(positions, symbol).value]
  {
    position := None;
    var i := 0;
    while i < |positions|
      invariant 0 <= i <= |positions|
      invariant forall j | 0 <= j < i :: positions[j].symbol != symbol
    {
      if positions[i].symbol == symbol {
        position := Some(positions[i]);
        break;
      }
      i := i + 1;
    }
  }

  /** `float(position.unrealized_plpc or 0)` */
  function Plpc(p: Position): real {
    p.unrealizedPlpc.GetOr(0.0)
  }

  datatype ProfitDecision = NoPosition | BelowThreshold(plpc: real) | ClosePart(plpc: real, request: ClosePositionRequest)

  /**
   * The decision of `handle_take_partial_profit`: the first position in the
   * symbol is closed by `closePercentage` when its profit fraction is at
   * least the threshold; a threshold that cannot be compared with a float
   * raises TypeError.
   */
  function PartialProfitDecision(positions: seq<Position>, symbol: string, threshold: Value, closePercentage: Value)
    : (r: Result<ProfitDecision, Exception>)
    ensures r == Ok(NoPosition) <==> forall i | 0 <= i < |positions| :: positions[i].symbol != symbol
    ensures r.Err? ==> FirstMatch(positions, symbol).Some? && AsReal(threshold).Err? && r.error.TypeError?
    ensures r.Ok? && r.value.BelowThreshold? ==>
              var p := positions[FirstMatch(positions, symbol).value];
              p.symbol == symbol && r.value.plpc == Plpc(p) && AsReal(threshold).Ok? && Plpc(p) < AsReal(threshold).value
    ensures r.Ok? && r.value.ClosePart? ==>
              var p := positions[FirstMatch(positions, symbol).value];
              && p.symbol == symbol && r.value.plpc == Plpc(p) && AsReal(threshold).Ok? && Plpc(p) >= AsReal(threshold).value
              && r.value.request == ClosePositionRequest(closePercentage)
  {
    match FirstMatch(positions, symbol)
    case None => Ok(NoPosition)
    case Some(k) =>
      var plpc := Plpc(positions[k]);
      var t :- AsReal(threshold);
      if plpc < t then Ok(BelowThreshold(plpc))
      else Ok(ClosePart(plpc, ClosePositionRequest(closePercentage)))
  }

  /** A position with no profit figure counts as 0 and is closed against a threshold of at most 0. */
  lemma MissingPlpcCountsAsZero(p: Position, threshold: real, pct: Value)
    requires p.unrealizedPlpc.None? && threshold <= 0.0
    ensures PartialProfitDecision([p], p.symbol, Number(threshold), pct)
            == Ok(ClosePart(0.0, ClosePositionRequest(pct)))
  {
  }

  /**
   * `handle_take_partial_profit`: the symbol is upper-cased, the threshold
   * defaults to 0.2 and the percentage to 0.5; a close is issued only when
   * the decision says so. Below the threshold, the reply prints the
   * threshold as a percentage, which an int too large for a float cannot be
   * converted to.
   */
  method HandleTakePartialProfit(client: AlpacaClient, args: Args, positionsOutcome: SdkResult<seq<Position>>,
                                 closeOutcome: SdkResult<Order>)
    returns (reply: Reply)
    requires client.Valid()
    modifies client
    ensures client.Valid()
    ensures SymbolArg(args).Err? ==>
              client.calls == old(client.calls)
              && reply == Failed(ErrorText("taking partial profit", false, SymbolArg(args).error))
    ensures SymbolArg(args).Ok? && positionsOutcome.Raised? ==>
              client.calls == old(client.calls) + [GetAllPositionsCall]
              && reply == Failed(ErrorText("taking partial profit", false,
                                           ApiWrap("get positions", positionsOutcome.error.text)))
    ensures SymbolArg(args).Ok? && positionsOutcome.Returned? ==>
              var symbol := SymbolArg(args).value;
              var threshold := GetOr(args, "profit_threshold", Number(0.2));
              var pct := GetOr(args, "close_percentage", Number(0.5));
              var d := PartialProfitDecision(positionsOutcome.value, symbol, threshold, pct);
              && (d.Ok? && d.value.ClosePart? ==>
                    client.calls == old(client.calls) + [GetAllPositionsCall, ClosePositionCall(symbol, d.value.request)])
              && (!(d.Ok? && d.value.ClosePart?) ==> client.calls == old(client.calls) + [GetAllPositionsCall])
              && (d == Ok(NoPosition) ==> reply == Message("No position found for symbol " + symbol + "."))
              && (d.Err? ==> reply == Failed(ErrorText("taking partial profit", false, d.error)))
              && (d.Ok? && d.value.BelowThreshold? && !(threshold.Int? && BeyondFloat(threshold.i)) ==>
                    reply == ThresholdNotMet(symbol, d.value.plpc, threshold))
              && (d.Ok? && d.value.BelowThreshold? && threshold.Int? && BeyondFloat(threshold.i) ==>
                    reply == Failed(ErrorText("taking partial profit", false,
                                              OverflowError("int too large to convert to float"))))
              && (d.Ok? && d.value.ClosePart? && closeOutcome.Returned? ==>
                    reply == ProfitTaken(symbol, d.value.plpc, threshold, pct, closeOutcome.value))
              && (d.Ok? && d.value.ClosePart? && closeOutcome.Raised? ==>
                    reply == Failed(ErrorText("taking partial profit", false,
                                              ApiWrap("close position for " + symbol, closeOutcome.error.text))))
  {
    var symbolArg := SymbolArg(args);
    if symbolArg.Err? {
      return Failed(ErrorText("taking partial profit", false, symbolArg.error));
    }
    var symbol := symbolArg.value;
    var threshold := GetOr(args, "profit_threshold", Number(0.2));
    var pct := GetOr(args, "close_percentage", Number(0.5));
    var positions := client.GetAllPositions(positionsOutcome);
    if positions.Err? {
      return Failed(ErrorText("taking partial profit", false, positions.error));
    }
    var position := FindPosition(positions.value, symbol);
    if position.None? {
      return Message("No position found for symbol " + symbol + ".");
    }
    var plpc := Plpc(position.value);
    var t := AsReal(threshold);
    if t.Err? {
      return Failed(ErrorText("taking partial profit", false, t.error));
    }
    if plpc < t.value {
      if threshold.Int? && BeyondFloat(threshold.i) {
        return Failed(ErrorText("taking partial profit", false, OverflowError("int too large to convert to float")));
      }
      return ThresholdNotMet(symbol, plpc, threshold);
    }
    var closed := client.ClosePosition(symbol, ClosePositionRequest(pct), closeOutcome);
    if closed.Err? {
      reply := Failed(ErrorText("taking partial profit", false, closed.error));
    } else {
      reply := ProfitTaken(symbol, plpc, threshold, pct, closed.value);
    }
  }
}
