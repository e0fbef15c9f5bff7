/**
 * The stand-alone server alpaca_mcp_server.py, which calls the SDK
 * directly: its startup credential check, the status filter, the
 * success/failure counting over bulk responses, market and limit placement,
 * and the partial-profit rule with its not-found classification. Each tool
 * is a function of its typed parameters and the SDK outcomes, returning the
 * reply and the SDK calls it issued.
 */
module Server {
  import opened Wrappers
  import opened Text
  import opened Exceptions
  import opened Values
  import opened Broker
  import opened Utils
  import opened Settings
  import opened Client
  import Orders

  /** What a tool of the stand-alone server replies with. */
  datatype ServerReply =
    | Text(text: string)
    | OrdersListing(header: string, orders: seq<Order>)
    | OrderPlaced(order: Order)
    | ProfitTaken(symbol: string, closePercentage: real, plpc: real, order: Order)
    | ThresholdNotMet(symbol: string, plpc: real, threshold: real)

  /** A tool's reply together with the SDK calls it issued, in order. */
  datatype Run = Run(reply: ServerReply, calls: seq<SdkCall>)

  const CredentialsMissing := "Alpaca API credentials must be set in environment variables."

  datatype Startup = Started(settings: TradingClientSettings) | StartupFailed(reason: string)

  /**
   * Module initialisation: both credentials must be non-empty, the trading
   * client is always a paper client, and a failing account probe stops the
   * server with the SDK's exception.
   */
  function StartupCheck<A>(env: Env, accountProbe: SdkResult<A>): (s: Startup)
    ensures !HasValue(env, "API_KEY_ID") || !HasValue(env, "API_SECRET_KEY") ==> s == StartupFailed(CredentialsMissing)
    ensures s.Started? <==> HasValue(env, "API_KEY_ID") && HasValue(env, "API_SECRET_KEY") && accountProbe.Returned?
    ensures s.Started? ==> s.settings == TradingClientSettings(env["API_KEY_ID"], env["API_SECRET_KEY"], true, None)
  {
    if !HasValue(env, "API_KEY_ID") || !HasValue(env, "API_SECRET_KEY") then StartupFailed(CredentialsMissing)
    else if accountProbe.Raised? then StartupFailed(accountProbe.error.text)
    else Started(TradingClientSettings(env["API_KEY_ID"], env["API_SECRET_KEY"], true, None))
  }

  const StatusMap: map<string, QueryOrderStatus> := map["open" := Open, "closed" := Closed, "all" := All]

  /** `status_map.get(status.lower(), QueryOrderStatus.ALL)` */
  function ServerQueryStatus(status: string): (q: QueryOrderStatus)
    ensures q == QueryStatusFor(Lower(status))
  {
    if Lower(status) in StatusMap then StatusMap[Lower(status)] else All
  }

  /** `s.capitalize()` on ASCII text. */
  function Capitalize(s: string): (r: string)
    ensures |r| == |s|
    ensures s != [] ==> r[0] == UpperChar(s[0]) && r[1..] == Lower(s[1..])
  {
    if s == [] then "" else [UpperChar(s[0])] + Lower(s[1..])
  }

  /** The text for an SDK exception in a handler with `except APIError` and `except Exception`. */
  function SdkErrorText(apiPrefix: string, e: SdkError): string {
    if e.kind == ApiErrorKind then apiPrefix + e.text else "An unexpected error occurred: " + e.text
  }

  /** `get_orders`: the empty message repeats the status as given, not lower-cased. */
  function GetOrders(status: string, limit: int, outcome: SdkResult<seq<Order>>): (r: Run)
    ensures r.calls == [GetOrdersCall(QueryStatusFor(Lower(status)), Int(limit))]
    ensures outcome.Returned? && outcome.value == [] ==> r.reply == Text("No " + status + " orders found.")
    ensures outcome.Returned? && outcome.value != [] ==>
              r.reply == OrdersListing(Capitalize(status) + " Orders (Last " + NatText(|outcome.value|) + "):\n",
                                       outcome.value)
    ensures outcome.Raised? ==> r.reply == Text(SdkErrorText("API error fetching orders: ", outcome.error))
  {
    var calls := [GetOrdersCall(ServerQueryStatus(status), Int(limit))];
    match outcome
    case Raised(e) => Run(Text(SdkErrorText("API error fetching orders: ", e)), calls)
    case Returned(orders) =>
      if orders == [] then Run(Text("No " + status + " orders found."), calls)
      else Run(OrdersListing(Capitalize(status) + " Orders (Last " + NatText(|orders|) + "):\n", orders), calls)
  }

  /**
   * Market and limit placement: `except (APIError, ValueError)` gives an
   * invalid side, an SDK APIError and any ValueError the SDK raises the same
   * "Error placing ..." prefix; only other exceptions are unexpected.
   */
  function Place(prefix: string, side: string, request: Side -> OrderRequest, outcome: SdkResult<Order>): (r: Run)
    ensures GetOrderSide(side).Err? ==> r == Run(Text(prefix + InvalidSideMessage(side)), [])
    ensures GetOrderSide(side).Ok? ==> r.calls == [SubmitOrderCall(request(GetOrderSide(side).value))]
    ensures GetOrderSide(side).Ok? && outcome.Returned? ==> r.reply == OrderPlaced(outcome.value)
    ensures GetOrderSide(side).Ok? && outcome.Raised? && outcome.error.kind != OtherKind ==>
              r.reply == Text(prefix + outcome.error.text)
    ensures GetOrderSide(side).Ok? && outcome.Raised? && outcome.error.kind == OtherKind ==>
              r.reply == Text("An unexpected error occurred: " + outcome.error.text)
  {
    match GetOrderSide(side)
    case Err(e) => Run(Text(prefix + Exceptions.Str(e)), [])
    case Ok(s) =>
      var calls := [SubmitOrderCall(request(s))];
      match outcome
      case Raised(e) =>
        if e.kind == OtherKind then Run(Text("An unexpected error occurred: " + e.text), calls)
        else Run(Text(prefix + e.text), calls)
      case Returned(order) => Run(OrderPlaced(order), calls)
  }

  /** `place_market_order`: a DAY market order; the symbol is passed as given. */
  function PlaceMarketOrder(symbol: string, side: string, quantity: real, outcome: SdkResult<Order>): (r: Run)
    ensures GetOrderSide(side).Ok? ==>
              r.calls == [SubmitOrderCall(MarketOrderRequest(symbol, Number(quantity), GetOrderSide(side).value,
                                                             Some(Day), None, None, None))]
    ensures GetOrderSide(side).Err? ==> r.calls == [] && r.reply == Text("Error placing market order: " + InvalidSideMessage(side))
  {
    Place("Error placing market order: ", side, s => MarketOrderRequest(symbol, Number(quantity), s, Some(Day), None, None, None), outcome)
  }

  /** `place_limit_order`: a DAY limit order; the symbol is passed as given. */
  function PlaceLimitOrder(symbol: string, side: string, quantity: real, limitPrice: real, outcome: SdkResult<Order>)
    : (r: Run)
    ensures GetOrderSide(side).Ok? ==>
              r.calls == [SubmitOrderCall(LimitOrderRequest(symbol, Number(quantity), GetOrderSide(side).value,
                                                            Number(limitPrice), Some(Day), None, None, None))]
    ensures GetOrderSide(side).Err? ==> r.calls == [] && r.reply == Text("Error placing limit order: " + InvalidSideMessage(side))
  {
    Place("Error placing limit order: ", side, s => LimitOrderRequest(symbol, Number(quantity), s, Number(limitPrice), Some(Day), None, None, None),
          outcome)
  }

  predicate Succeeds(r: StatusResponse) {
    200 <= r.status < 300
  }

  /** The number of responses whose HTTP status is in [200, 300). */
  function Succeeded(responses: seq<StatusResponse>): (n: nat)
    ensures n <= |responses|
  {
    if responses == [] then 0
    else (if Succeeds(responses[0]) then 1 else 0) + Succeeded(responses[1..])
  }

  lemma {:induction false} SucceededAppend(a: seq<StatusResponse>, b: seq<StatusResponse>)
    ensures Succeeded(a + b) == Succeeded(a) + Succeeded(b)
  {
    if a == [] {
      assert a + b == b;
    } else {
      assert (a + b)[1..] == a[1..] + b;
      SucceededAppend(a[1..], b);
    }
  }

  /** Nothing failed exactly when every response succeeded. */
  lemma {:induction false} NoFailureIffAllSucceed(responses: seq<StatusResponse>)
    ensures Succeeded(responses) == |responses| <==> forall i | 0 <= i < |responses| :: Succeeds(responses[i])
  {
    if responses != [] {
      NoFailureIffAllSucceed(responses[1..]);
      assert forall i | 1 <= i < |responses| :: responses[i] == responses[1..][i - 1];
    }
  }

  /** The generator `sum(1 for s in responses if 200 <= s.status < 300)`. */
  method CountSucceeded(responses: seq<StatusResponse>) returns (count: nat)
    ensures count == Succeeded(responses)
  {
    count := 0;
    for i := 0 to |responses|
      invariant count == Succeeded(responses[..i])
    {
      SucceededAppend(responses[..i], [responses[i]]);
      assert responses[..i + 1] == responses[..i] + [responses[i]];
      if Succeeds(responses[i]) {
        count := count + 1;
      }
    }
    assert responses[..|responses|] == responses;
  }

  /** "{s} succeeded, {f} failed." where the two counts partition the responses. */
  function Summary(prefix: string, responses: seq<StatusResponse>): (text: string)
    ensures exists s: nat, f: nat | s + f == |responses| && s == Succeeded(responses) ::
              text == prefix + NatText(s) + " succeeded, " + NatText(f) + " failed."
  {
    var s := Succeeded(responses);
    prefix + NatText(s) + " succeeded, " + NatText(|responses| - s) + " failed."
  }

  /** `cancel_all_orders`: the summary is given even for an empty response. */
  function CancelAllOrders(outcome: SdkResult<seq<StatusResponse>>): (r: Run)
    ensures r.calls == [CancelOrdersCall]
    ensures outcome.Returned? ==> r.reply == Text(Summary("Attempted to cancel all orders. ", outcome.value))
    ensures outcome.Raised? ==> r.reply == Text(SdkErrorText("API error canceling orders: ", outcome.error))
  {
    match outcome
    case Raised(e) => Run(Text(SdkErrorText("API error canceling orders: ", e)), [CancelOrdersCall])
    case Returned(responses) => Run(Text(Summary("Attempted to cancel all orders. ", responses)), [CancelOrdersCall])
  }

  /** `close_all_positions`: one SDK call with the flag; an empty response is "No positions to close.". */
  function CloseAllPositions(cancelOrders: bool, outcome: SdkResult<seq<StatusResponse>>): (r: Run)
    ensures r.calls == [CloseAllPositionsCall(Flag(cancelOrders))]
    ensures outcome.Returned? && outcome.value == [] ==> r.reply == Text("No positions to close.")
    ensures outcome.Returned? && outcome.value != [] ==>
              r.reply == Text(Summary("Attempted to close all positions. ", outcome.value))
    ensures outcome.Raised? ==> r.reply == Text(SdkErrorText("API error closing positions: ", outcome.error))
  {
    var calls := [CloseAllPositionsCall(Flag(cancelOrders))];
    match outcome
    case Raised(e) => Run(Text(SdkErrorText("API error closing positions: ", e)), calls)
    case Returned(responses) =>
      if responses == [] then Run(Text("No positions to close."), calls)
      else Run(Text(Summary("Attempted to close all positions. ", responses)), calls)
  }

  /** The close this server issues: only above the threshold, with the percentage scaled to 0..100. */
  function ServerProfitDecision(plpc: real, threshold: real, closePercentage: real): (d: Option<ClosePositionRequest>)
    ensures d.Some? <==> plpc > threshold
    ensures d.Some? ==> d.value.percentage == Number(closePercentage * 100.0)
  {
    if plpc > threshold then Some(ClosePositionRequest(Number(closePercentage * 100.0))) else None
  }

  /** The reply to an APIError in `take_partial_profit`. */
  function NotFoundOrApiError(symbol: string, text: string): (reply: string)
    ensures Contains(Lower(text), "position not found") ==> reply == "No open position found for " + symbol + "."
    ensures !Contains(Lower(text), "position not found") ==>
              reply == "API error taking partial profit for " + symbol + ": " + text
  {
    if Contains(Lower(text), "position not found") then "No open position found for " + symbol + "."
    else "API error taking partial profit for " + symbol + ": " + text
  }

  /** The error reply of `take_partial_profit` for an SDK exception. */
  function PartialProfitError(symbol: string, e: SdkError): string {
    if e.kind == ApiErrorKind then NotFoundOrApiError(symbol, e.text) else "An unexpected error occurred: " + e.text
  }

  const PlpcMissing := "float() argument must be a string or a real number, not 'NoneType'"

  /**
   * `take_partial_profit`: the symbol is passed as given; a position
   * without a profit figure cannot be converted by `float` and ends in the
   * unexpected-error reply.
   */
  function TakePartialProfit(symbol: string, threshold: real, closePercentage: real,
                             positionOutcome: SdkResult<Position>, closeOutcome: SdkResult<Order>): (r: Run)
    ensures positionOutcome.Raised? ==>
              r == Run(Text(PartialProfitError(symbol, positionOutcome.error)), [GetOpenPositionCall(symbol)])
    ensures positionOutcome.Returned? && positionOutcome.value.unrealizedPlpc.None? ==>
              r == Run(Text("An unexpected error occurred: " + PlpcMissing), [GetOpenPositionCall(symbol)])
    ensures positionOutcome.Returned? && positionOutcome.value.unrealizedPlpc.Some? ==>
              var plpc := positionOutcome.value.unrealizedPlpc.value;
              var d := ServerProfitDecision(plpc, threshold, closePercentage);
              && (d.None? ==> r == Run(ThresholdNotMet(symbol, plpc, threshold), [GetOpenPositionCall(symbol)]))
              && (d.Some? ==> r.calls == [GetOpenPositionCall(symbol), ClosePositionCall(symbol, d.value)])
              && (d.Some? && closeOutcome.Returned? ==>
                    r.reply == ProfitTaken(symbol, closePercentage, plpc, closeOutcome.value))
              && (d.Some? && closeOutcome.Raised? ==> r.reply == Text(PartialProfitError(symbol, closeOutcome.error)))
  {
    var lookup := [GetOpenPositionCall(symbol)];
    match positionOutcome
    case Raised(e) => Run(Text(PartialProfitError(symbol, e)), lookup)
    case Returned(position) =>
      match position.unrealizedPlpc
      case None => Run(Text("An unexpected error occurred: " + PlpcMissing), lookup)
      case Some(plpc) =>
        match ServerProfitDecision(plpc, threshold, closePercentage)
        case None => Run(ThresholdNotMet(symbol, plpc, threshold), lookup)
        case Some(request) =>
          var calls := lookup + [ClosePositionCall(symbol, request)];
          match closeOutcome
          case Raised(e) => Run(Text(PartialProfitError(symbol, e)), calls)
          case Returned(order) => Run(ProfitTaken(symbol, closePercentage, plpc, order), calls)
  }

  /**
   * The two partial-profit rules disagree on whether to close exactly when
   * the profit equals the threshold: the tool handler closes there, this
   * server does not.
   */
  lemma ProfitRulesDifferOnlyAtThreshold(p: Position, plpc: real, threshold: real, closePercentage: real)
    requires p.unrealizedPlpc == Some(plpc)
    ensures var handler := Orders.PartialProfitDecision([p], p.symbol, Number(threshold), Number(closePercentage));
            handler.Ok? && (handler.value.ClosePart? != ServerProfitDecision(plpc, threshold, closePercentage).Some?
                            <==> plpc == threshold)
  {
  }

  /** The not-found test ignores case and looks for the phrase anywhere in the text. */
  lemma NotFoundExamples()
    ensures NotFoundOrApiError("AAPL", "Position not found") == "No open position found for AAPL."
    ensures NotFoundOrApiError("AAPL", "forbidden") == "API error taking partial profit for AAPL: forbidden"
  {
    assert Lower("Position not found") == "position not found";
    assert StartsWith(Lower("Position not found"), "position not found");
    var t := Lower("forbidden");
    assert t == "forbidden";
    assert !Contains(t, "position not found");
  }
}
