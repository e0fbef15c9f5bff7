/**
 * src/main.py: the process-wide AlpacaClient, created on first use from the
 * environment, and the tool wrappers that hand their parameters to the
 * handlers as an argument dictionary.
 */
module ToolServer {
  import opened Wrappers
  import opened Text
  import opened Exceptions
  import opened Values
  import opened Broker
  import opened Utils
  import opened Settings
  import opened Client
  import opened OrderRequests
  import Orders

  /** The exception `AlpacaClient.__init__` raises when the SDK clients cannot be created. */
  function ConnectError(cause: string): (e: Exception)
    ensures e.BrokerConnection? && e.msg == "Failed to connect to Alpaca: " + cause
  {
    BrokerConnection("Failed to connect to Alpaca: " + cause)
  }

  /** The module globals `_alpaca_client` and `_logger`. */
  class ToolServer {
    var alpacaClient: AlpacaClient?
    /** The log level `_logger` was set up with, once it has been. */
    var loggerLevel: Option<string>
    /** How many times the configuration has been loaded. */
    ghost var configLoads: nat

    ghost predicate Valid()
      reads this, alpacaClient
    {
      alpacaClient != null ==> alpacaClient.Valid()
    }

    constructor ()
      ensures alpacaClient == null && loggerLevel == None && configLoads == 0 && Valid()
    {
      alpacaClient := null;
      loggerLevel := None;
      configLoads := 0;
    }

    /**
     * `get_alpaca_client`: a stored client is returned as it is, without
     * loading the configuration again. Otherwise the server configuration,
     * then the Alpaca configuration is loaded, the logger is set up if it
     * is not yet, and a new client is stored; any exception propagates and
     * leaves no client stored, so the next call starts over.
     * `connectFailure` is the text of the exception the SDK clients raise, if any.
     */
    method GetAlpacaClient(env: Env, connectFailure: Option<string>) returns (r: Result<AlpacaClient, Exception>)
      requires Valid()
      modifies this
      ensures Valid()
      ensures old(alpacaClient) != null ==>
                r == Ok(old(alpacaClient)) && alpacaClient == old(alpacaClient)
                && loggerLevel == old(loggerLevel) && configLoads == old(configLoads)
      ensures old(alpacaClient) == null ==> configLoads == old(configLoads) + 1
      ensures old(alpacaClient) == null && LoadServerConfig(env).Err? ==>
                r == Err(LoadServerConfig(env).error) && alpacaClient == null && loggerLevel == old(loggerLevel)
      ensures old(alpacaClient) == null && LoadServerConfig(env).Ok? && LoadAlpacaConfig(env).Err? ==>
                r == Err(LoadAlpacaConfig(env).error) && alpacaClient == null && loggerLevel == old(loggerLevel)
      ensures old(alpacaClient) == null && LoadServerConfig(env).Ok? && LoadAlpacaConfig(env).Ok? ==>
                && loggerLevel == (if old(loggerLevel).None? then Some(LoadServerConfig(env).value.logLevel)
                                   else old(loggerLevel))
                && (connectFailure.Some? ==> r == Err(ConnectError(connectFailure.value)) && alpacaClient == null)
                && (connectFailure.None? ==>
                      r.Ok? && fresh(r.value) && alpacaClient == r.value
                      && r.value.config == LoadAlpacaConfig(env).value && r.value.calls == [])
      ensures r.Ok? ==> r.value.Valid() && alpacaClient == r.value
    {
      if alpacaClient != null {
        return Ok(alpacaClient);
      }
      configLoads := configLoads + 1;
      var serverConfig := LoadServerConfig(env);
      if serverConfig.Err? {
        return Err(serverConfig.error);
      }
      var alpacaConfig := LoadAlpacaConfig(env);
      if alpacaConfig.Err? {
        return Err(alpacaConfig.error);
      }
      if loggerLevel.None? {
        loggerLevel := Some(serverConfig.value.logLevel);
      }
      if connectFailure.Some? {
        return Err(ConnectError(connectFailure.value));
      }
      var client := new AlpacaClient(alpacaConfig.value);
      alpacaClient := client;
      r := Ok(client);
    }
  }

  /** The argument dictionary of the `place_market_order` tool. */
  function MarketToolArgs(symbol: string, side: string, quantity: real): Args {
    map["symbol" := Str(symbol), "side" := Str(side), "quantity" := Number(quantity)]
  }

  /** `None` or the given float. */
  function Optional(x: Option<real>): Value {
    if x.Some? then Number(x.value) else Null
  }

  /** The argument dictionary of the `place_bracket_order` tool; every parameter is passed, defaults included. */
  function BracketToolArgs(symbol: string, side: string, quantity: real, takeProfitPrice: real, stopLossPrice: real,
                           orderType: string, limitPrice: Option<real>, stopLossLimitPrice: Option<real>,
                           timeInForce: string): Args {
    map["symbol" := Str(symbol), "side" := Str(side), "quantity" := Number(quantity),
        "order_type" := Str(orderType), "limit_price" := Optional(limitPrice),
        "take_profit_price" := Number(takeProfitPrice), "stop_loss_price" := Number(stopLossPrice),
        "stop_loss_limit_price" := Optional(stopLossLimitPrice), "time_in_force" := Str(timeInForce)]
  }

  /**
   * Through the `place_market_order` tool a request is built exactly when
   * the side is valid, for the upper-cased symbol and the quantity as given.
   */
  lemma MarketToolForwardsParameters(symbol: string, side: string, quantity: real)
    ensures BuildMarketOrder(MarketToolArgs(symbol, side, quantity)).Ok? <==> GetOrderSide(side).Ok?
    ensures GetOrderSide(side).Ok? ==>
              BuildMarketOrder(MarketToolArgs(symbol, side, quantity))
              == Ok(MarketOrderRequest(Upper(symbol), Number(quantity), GetOrderSide(side).value, Some(Day), None, None, None))
    ensures GetOrderSide(side).Err? ==>
              BuildMarketOrder(MarketToolArgs(symbol, side, quantity)) == Err(ValueError(InvalidSideMessage(side)))
  {
  }

  /**
   * With the bracket tool's defaults (market entry, no limit prices, "gtc")
   * a valid side gives a GTC market bracket order with a plain stop leg.
   */
  lemma BracketToolDefaults(symbol: string, side: string, quantity: real, takeProfitPrice: real, stopLossPrice: real)
    requires GetOrderSide(side).Ok?
    ensures var args := BracketToolArgs(symbol, side, quantity, takeProfitPrice, stopLossPrice, "market", None, None, "gtc");
            BuildBracketOrder(args)
            == Ok(MarketOrderRequest(Upper(symbol), Number(quantity), GetOrderSide(side).value, Some(Gtc), Some(Bracket),
                                     Some(TakeProfitRequest(Number(takeProfitPrice))),
                                     Some(StopLossRequest(Number(stopLossPrice), None))))
  {
    assert Lower("market") == "market";
    assert Upper("gtc") == "GTC";
  }

  /**
   * The `place_market_order` tool: the client is obtained (its exception
   * propagates), then the handler's reply is returned.
   */
  method PlaceMarketOrderTool(server: ToolServer, env: Env, connectFailure: Option<string>,
                              symbol: string, side: string, quantity: real, outcome: SdkResult<Order>)
    returns (r: Result<Orders.Reply, Exception>)
    requires server.Valid()
    modifies server, server.alpacaClient
    ensures server.Valid()
    ensures old(server.alpacaClient) != null ==> r.Ok? && server.alpacaClient == old(server.alpacaClient)
    ensures old(server.alpacaClient) == null ==>
              (r.Ok? <==> LoadServerConfig(env).Ok? && LoadAlpacaConfig(env).Ok? && connectFailure.None?)
    ensures old(server.alpacaClient) == null && LoadServerConfig(env).Err? ==> r == Err(LoadServerConfig(env).error)
    ensures old(server.alpacaClient) == null && LoadServerConfig(env).Ok? && LoadAlpacaConfig(env).Err? ==>
              r == Err(LoadAlpacaConfig(env).error)
    ensures (old(server.alpacaClient) == null && LoadServerConfig(env).Ok? && LoadAlpacaConfig(env).Ok?
             && connectFailure.Some?) ==> r == Err(ConnectError(connectFailure.value))
    ensures r.Ok? ==> server.alpacaClient != null
    ensures var request := BuildMarketOrder(MarketToolArgs(symbol, side, quantity));
            r.Ok? && request.Err? ==> r.value == Orders.Failed(Orders.ErrorText("placing market order", true, request.error))
    ensures var request := BuildMarketOrder(MarketToolArgs(symbol, side, quantity));
            r.Ok? && request.Ok? ==>
              r.value == Orders.SubmitReply("placing market order", true, Wrapped("submit order", outcome))
    ensures var request := BuildMarketOrder(MarketToolArgs(symbol, side, quantity));
            old(server.alpacaClient) != null ==>
              server.alpacaClient.calls == old(server.alpacaClient.calls)
                                           + (if request.Ok? then [SubmitOrderCall(request.value)] else [])
    ensures var request := BuildMarketOrder(MarketToolArgs(symbol, side, quantity));
            old(server.alpacaClient) == null && r.Ok? ==>
              server.alpacaClient.calls == (if request.Ok? then [SubmitOrderCall(request.value)] else [])
  {
    var client := server.GetAlpacaClient(env, connectFailure);
    if client.Err? {
      return Err(client.error);
    }
    var reply := Orders.HandlePlaceMarketOrder(client.value, MarketToolArgs(symbol, side, quantity), outcome);
    r := Ok(reply);
  }
}
