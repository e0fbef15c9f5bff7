# invest-pilot, modelled in Dafny

invest-pilot is an MCP server. It lets an assistant trade on an Alpaca brokerage account through tools:
- placing market, limit, bracket, OCO, OTO and trailing-stop orders;
- listing and cancelling orders;
- closing positions and taking partial profit;
- reading market data.

There are two front ends:
- `src/main.py` registers thin wrappers around the handlers in `src/brokers/alpaca/tools/`. Those handlers use the `AlpacaClient` wrapper of `src/brokers/alpaca/client.py`.
- `alpaca_mcp_server.py` is an older stand-alone server. It calls the Alpaca SDK directly.

The model covers the decision rules in front of and behind the SDK calls. The SDK itself is outside the model. Each SDK call's outcome is a parameter: either a returned value or a raised exception with its text. The client keeps a ghost trace of the calls it issued.

| file | module | models |
|---|---|---|
| `wrappers.dfy` | `Wrappers` | `Option` and `Result` (Result supports `:-`) |
| `text.dfy` | `Text` | ASCII `lower`/`upper`, substring search, `str(n)` |
| `exceptions.dfy` | `Exceptions` | the exceptions that reach the handlers, `str(e)`, which `except` clause catches them |
| `values.dfy` | `Values` | tool arguments as a dictionary of JSON values, truthiness, `d[k]`, `d.get`, string methods on untyped values |
| `broker.dfy` | `Broker` | the SDK's request and response records, the order-status filter |
| `utils.dfy` | `Utils` | `get_order_side` and the redaction of logged parameters |
| `settings.dfy` | `Settings` | configuration validation and loading from an environment map |
| `client.dfy` | `Client` | `AlpacaClient`: SDK call order, APIError wrapping, lenient side mapping, not-found handling |
| `order_requests.dfy` | `OrderRequests` | turning a handler's arguments into one order request, or the exception raised before submission |
| `orders.dfy` | `Orders` | the order tool handlers: submission, listings, the partial-profit rule |
| `market_data.dfy` | `MarketData` | the "last N bars" rule and the empty-data branch |
| `server.dfy` | `Server` | the stand-alone server's startup check, status map, counting and partial-profit rule |
| `tool_server.dfy` | `ToolServer` | the lazily created process-wide client and the tool wrappers |

## Model

| member | source | states |
|---|---|---|
| `Exceptions.Classify` | src/brokers/alpaca/tools/orders.py:109-117 | a ValueError is a validation error only in handlers with `except ValueError`; the project's APIError is always the API category |
| `Broker.QueryStatusFor` | src/brokers/alpaca/tools/orders.py:25-34 | "open" gives OPEN, "closed" gives CLOSED, and every other string gives ALL (each case as an if-and-only-if) |
| `Utils.GetOrderSide` | src/core/utils.py:7-26 | BUY iff the lower-cased side is "buy"; SELL iff it is "sell"; otherwise a ValueError quoting the side as given, and no third result |
| `Utils.GetOrderSideExamples` | src/core/utils.py:20-26 | "BUY", "Buy", "SELL" and "sElL" are accepted; "hold", " buy" and "" are refused |
| `Utils.Redact` | src/core/utils.py:38 | a key survives iff its lower-case form is not password, token or key; surviving values are unchanged; the result is a sub-map |
| `Utils.RedactMatchesWholeKeys` | src/core/utils.py:38 | the match is on whole keys: "api_key" and "API_TOKEN" are kept, "Password", "TOKEN" and "Key" are removed |
| `Settings.NewAlpacaConfig` | src/config/settings.py:24-29 | an empty API key raises InvalidConfigurationError first; otherwise an empty secret raises; anything else is accepted as given |
| `Settings.NewServerConfig` | src/config/settings.py:36-40 | a log level is accepted iff its upper-case form is one of the five level names; the error repeats the level as given |
| `Settings.LoadAlpacaConfig` | src/config/settings.py:42-93 | key and secret fall back from ALPACA_* to the second name when unset or empty; the API-key error comes before the secret error; paper is true unless ALPACA_PAPER is set to something other than "true" in any case; base URL is ALPACA_BASE_URL, else APCA_API_BASE_URL |
| `Settings.PaperByDefault` | src/config/settings.py:63-73 | with ALPACA_PAPER unset, the paper flag is true whatever APCA_API_BASE_URL holds |
| `Settings.LoaderChecksSubsumeValidation` | src/config/settings.py:79-93 | the loader fails only with its own two messages, and every configuration it builds passes the dataclass validation |
| `Settings.LoadServerConfig` | src/config/settings.py:95-104 | LOG_LEVEL defaults to INFO; a set value goes through ServerConfig validation |
| `Settings.LogLevelExamples` | src/config/settings.py:36-40 | "debug" and "Warning" are accepted; "TRACE" and "" are refused |
| `Client.ApiWrap` | src/brokers/alpaca/client.py:46-52 | the wrapped exception is an APIError for broker "alpaca" whose message is "Failed to {action}: {cause}" and which keeps the cause |
| `Client.Wrapped` | src/brokers/alpaca/client.py:46-52 | a returned SDK value passes through unchanged; any raised exception becomes the APIError for that action |
| `Client.Rewrapped` | src/brokers/alpaca/client.py:160-163 | an outer wrapper passes success through and wraps the inner APIError's text once more |
| `Client.LenientSide` | src/brokers/alpaca/client.py:172 | BUY iff the lower-cased side is "buy", SELL for every other string |
| `Client.LenientSideAgreesWithStrict` | src/brokers/alpaca/client.py:191 | the lenient mapping agrees with `get_order_side` wherever that accepts the side, and gives SELL where it refuses |
| `Client.CloseAllKeepsOrder` | src/brokers/alpaca/client.py:91-102 | a truthy flag issues a cancel before the close, a failed cancel issues no close, a false flag issues no cancel, the flag is forwarded unchanged; every bulk close that cancels stays right after a cancel |
| `Client.AlpacaClient.constructor` | src/brokers/alpaca/client.py:15-38 | the trading client gets key, secret, paper flag and base URL; the data client gets key and secret; no SDK call yet |
| `Client.AlpacaClient.GetAccount` | src/brokers/alpaca/client.py:46-52 | one account call; the result is the call's outcome wrapped |
| `Client.AlpacaClient.GetAllPositions` | src/brokers/alpaca/client.py:54-60 | one positions call; the result is the outcome wrapped |
| `Client.AlpacaClient.GetOrders` | src/brokers/alpaca/client.py:62-73 | one orders call carrying the status and limit; the result is the outcome wrapped |
| `Client.AlpacaClient.SubmitOrder` | src/brokers/alpaca/client.py:75-81 | one submission of exactly the given request; the result is the outcome wrapped |
| `Client.AlpacaClient.CancelAllOrders` | src/brokers/alpaca/client.py:83-89 | one cancel call; the result is the outcome wrapped |
| `Client.AlpacaClient.CloseAllPositions` | src/brokers/alpaca/client.py:91-102 | the calls are those of `CloseAllCalls`; a failed cancel ends with the close-all APIError; otherwise the close outcome is wrapped |
| `Client.AlpacaClient.ClosePosition` | src/brokers/alpaca/client.py:104-110 | one close call for the symbol with the request; the error names the symbol |
| `Client.AlpacaClient.GetLatestQuote` | src/brokers/alpaca/client.py:112-122 | the symbol's entry of the response; a missing entry is a KeyError turned into the APIError |
| `Client.AlpacaClient.GetStockBars` | src/brokers/alpaca/client.py:124-146 | the symbol's bar list; a missing entry is a KeyError turned into the APIError |
| `Client.AlpacaClient.ListOrders` | src/brokers/alpaca/client.py:148-163 | the orders call carries the status rule applied to the lower-cased status; errors are wrapped twice |
| `Client.AlpacaClient.SubmitMarketOrder` | src/brokers/alpaca/client.py:165-182 | submits a market request with the given symbol and quantity, the lenient side and no time in force |
| `Client.AlpacaClient.SubmitLimitOrder` | src/brokers/alpaca/client.py:184-202 | submits a limit request with the lenient side and no time in force |
| `Client.AlpacaClient.GetPosition` | src/brokers/alpaca/client.py:204-213 | one open-position call; the result is `PositionLookup` of its outcome |
| `Client.PositionLookup` | src/brokers/alpaca/client.py:206-213 | no position iff the lower-cased exception text contains "position does not exist"; any other failure is the APIError "Failed to get position for {symbol}: …" |
| `OrderRequests.SymbolArg` | src/brokers/alpaca/tools/orders.py:85 | the upper-cased symbol; a missing key is a KeyError; a non-string raises |
| `OrderRequests.SideArg` | src/brokers/alpaca/tools/orders.py:86 | `get_order_side` on the side argument; the only ValueError is a refused side string |
| `OrderRequests.OrderTypeArg` | src/brokers/alpaca/tools/orders.py:280 | the lower-cased order type, "market" when absent |
| `OrderRequests.TimeInForceFor` | src/brokers/alpaca/tools/orders.py:292 | GTC iff the name is exactly "GTC", otherwise DAY |
| `OrderRequests.TimeInForceArg` | src/brokers/alpaca/tools/orders.py:285-292 | GTC iff the upper-cased argument (or default) is "GTC"; a non-string raises |
| `OrderRequests.StopLeg` | src/brokers/alpaca/tools/orders.py:300-303 | the stop-loss leg carries a limit price iff the stop-loss limit price is truthy |
| `OrderRequests.BuildMarketOrder` | src/brokers/alpaca/tools/orders.py:85-94 | built iff symbol, side and quantity read; a DAY market request for the upper-cased symbol; the only ValueError is an invalid side |
| `OrderRequests.BuildLimitOrder` | src/brokers/alpaca/tools/orders.py:124-135 | built iff symbol, side, quantity and limit price read; a DAY limit request for the upper-cased symbol |
| `OrderRequests.BuildBracketOrder` | src/brokers/alpaca/tools/orders.py:277-326 | a "limit" type with a falsy limit price raises; otherwise limit entry iff the type is "limit", market for any other type, class BRACKET, both legs, time in force by the GTC rule |
| `OrderRequests.BuildOcoOrder` | src/brokers/alpaca/tools/orders.py:366-394 | always a SELL limit request at the take-profit price, class OCO, both legs; never a ValueError |
| `OrderRequests.CurrencyFormatError` | src/core/utils.py:41-51 | `format_currency` fails iff the amount is None (TypeError), a string (ValueError) or an int beyond the range of a float (OverflowError) |
| `OrderRequests.ExitFormatError` | src/brokers/alpaca/tools/orders.py:451-463 | describing the OTO exit leg fails iff a price it prints cannot be formatted: the take-profit price when truthy, else the stop-loss price, then the stop-loss limit price when truthy |
| `OrderRequests.BuildOtoOrder` | src/brokers/alpaca/tools/orders.py:428-487 | fails unless exactly one exit price is not None; that check precedes the limit check, which precedes the exit-leg formatting, whose exception is raised before submission; a built request carries exactly one leg, take-profit iff its price is truthy |
| `OrderRequests.PercentTrailFormatError` | src/brokers/alpaca/tools/orders.py:556 | formatting a percent trail fails before submission iff the amount is None (TypeError), a string (ValueError) or an int whose product with 100 is beyond the range of a float (OverflowError) |
| `OrderRequests.HugePercentTrailIsRefused` | src/brokers/alpaca/tools/orders.py:539-556 | an int amount too large for a float is refused as a percent trail but passed on as a price trail |
| `OrderRequests.BuildTrailingStopOrder` | src/brokers/alpaca/tools/orders.py:524-556 | an unknown trail type raises; "price" sets only the trail price, "percent" only the trail percent, both to the trail amount; a percent trail that cannot be formatted raises the formatting exception; time in force defaults to DAY |
| `OrderRequests.InvalidSideBuildsNothing` | src/brokers/alpaca/tools/orders.py:86 | a refused side yields the same ValueError from every handler that reads a side |
| `OrderRequests.TimeInForceDefaults` | src/brokers/alpaca/tools/orders.py:529 | an illustration: without the argument, the advanced orders use GTC and the trailing stop uses DAY |
| `OrderRequests.TimeInForceExamples` | src/brokers/alpaca/tools/orders.py:292 | illustrations: "Gtc" gives GTC; "ioc" and " gtc" give DAY; None raises AttributeError |
| `OrderRequests.OtoFalsyTakeProfitIsRefused` | src/brokers/alpaca/tools/orders.py:439-463 | a falsy but present take-profit price with no stop-loss price passes the None test, then formatting the None stop-loss price raises TypeError before submission (with the SDK's request validation left out) |
| `OrderRequests.BracketUnknownTypeIsMarket` | src/brokers/alpaca/tools/orders.py:306-326 | a bracket order whose type is "stop" is not refused: it goes out as a market order |
| `Orders.ErrorText` | src/brokers/alpaca/tools/orders.py:109-117 | "Invalid parameters: ", "Error {action}: " or "Unexpected error: " followed by the exception text, by the catching clause |
| `Orders.PlaceOrder` | src/brokers/alpaca/tools/orders.py:96 | a request that could not be built is answered with no SDK call; a built one is submitted exactly once |
| `Orders.HandlePlaceMarketOrder` | src/brokers/alpaca/tools/orders.py:80-117 | a request that cannot be built is answered by the clause that catches its exception (an invalid side: "Invalid parameters: ...", a missing key: "Unexpected error: ...") with nothing submitted; a built request is submitted once and its outcome answered |
| `Orders.HandlePlaceLimitOrder` | src/brokers/alpaca/tools/orders.py:119-159 | as for market orders, with the limit request: every build error answered with no SDK call, a built request submitted once |
| `Orders.HandlePlaceBracketOrder` | src/brokers/alpaca/tools/orders.py:272-358 | submits the bracket request or answers the build error, with no SDK call then |
| `Orders.HandlePlaceOcoOrder` | src/brokers/alpaca/tools/orders.py:361-420 | as above; this handler has no ValueError clause |
| `Orders.HandlePlaceOtoOrder` | src/brokers/alpaca/tools/orders.py:423-516 | submits the OTO request or answers the build error (including an exit-leg formatting error) by its catching clause, with no SDK call then |
| `Orders.HandlePlaceTrailingStopOrder` | src/brokers/alpaca/tools/orders.py:519-582 | submits the trailing-stop request or answers the build error, with no SDK call then |
| `Orders.IfTruthy` | src/brokers/alpaca/tools/orders.py:59-63 | an optional number is kept iff it is truthy |
| `Orders.EntryOf` | src/brokers/alpaca/tools/orders.py:50-63 | a listing entry copies id, symbol, quantity, side, order type, order class and status; filled quantity becomes "0" and optional prices become None when falsy |
| `Orders.CollectOrders` | src/brokers/alpaca/tools/orders.py:49-68 | one entry per order, in order |
| `Orders.HandleGetOrders` | src/brokers/alpaca/tools/orders.py:20-78 | the status rule on the lower-cased status, limit 10 by default, "No {status} orders found." for an empty list, otherwise the count and one entry per order; a non-string status issues no SDK call |
| `Orders.LinesAppend` | src/brokers/alpaca/tools/orders.py:171-173 | the listing of a concatenation is the concatenation of the listings |
| `Orders.ListingText` | src/brokers/alpaca/tools/orders.py:170-173 | the accumulated text is the header followed by one line per item, in order |
| `Orders.HandleCancelAllOrders` | src/brokers/alpaca/tools/orders.py:161-183 | one cancel call; an empty result is "No orders to cancel."; otherwise the count and one line per order |
| `Orders.HandleCloseAllPositions` | src/brokers/alpaca/tools/orders.py:185-209 | cancel_orders defaults to True and is forwarded; an empty result is "No positions to close."; otherwise the count and one line per position |
| `Orders.FirstMatch` | src/brokers/alpaca/tools/orders.py:222-227 | None iff no position has the symbol; otherwise the index of the first one that has it |
| `Orders.FindPosition` | src/brokers/alpaca/tools/orders.py:222-227 | the search loop returns exactly the first position with the symbol, or nothing |
| `Orders.PartialProfitDecision` | src/brokers/alpaca/tools/orders.py:221-248 | no position iff none matches; otherwise the first match with a missing profit read as 0 is closed by close_percentage iff its profit is at least the threshold |
| `Orders.MissingPlpcCountsAsZero` | src/brokers/alpaca/tools/orders.py:235 | a position without a profit figure counts as 0 profit, so it is partly closed whenever the threshold is at most 0 |
| `Orders.HandleTakePartialProfit` | src/brokers/alpaca/tools/orders.py:211-265 | upper-cased symbol, defaults 0.2 and 0.5, a close call only when the decision closes, and the reply for each decision; below the threshold, an int threshold beyond float range gives "Unexpected error: int too large to convert to float" |
| `MarketData.SliceFrom` | src/brokers/alpaca/tools/market_data.py:74 | Python's `s[start:]` is a suffix of length len-start, or -start from the end |
| `MarketData.TruncateBars` | src/brokers/alpaca/tools/market_data.py:74 | always a suffix; exactly the last `days` bars when 1 <= days < len; unchanged when len <= days or days = 0 |
| `MarketData.ZeroDaysKeepsAll` | src/brokers/alpaca/tools/market_data.py:74 | `bars[-0:]` keeps every bar |
| `MarketData.TruncateIdempotent` | src/brokers/alpaca/tools/market_data.py:74 | truncating twice to the same positive count is truncating once |
| `MarketData.LookbackError` | src/brokers/alpaca/tools/market_data.py:56-57 | with the clock reading as a parameter, the look-back fails iff days is None or a string (TypeError) or the start date, now minus twice days, leaves the range of `datetime` (OverflowError) |
| `MarketData.LookbackLimits` | src/brokers/alpaca/tools/market_data.py:56-57 | two million days back or forward overflows at any clock reading; the default five days does not, from the eleventh day of year 1 on |
| `MarketData.KeepLast` | src/brokers/alpaca/tools/market_data.py:74 | an int days truncates, a bool counts as 0 or 1; a float days is accepted only when it is at least the number of bars, and then keeps them all; the result is always a suffix |
| `MarketData.StockBarsReply` | src/brokers/alpaca/tools/market_data.py:47-95 | upper-cased symbol, days 5 by default; a failing look-back gives the unexpected-error reply; otherwise "No bar data" iff the symbol's entry is missing or empty, else the truncated bars, or the unexpected-error reply when truncation raises |
| `Server.StartupCheck` | alpaca_mcp_server.py:49-69 | a missing or empty API_KEY_ID or API_SECRET_KEY stops startup with the credentials message; otherwise startup succeeds iff the account probe returns, and the trading client is a paper client with both keys |
| `Server.ServerQueryStatus` | alpaca_mcp_server.py:256-261 | the status map looked up by the lower-cased status agrees with the handler's status rule |
| `Server.Capitalize` | alpaca_mcp_server.py:270 | the first character upper-cased, the rest lower-cased |
| `Server.GetOrders` | alpaca_mcp_server.py:246-296 | one orders call; the empty message repeats the status as given; otherwise a header with the count |
| `Server.Place` | alpaca_mcp_server.py:310-339 | an invalid side, an SDK APIError and a ValueError raised by the SDK get the same "Error placing ..." prefix; any other exception is unexpected; an invalid side issues no call |
| `Server.PlaceMarketOrder` | alpaca_mcp_server.py:299-339 | a DAY market request with the symbol as given and `_get_order_side`'s side |
| `Server.PlaceLimitOrder` | alpaca_mcp_server.py:342-385 | a DAY limit request with the symbol as given |
| `Server.Succeeded` | alpaca_mcp_server.py:395 | the number of responses with status in [200, 300), never more than the list length |
| `Server.SucceededAppend` | alpaca_mcp_server.py:395 | the count over a concatenation is the sum of the counts |
| `Server.NoFailureIffAllSucceed` | alpaca_mcp_server.py:395-396 | the failed count is zero iff every response succeeded |
| `Server.CountSucceeded` | alpaca_mcp_server.py:395 | the counting loop computes `Succeeded` |
| `Server.Summary` | alpaca_mcp_server.py:395-398 | the succeeded and failed counts are non-negative and add up to the number of responses |
| `Server.CancelAllOrders` | alpaca_mcp_server.py:388-406 | one cancel call and the summary, given even for an empty response |
| `Server.CloseAllPositions` | alpaca_mcp_server.py:413-438 | one close-all call with the flag; "No positions to close." for an empty response, otherwise the summary |
| `Server.ServerProfitDecision` | alpaca_mcp_server.py:459-466 | closes iff the profit is strictly above the threshold, with percentage close_percentage*100 |
| `Server.NotFoundOrApiError` | alpaca_mcp_server.py:482-487 | "No open position found" iff the lower-cased error text contains "position not found"; otherwise the API error reply |
| `Server.TakePartialProfit` | alpaca_mcp_server.py:441-490 | a lookup call; a missing profit figure is an unexpected error; a close call only above the threshold |
| `Server.ProfitRulesDifferOnlyAtThreshold` | alpaca_mcp_server.py:459 | the handler's rule and this server's rule disagree exactly when the profit equals the threshold |
| `Server.NotFoundExamples` | alpaca_mcp_server.py:483-485 | "Position not found" counts as not found; "forbidden" does not |
| `ToolServer.ConnectError` | src/brokers/alpaca/client.py:42-44 | construction failure is a BrokerConnectionError "Failed to connect to Alpaca: ..." |
| `ToolServer.ToolServer.constructor` | src/main.py:42-44 | no client and no logger at start |
| `ToolServer.ToolServer.GetAlpacaClient` | src/main.py:46-66 | a stored client is returned without reloading configuration; otherwise server then Alpaca configuration, the logger only if unset, a fresh client stored; on any failure nothing is stored |
| `ToolServer.MarketToolForwardsParameters` | src/main.py:186-188 | through the market wrapper a request is built iff the side is valid, with the upper-cased symbol and the quantity as given |
| `ToolServer.BracketToolDefaults` | src/main.py:301-306 | with the wrapper's defaults a bracket order is a GTC market order with a plain stop leg |
| `ToolServer.PlaceMarketOrderTool` | src/main.py:173-192 | the client is obtained first (a stored one is reused; a configuration or connection failure propagates); the parameters are forwarded as the handler's argument map; a built request is submitted once through the server's client and the handler's reply is returned; otherwise the build error's reply with no SDK call |

## Left out

- SDK and HTTP behaviour. Every SDK call's outcome is a parameter. The SDK's own validation and coercion of request fields are not modelled: a request holds the argument values exactly as the handler passed them.
- Response element types. The cancel and close handlers of `orders.py` are modelled on the records their text reads. These are orders with id, symbol, side and quantity, and positions with symbol, side and quantity. What the SDK really returns for these calls is not modelled.
- Decimal text. The brokerage sends numbers as decimal text. `float(...)` conversion of that text is not modelled. Listing entries keep the text. A position's profit fraction is a `real` or absent.
- Text rendering of success replies. This covers float formatting (`format_currency`, `:.2f`, `:.2%`, thousands separators), timestamps and enum rendering. Replies are the values they display. Rendering errors that would occur after an order was submitted are not modelled. Those raised before any submission are: the OTO exit leg, the percent trail, and the threshold printed when a partial profit is not taken.
- `Server.ServerProfitDecision`: passes `str(close_percentage * 100)` as the percentage. The model keeps the exact product, because float-to-text conversion and float rounding are not modelled (the float product 0.07 * 100 is 7.000000000000001).
- Float arithmetic. A float argument is an exact `real`: rounding, and overflow of a float product to infinity, are not modelled. Int-to-float overflow is modelled where it happens before submission: in `OrderRequests.PercentTrailFormatError`, `OrderRequests.CurrencyFormatError` and the below-threshold reply of `Orders.HandleTakePartialProfit`.
- Case mapping is ASCII only. Python's `lower`/`upper` also map non-ASCII letters.
- Date arithmetic. The clock reading is a parameter of `MarketData.StockBarsReply`, in days since `datetime.min`. Only whether the look-back computation raises is kept, not the dates it computes.
- `MarketData.LookbackError`: uses the message "date value out of range" for every overflow. Python's message differs when the doubled day count also exceeds the `timedelta` limit of 999999999 days. The microsecond rounding of a float look-back is not modelled, so a start date within a microsecond of `datetime.min` may be judged differently.
- The bars handler calls `get_stock_bars` with keywords the client does not accept. The quote handler tests membership on a single quote. Both mismatches are not modelled: only the truncation rule and the empty-data branch are, over a bars response given as a map.
- The display-only handlers: account info, positions, quote, ping, and the stand-alone server's account, position, quote and bars tools. They only render SDK data.
- MCP transport, decorators, async/await, `ctx.info`/`ctx.error`, `.env` loading, logging setup and every log call. `mcp_dev_adapter.py` is not part of this model.
- Tool wrappers of `src/main.py`: only the market and bracket argument dictionaries and the market wrapper are modelled. The other wrappers differ only in their parameter names.
- The stand-alone server's order listing: the per-order text is not modelled, only the header and the orders.
- `Client.AlpacaClient.constructor`: does not model the constructor raising. That failure is modelled where it is caught, in `ToolServer.ToolServer.GetAlpacaClient`, through `ToolServer.ConnectError`.
