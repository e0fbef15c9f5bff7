/** src/core/utils.py: order-side parsing and the redaction of logged parameters. */
module Utils {
  import opened Wrappers
  import opened Text
  import opened Exceptions
  import opened Broker

  function InvalidSideMessage(side: string): string {
    "Invalid order side: '" + side + "'. Must be 'buy' or 'sell'."
  }

  /** `get_order_side`: case-insensitive "buy" / "sell"; anything else raises ValueError. */
  function GetOrderSide(side: string): (r: Result<Side, Exception>)
    ensures r == Ok(Buy) <==> Lower(side) == "buy"
    ensures r == Ok(Sell) <==> Lower(side) == "sell"
    ensures r.Err? <==> Lower(side) != "buy" && Lower(side) != "sell"
    ensures r.Err? ==> r.error == ValueError(InvalidSideMessage(side))
  {
    var lowered := Lower(side);
    if lowered == "buy" then Ok(Buy)
    else if lowered == "sell" then Ok(Sell)
    else Err(ValueError(InvalidSideMessage(side)))
  }

  /** Case does not matter, and nothing but "buy" and "sell" is accepted. */
  lemma GetOrderSideExamples()
    ensures GetOrderSide("BUY") == Ok(Buy) && GetOrderSide("Buy") == Ok(Buy)
    ensures GetOrderSide("SELL") == Ok(Sell) && GetOrderSide("sElL") == Ok(Sell)
    ensures GetOrderSide("hold") == Err(ValueError(InvalidSideMessage("hold")))
    ensures GetOrderSide(" buy").Err? && GetOrderSide("").Err?
  {
    assert Lower("hold") == "hold";
  }

  /** The logged-parameter keys that are withheld, compared after lower-casing. */
  const SensitiveKeys: set<string> := {"password", "token", "key"}

  /** The dictionary comprehension of `log_tool_execution` that builds `safe_params`. */
  function Redact<V>(params: map<string, V>): (safe: map<string, V>)
    ensures forall k :: k in safe <==> k in params && Lower(k) !in SensitiveKeys
    ensures forall k :: k in safe ==> safe[k] == params[k]
  {
    map k | k in params && Lower(k) !in SensitiveKeys :: params[k]
  }

  /** The match is on the whole key: keys that merely contain a sensitive word are kept. */
  lemma RedactMatchesWholeKeys<V>(params: map<string, V>)
    ensures "api_key" in params ==> "api_key" in Redact(params)
    ensures "API_TOKEN" in params ==> "API_TOKEN" in Redact(params)
    ensures "Password" !in Redact(params) && "TOKEN" !in Redact(params) && "Key" !in Redact(params)
  {
    assert Lower("api_key") == "api_key";
    assert Lower("API_TOKEN") == "api_token";
    assert Lower("Password") == "password";
    assert Lower("TOKEN") == "token";
    assert Lower("Key") == "key";
  }
}
