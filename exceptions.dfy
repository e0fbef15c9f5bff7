/**
 * The exceptions that reach the source's catch clauses: the project's own
 * (src/core/exceptions.py) and the Python built-ins its code can raise.
 */
module Exceptions {
  import opened Text

  datatype Exception =
    | ValueError(msg: string)
      /** `d[key]` on a missing key */
    | KeyError(key: string)
      /** a string method called on a value of another type */
    | AttributeError(typeName: string, attribute: string)
      /** an operator applied to a value of the wrong type */
    | TypeError(msg: string)
      /** a number outside the range of a float, a date or a time span */
    | OverflowError(msg: string)
      /** the project's APIError(message, broker, api_error); the cause is the text of the wrapped exception */
    | ApiError(msg: string, broker: string, cause: string)
    | InvalidConfiguration(msg: string)
    | BrokerConnection(msg: string)

  /** `str(e)` */
  function Str(e: Exception): string {
    match e
    case ValueError(m) => m
    case KeyError(k) => "'" + k + "'"
    case AttributeError(t, a) => "'" + t + "' object has no attribute '" + a + "'"
    case TypeError(m) => m
    case OverflowError(m) => m
    case ApiError(m, _, _) => m
    case InvalidConfiguration(m) => m
    case BrokerConnection(m) => m
  }

  /** The three error categories every tool handler distinguishes. */
  datatype Category = Validation | Api | Unexpected

  /**
   * Which `except` clause of a handler catches `e`: `except ValueError`
   * (only in handlers that have one), then `except APIError`, then
   * `except Exception`.
   */
  function Classify(e: Exception, catchesValueError: bool): (c: Category)
    ensures c == Validation <==> catchesValueError && e.ValueError?
    ensures c == Api <==> e.ApiError?
  {
    if catchesValueError && e.ValueError? then Validation
    else if e.ApiError? then Api
    else Unexpected
  }
}
