/**
 * The bar handling of `handle_get_stock_bars`
 * (src/brokers/alpaca/tools/market_data.py): the empty-data branch and the
 * "last N bars" rule, which follows Python's slice semantics. The bars
 * response is a parameter.
 */
module MarketData {
  import opened Wrappers
  import opened Exceptions
  import opened Values
  import opened OrderRequests

  /** Python's `s[start:]` for an integer start, negative starts counting from the end. */
  function SliceFrom<T>(s: seq<T>, start: int): (r: seq<T>)
    ensures |r| <= |s| && r == s[|s| - |r|..]
    ensures 0 <= start <= |s| ==> |r| == |s| - start
    ensures -|s| <= start < 0 ==> |r| == -start
    ensures start < -|s| ==> r == s
    ensures |s| < start ==> r == []
  {
    if start >= 0 then (if start <= |s| then s[start..] else [])
    else if -start <= |s| then s[|s| + start..]
    else s
  }

  /** `bars[-days:] if len(bars) > days else bars` for an integer `days`. */
  function TruncateBars<B>(bars: seq<B>, days: int): (r: seq<B>)
    ensures |r| <= |bars| && r == bars[|bars| - |r|..]
    ensures 1 <= days < |bars| ==> |r| == days
    ensures |bars| <= days ==> r == bars
    ensures days == 0 ==> r == bars
    ensures days < 0 && -days <= |bars| ==> r == bars[-days..]
  {
    if |bars| > days then SliceFrom(bars, -days) else bars
  }

  /** With `days` = 0 every bar is kept, because `bars[-0:]` is `bars[0:]`. */
  lemma ZeroDaysKeepsAll<B>(bars: seq<B>)
    ensures TruncateBars(bars, 0) == bars
  {
  }

  /** Asking again for no more bars than were kept changes nothing. */
  lemma TruncateIdempotent<B>(bars: seq<B>, days: int)
    requires days >= 1
    ensures TruncateBars(TruncateBars(bars, days), days) == TruncateBars(bars, days)
  {
  }

  /**
   * The span of `datetime`, in days from `datetime.min` (0001-01-01 00:00)
   * to just after `datetime.max` (9999-12-31 23:59:59.999999).
   */
  const DatetimeSpan: real := 3652059.0

  /** An instant `datetime` can represent, as days since `datetime.min`. */
  predicate ValidInstant(t: real) {
    0.0 <= t < DatetimeSpan
  }

  /**
   * `datetime.now() - timedelta(days=days * 2)`, evaluated before the bars
   * are fetched, with the clock reading `now` given as days since
   * `datetime.min`: `None` cannot be doubled, a doubled string is not a
   * valid day count, and a start date outside the range of `datetime`
   * raises OverflowError.
   */
  function LookbackError(days: Value, now: real): (e: Option<Exception>)
    requires ValidInstant(now)
    ensures e.None? <==> !days.Null? && !days.Str? && ValidInstant(now - 2.0 * AsReal(days).value)
    ensures (days.Null? || days.Str?) ==> e.Some? && e.value.TypeError?
    ensures !days.Null? && !days.Str? && !ValidInstant(now - 2.0 * AsReal(days).value) ==>
              e == Some(OverflowError("date value out of range"))
  {
    match days
    case Null => Some(TypeError("unsupported operand type(s) for *: 'NoneType' and 'int'"))
    case Str(_) => Some(TypeError("unsupported type for timedelta days component: str"))
    case _ =>
      if ValidInstant(now - 2.0 * AsReal(days).value) then None
      else Some(OverflowError("date value out of range"))
  }

  /**
   * A look-back of two million days or more (doubled, four million) leaves
   * the range of `datetime` whatever the clock says, in either direction;
   * five days is fine from the eleventh day of year 1 on.
   */
  lemma LookbackLimits(now: real)
    requires ValidInstant(now)
    ensures LookbackError(Int(2000000), now) == Some(OverflowError("date value out of range"))
    ensures LookbackError(Int(-2000000), now) == Some(OverflowError("date value out of range"))
    ensures now >= 10.0 ==> LookbackError(Int(5), now).None?
  {
  }

  /**
   * The truncation for a `days` value of any type: a bool counts as 0 or 1,
   * and a float is only refused when the slice is actually taken.
   */
  function KeepLast<B>(bars: seq<B>, days: Value): (r: Result<seq<B>, Exception>)
    ensures days.Int? ==> r == Ok(TruncateBars(bars, days.i))
    ensures days.Flag? ==> r == Ok(TruncateBars(bars, if days.b then 1 else 0))
    ensures days.Number? ==> (r.Ok? <==> |bars| as real <= days.n) && (r.Ok? ==> r.value == bars)
    ensures r.Ok? ==> |r.value| <= |bars| && r.value == bars[|bars| - |r.value|..]
  {
    match days
    case Int(i) => Ok(TruncateBars(bars, i))
    case Flag(b) => Ok(TruncateBars(bars, if b then 1 else 0))
    case Number(n) =>
      if |bars| as real > n then Err(TypeError("slice indices must be integers or None or have an __index__ method"))
      else Ok(bars)
    case Null => Err(TypeError("'>' not supported between instances of 'int' and 'NoneType'"))
    case Str(_) => Err(TypeError("'>' not supported between instances of 'int' and 'str'"))
  }

  datatype BarsReply<B> =
    | NoBarData(symbol: string)
    | BarsShown(symbol: string, bars: seq<B>)
    | Failed(text: string)

  /**
   * `handle_get_stock_bars` given the bars response: the symbol is
   * upper-cased, `days` defaults to 5, and a missing or empty entry for the
   * symbol is answered without truncation.
   */
  function StockBarsReply<B>(args: Args, now: real, response: map<string, seq<B>>): (r: BarsReply<B>)
    requires ValidInstant(now)
    ensures SymbolArg(args).Err? ==> r == Failed("Unexpected error: " + Exceptions.Str(SymbolArg(args).error))
    ensures SymbolArg(args).Ok? && LookbackError(GetOr(args, "days", Int(5)), now).Some? ==>
              r == Failed("Unexpected error: " + Exceptions.Str(LookbackError(GetOr(args, "days", Int(5)), now).value))
    ensures SymbolArg(args).Ok? && LookbackError(GetOr(args, "days", Int(5)), now).None? ==>
              var symbol := SymbolArg(args).value;
              && (symbol !in response || response[symbol] == [] <==> r == NoBarData(symbol))
              && (r.BarsShown? ==> r.symbol == symbol && KeepLast(response[symbol], GetOr(args, "days", Int(5))) == Ok(r.bars))
              && (symbol in response && response[symbol] != [] ==>
                    var kept := KeepLast(response[symbol], GetOr(args, "days", Int(5)));
                    && (kept.Ok? ==> r == BarsShown(symbol, kept.value))
                    && (kept.Err? ==> r == Failed("Unexpected error: " + Exceptions.Str(kept.error))))
    ensures "days" !in args && r.BarsShown? ==> r.bars == TruncateBars(response[r.symbol], 5)
  {
    match SymbolArg(args)
    case Err(e) => Failed("Unexpected error: " + Exceptions.Str(e))
    case Ok(symbol) =>
      var days := GetOr(args, "days", Int(5));
      if LookbackError(days, now).Some? then
        Failed("Unexpected error: " + Exceptions.Str(LookbackError(days, now).value))
      else if symbol !in response || response[symbol] == [] then
        NoBarData(symbol)
      else
        match KeepLast(response[symbol], days)
        case Err(e) => Failed("Unexpected error: " + Exceptions.Str(e))
        case Ok(bars) => BarsShown(symbol, bars)
  }
}
