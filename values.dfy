/**
 * Python values as they arrive in a tool's argument dictionary, with the
 * parts of Python's semantics the handlers depend on: truthiness, `d[k]`,
 * `d.get(k)`, `d.get(k, default)` and string methods on an untyped value.
 */
module Values {
  import opened Wrappers
  import opened Text
  import opened Exceptions

  /** A JSON-decoded argument: `None`, an `int`, a `float`, a `str` or a `bool`. */
  datatype Value = Null | Int(i: int) | Number(n: real) | Str(s: string) | Flag(b: bool)

  /** The argument dictionary a handler receives. */
  type Args = map<string, Value>

  /** Python truthiness: `None`, `0`, `""` and `False` are false. */
  predicate Truthy(v: Value) {
    match v
    case Null => false
    case Int(i) => i != 0
    case Number(n) => n != 0.0
    case Str(s) => s != ""
    case Flag(b) => b
  }

  function TypeName(v: Value): string {
    match v
    case Null => "NoneType"
    case Int(_) => "int"
    case Number(_) => "float"
    case Str(_) => "str"
    case Flag(_) => "bool"
  }

  /** `args[key]` */
  function Index(args: Args, key: string): (r: Result<Value, Exception>)
    ensures r.Ok? <==> key in args
    ensures r.Ok? ==> r.value == args[key]
    ensures r.Err? ==> r.error == KeyError(key)
  {
    if key in args then Ok(args[key]) else Err(KeyError(key))
  }

  /** `args.get(key, default)` */
  function GetOr(args: Args, key: string, default: Value): Value {
    if key in args then args[key] else default
  }

  /** `args.get(key)` */
  function Get(args: Args, key: string): Value {
    GetOr(args, key, Null)
  }

  /** `v.upper()` */
  function UpperOf(v: Value): (r: Result<string, Exception>)
    ensures r.Ok? <==> v.Str?
    ensures r.Ok? ==> r.value == Upper(v.s)
    ensures r.Err? ==> r.error == AttributeError(TypeName(v), "upper")
  {
    if v.Str? then Ok(Upper(v.s)) else Err(AttributeError(TypeName(v), "upper"))
  }

  /** `v.lower()` */
  function LowerOf(v: Value): (r: Result<string, Exception>)
    ensures r.Ok? <==> v.Str?
    ensures r.Ok? ==> r.value == Lower(v.s)
    ensures r.Err? ==> r.error == AttributeError(TypeName(v), "lower")
  {
    if v.Str? then Ok(Lower(v.s)) else Err(AttributeError(TypeName(v), "lower"))
  }

  /**
   * The number a value stands for in an ordering comparison with a float:
   * an int compares as itself, a bool as 0 or 1, and `None` and strings raise TypeError.
   */
  function AsReal(v: Value): (r: Result<real, Exception>)
    ensures r.Ok? <==> v.Int? || v.Number? || v.Flag?
    ensures r.Err? ==> r.error.TypeError?
  {
    match v
    case Int(i) => Ok(i as real)
    case Number(n) => Ok(n)
    case Flag(b) => Ok(if b then 1.0 else 0.0)
    case _ => Err(TypeError("'<' not supported between instances of 'float' and '" + TypeName(v) + "'"))
  }
}
