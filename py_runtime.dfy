/**
 * The few notions of the Python runtime that the server's behaviour depends
 * on: the JSON-shaped values a tool call carries, the exceptions the core can
 * raise, how a dictionary is read with `d[k]` and with `d.get(k, default)`,
 * and how an exception or an optional string is turned into text.
 */
module PyRuntime {
  import opened Wrappers

  /**
   * A decoded JSON value, as found in the `arguments` dictionary of a tool
   * call. Floats are kept as reals: the core only passes them along and never
   * computes with them or compares them.
   */
  datatype Value =
    | Str(s: string)
    | Int(i: int)
    | Num(x: real)
    | Bool(b: bool)
    | Null
    | Array(items: seq<Value>)
    | Object(fields: map<string, Value>)

  /** The arguments of one tool call: a dictionary from names to values. */
  type Args = map<string, Value>

  /**
   * The exceptions the core raises or lets through. `Raised` stands for every
   * exception that comes from code outside the core (opening the file, the
   * remote client), carrying what `str()` of it gives.
   */
  datatype Error =
    | KeyError(key: string)
    | ValueError(message: string)
    | IndexError(message: string)
    | Raised(message: string)

  /**
   * `str(e)`. For a `KeyError` this is the repr of the missing key, which for
   * the core's keys (letters and underscores only) is the key in single quotes.
   */
  function Describe(e: Error): string
  {
    match e
    case KeyError(k) => "'" + k + "'"
    case ValueError(m) => m
    case IndexError(m) => m
    case Raised(m) => m
  }

  /** `d[k]`: the value under `k`, or a `KeyError` naming `k`. */
  function Subscript(d: Args, k: string): Result<Value, Error>
  {
    if k in d then Success(d[k]) else Failure(KeyError(k))
  }

  /** `d.get(k, default)`: the value under `k` when `k` is present, even a null one. */
  function GetOr(d: Args, k: string, default: Value): Value
  {
    if k in d then d[k] else default
  }

  /** `f"{s}"` for an optional string: a missing one is rendered as `None`. */
  function Format(s: Option<string>): string
  {
    match s
    case Some(t) => t
    case None => "None"
  }

  /** `not d` for an optional dictionary: true for `None` and for `{}`. */
  predicate IsFalsy(d: Option<Args>)
  {
    d.None? || d.value == map[]
  }
}
