/**
 * Python value semantics the escrow bot relies on: a value that may be
 * `None`, an exception raised instead of a result, the truthiness test
 * `if not x` on an optional string, and how an f-string formats a value
 * that may be `None`.
 */
module PyValues {

  /** A JSON field or environment variable that may be absent (`None`). */
  datatype Option<+T> = None | Some(value: T) {
    function GetOr(default: T): T {
      match this
      case Some(v) => v
      case None => default
    }
  }

  /** The exception classes the core raises. */
  datatype Exception = RuntimeError(message: string) | ValueError(message: string)

  /** A call that either returns a value or raises. */
  datatype Result<+T> = Ok(value: T) | Raise(exc: Exception)

  /** `bool(x)` for an optional string: `None` and `""` are falsy. */
  predicate Truthy(o: Option<string>) {
    o.Some? && o.value != ""
  }

  /** `f"{x}"` for an optional string: `None` is written as `None`. */
  function Formatted(o: Option<string>): (r: string)
    ensures o.Some? ==> r == o.value
    ensures o.None? ==> r == "None"
  {
    match o
    case Some(s) => s
    case None => "None"
  }

  /** An optional string kept only when it is truthy, as `if amount:` does. */
  function KeepTruthy(o: Option<string>): (r: Option<string>)
    ensures r.Some? <==> Truthy(o)
    ensures r.Some? ==> r == o
  {
    if Truthy(o) then o else None
  }
}
