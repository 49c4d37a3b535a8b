/** Plain values shared by every service: optional values, results with the
    errors the services raise, and the JavaScript truthiness rule applied to
    loosely typed request parameters. */
module Values {

  /** `null` or `undefined` on one side, a present value on the other. */
  datatype Option<+T> = None | Some(value: T) {
    function GetOr(default: T): T {
      if Some? then value else default
    }
  }

  /** The ways a service call can end without a value. */
  datatype Error =
    | TypeError(what: string)                        // a property read on null
    | StackOverflow                                  // unbounded recursion in the category tree
    | ParameterValidationError(message: string)      // rejected before any backend call
    | MutationFailed(mutation: string, userErrors: seq<string>)

  datatype Result<+T> = Success(value: T) | Failure(error: Error)

  /** A loosely typed scalar as it arrives from a request or a JSON body. */
  datatype JsValue = Undefined | Null | Bool(b: bool) | Num(n: int) | Str(s: string)

  /** `Boolean(v)` in JavaScript, restricted to integer numbers. */
  predicate Truthy(v: JsValue) {
    match v
    case Undefined => false
    case Null => false
    case Bool(b) => b
    case Num(n) => n != 0
    case Str(s) => s != ""
  }

  /** A request parameter as an optional string: absent is `undefined`. */
  function FromOptional(s: Option<string>): JsValue {
    if s.Some? then Str(s.value) else Undefined
  }
}
