/** Values as the JavaScript/TypeScript sources see them: a possibly-undefined
    value, an outcome that either holds a value or an error, truthiness, and
    how `${…}` renders an undefined string. */
module Js {

  /** `None` stands for JavaScript's `undefined` (or `null`). */
  datatype Option<+T> = None | Some(value: T) {
    function GetOr(default: T): T {
      match this
      case Some(v) => v
      case None => default
    }
  }

  /** A settled operation: a value, or the error it was rejected/thrown with. */
  datatype Result<+T, +E> = Ok(value: T) | Err(error: E)

  /** A string-typed field that may be `undefined`. */
  type JsString = Option<string>

  /** JavaScript truthiness of a possibly-undefined string: `undefined` and `''` are falsy. */
  predicate Truthy(s: JsString) {
    s.Some? && s.value != ""
  }

  /** JavaScript truthiness of a possibly-undefined number: `undefined` and `0` are falsy. */
  predicate TruthyNum(n: Option<int>) {
    n.Some? && n.value != 0
  }

  /** `a || b` on strings: the first operand when it is truthy, otherwise the second. */
  function Or(a: JsString, b: string): (r: string)
    ensures Truthy(a) ==> r == a.value
    ensures !Truthy(a) ==> r == b
  {
    if Truthy(a) then a.value else b
  }

  /** How a template literal renders a possibly-undefined string: `${undefined}` is "undefined". */
  function Show(s: JsString): (r: string)
    ensures s.Some? ==> r == s.value
    ensures s.None? ==> r == "undefined"
  {
    match s
    case Some(v) => v
    case None => "undefined"
  }

  /** Array destructuring `const [a, b, c] = xs`: a missing element is `undefined`. */
  function Nth<T>(xs: seq<T>, i: nat): (r: Option<T>)
    ensures i < |xs| ==> r == Some(xs[i])
    ensures i >= |xs| ==> r == None
  {
    if i < |xs| then Some(xs[i]) else None
  }
}
