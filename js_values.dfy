/** Values as the browser code sees them: a property that may be missing
    (`undefined`), JavaScript truthiness of such a property, the
    `x || ''` and default-parameter idioms, and the operations that can fail. */
module JsValues {

  /** `None` stands for a missing (`undefined`) value. */
  datatype Option<+T> = None | Some(value: T)

  /** The outcome of an operation that either returns or throws. */
  datatype Result<+T, +E> = Success(value: T) | Failure(error: E)

  /** A string-valued property of a JSON object that may be absent. */
  type Field = Option<string>

  /** JavaScript truthiness of a string property: present and not empty. */
  predicate Truthy(f: Field)
  {
    f.Some? && f.value != ""
  }

  /** `f || ''`: the value when it is truthy, the empty string otherwise. */
  function OrEmpty(f: Field): (s: string)
    ensures Truthy(f) ==> s == f.value
    ensures !Truthy(f) ==> s == ""
  {
    if f.Some? then f.value else ""
  }

  /** A default parameter `p = d`: used only when the argument is `undefined`. */
  function OrDefault(f: Field, d: string): (s: string)
    ensures f.None? ==> s == d
    ensures f.Some? ==> s == f.value
  {
    match f
    case None => d
    case Some(v) => v
  }

  /** How a template literal renders a possibly missing string property. */
  function Render(f: Field): (s: string)
    ensures f.Some? ==> s == f.value
    ensures f.None? ==> s == "undefined"
  {
    match f
    case None => "undefined"
    case Some(v) => v
  }

  /** JavaScript's `%` on numbers: the remainder of division truncated
      toward zero, so it takes the sign of the dividend. */
  function Remainder(a: int, b: int): (r: int)
    requires b > 0
    ensures a >= 0 ==> r == a % b
    ensures a < 0 ==> -b < r <= 0 && r == -((-a) % b)
  {
    if a >= 0 then a % b else -((-a) % b)
  }

  /** `Math.abs`. */
  function Abs(x: int): (r: nat)
    ensures r == x || r == -x
  {
    if x < 0 then -x else x
  }

  function Min(a: int, b: int): (m: int) { if a <= b then a else b }
  function Max(a: int, b: int): (m: int) { if a >= b then a else b }
}
