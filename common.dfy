/** Values shared by the viewer's components: optional values, results, and the
    few JavaScript values whose truthiness the viewer relies on. */
module Common {

  datatype Option<+T> = None | Some(value: T)

  datatype Result<+T, +E> = Success(value: T) | Failure(error: E)

  /** A numeric engine property as JavaScript sees it: a property the engine has
      not set yet may read as `undefined` or as `null`. NaN is not modelled. */
  datatype JsValue = Undefined | Null | Num(n: real)

  /** JavaScript truthiness of such a value: `undefined`, `null` and `0` are falsy. */
  predicate Truthy(v: JsValue) {
    v.Num? && v.n != 0.0
  }

  /** The JavaScript expression `v || fallback`. */
  function OrElse(v: JsValue, fallback: real): (r: real)
    ensures Truthy(v) ==> r == v.n
    ensures !Truthy(v) ==> r == fallback
  {
    if Truthy(v) then v.n else fallback
  }

  function Min(a: real, b: real): (r: real)
    ensures r <= a && r <= b && (r == a || r == b)
  {
    if a <= b then a else b
  }

  function Max(a: real, b: real): (r: real)
    ensures r >= a && r >= b && (r == a || r == b)
  {
    if a >= b then a else b
  }
}
