/** The JavaScript values the dashboard's display logic handles. */
module JsValues {

  /** A value that may be `undefined`: `None` is what `x?.f` yields when `x` is absent. */
  datatype Option<+T> = None | Some(value: T)

  /** A field value of a chart point. `NaN` arises from arithmetic on `undefined`. */
  datatype JsValue = Num(n: real) | Str(s: string) | Undefined | NaN

  /** JavaScript truthiness of an optional string: `undefined` and `""` are falsy. */
  predicate Truthy(s: Option<string>) {
    s.Some? && s.value != ""
  }

  /** The `a || b` operator on optional strings: `a` when it is truthy, else `b`. */
  function Or(a: Option<string>, b: Option<string>): (r: Option<string>)
    ensures Truthy(a) ==> r == a
    ensures !Truthy(a) ==> r == b
    ensures Truthy(r) <==> Truthy(a) || Truthy(b)
  {
    if Truthy(a) then a else b
  }
}
