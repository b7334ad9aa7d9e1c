/**
 * JavaScript numbers as the client components use them: an exact real or
 * `NaN`, which `parseFloat` returns for text that is not a number and which
 * every arithmetic operation propagates. Infinities and rounding are not
 * modelled.
 */
module JsNumbers {
  datatype JsNum = NaN | Num(value: real)

  function Add(a: JsNum, b: JsNum): (r: JsNum)
    ensures r.Num? <==> a.Num? && b.Num?
    ensures r.Num? ==> r.value == a.value + b.value
  {
    if a.Num? && b.Num? then Num(a.value + b.value) else NaN
  }

  function Sub(a: JsNum, b: JsNum): (r: JsNum)
    ensures r.Num? <==> a.Num? && b.Num?
    ensures r.Num? ==> r.value == a.value - b.value
  {
    if a.Num? && b.Num? then Num(a.value - b.value) else NaN
  }

  function Mul(a: JsNum, b: JsNum): (r: JsNum)
    ensures r.Num? <==> a.Num? && b.Num?
    ensures r.Num? ==> r.value == a.value * b.value
  {
    if a.Num? && b.Num? then Num(a.value * b.value) else NaN
  }

  /** `Math.max(a, b)`: `NaN` when either argument is. */
  function Max(a: JsNum, b: JsNum): (r: JsNum)
    ensures r.Num? <==> a.Num? && b.Num?
    ensures r.Num? ==> r.value >= a.value && r.value >= b.value && (r.value == a.value || r.value == b.value)
  {
    if a.Num? && b.Num? then Num(if a.value >= b.value then a.value else b.value) else NaN
  }

  /** A number is falsy when it is `0` or `NaN`. */
  predicate Truthy(a: JsNum) {
    a.Num? && a.value != 0.0
  }

  /** `Number(x) || d` on a number. */
  function OrElse(a: JsNum, d: real): (r: real)
    ensures Truthy(a) ==> r == a.value
    ensures !Truthy(a) ==> r == d
  {
    if Truthy(a) then a.value else d
  }
}
