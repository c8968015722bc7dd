/** JSON values as `response.json()` yields them, and the few JavaScript
    operations the fetch wrapper and the route handlers apply to them:
    truthiness, `a.b`, `a?.b` and `a || b`. */
module JsValues {

  /** A parsed JSON document. Numbers are modelled as integers. */
  datatype Json =
    | JNull
    | JBool(b: bool)
    | JNum(n: int)
    | JStr(s: string)
    | JArr(items: seq<Json>)
    | JObj(fields: map<string, Json>)

  /** A JavaScript value read out of a JSON document: `undefined` or a JSON value. */
  datatype Js = Undefined | Defined(v: Json)

  /** Outcome of a strict property read `a.b`: it throws on `null` and `undefined`. */
  datatype Read = TypeError | Got(value: Js)

  /** JavaScript truthiness (integers cannot be NaN, so 0 is the only falsy number). */
  predicate Truthy(x: Js) {
    match x
    case Undefined => false
    case Defined(v) =>
      match v
      case JNull => false
      case JBool(b) => b
      case JNum(n) => n != 0
      case JStr(s) => s != ""
      case JArr(_) => true
      case JObj(_) => true
  }

  /** `x?.key`: `undefined` when `x` is nullish or has no such own property. */
  function OptDot(x: Js, key: string): Js {
    if x.Defined? && x.v.JObj? && key in x.v.fields then Defined(x.v.fields[key]) else Undefined
  }

  /** `x.key`: a TypeError when `x` is nullish, otherwise the same value as `x?.key`. */
  function Dot(x: Js, key: string): Read {
    if x == Undefined || x == Defined(JNull) then TypeError else Got(OptDot(x, key))
  }

  /** `r.key` where `r` is itself the result of a strict read: a TypeError propagates. */
  function Then(r: Read, key: string): Read {
    if r.TypeError? then TypeError else Dot(r.value, key)
  }

  /** `x || fallback` for a fallback that is itself truthy. */
  function Or(x: Js, fallback: Json): (r: Json)
    requires Truthy(Defined(fallback))
    ensures Truthy(Defined(r))
  {
    if Truthy(x) then x.v else fallback
  }
}
