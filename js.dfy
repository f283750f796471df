/** The JavaScript values the component reads and the three operators it
    applies to them: truthiness (`||`, `if (v)`), nullish coalescing (`??`)
    and the `Number()` conversion. */
module Js {

  datatype Option<+T> = None | Some(value: T)

  /** JSON-like data as it reaches the component: from JSON.parse, from a
      property assignment of such data, or built from a child's attributes.
      Numbers are exact reals; NaN is its own value. Functions, Symbols,
      BigInts, infinities and objects with their own `valueOf` or `toString`
      are not among these values. */
  datatype JsValue =
    | Undefined
    | Null
    | Bool(b: bool)
    | Num(n: real)
    | NaN
    | Str(s: string)
    | Arr(elems: seq<JsValue>)
    | Obj(props: map<string, JsValue>)

  /** The values of JavaScript's number type. */
  type JsNumber = v: JsValue | v.Num? || v.NaN? witness NaN

  /** `v == null` in JavaScript: the values `??` replaces and whose
      properties cannot be read. */
  predicate Nullish(v: JsValue) {
    v.Undefined? || v.Null?
  }

  /** JavaScript truthiness: false for undefined, null, false, 0, NaN and "". */
  predicate Truthy(v: JsValue) {
    match v
    case Undefined => false
    case Null => false
    case Bool(b) => b
    case Num(n) => n != 0.0
    case NaN => false
    case Str(s) => s != ""
    case Arr(_) => true
    case Obj(_) => true
  }

  /** `a || b` */
  function Or(a: JsValue, b: JsValue): JsValue {
    if Truthy(a) then a else b
  }

  /** `a ?? b` */
  function Coalesce(a: JsValue, b: JsValue): JsValue {
    if Nullish(a) then b else a
  }

  /** `v[key]` for one of the component's own keys (src, direction, strength,
      z, duration, delay). Reading a property of null or undefined throws, so
      callers must exclude them; strings, numbers, booleans and arrays have
      none of these keys, so reading one gives undefined. */
  function Get(v: JsValue, key: string): JsValue
    requires !Nullish(v)
  {
    match v
    case Obj(props) => if key in props then props[key] else Undefined
    case _ => Undefined
  }

  /** `Number(v)`. The conversion of a string is the host's and comes in as
      `numeral`; a plain data object or array is converted through the string
      that `String(v)` gives: "[object Object]" for an object, the element's
      own text for a one-element array, "" for an empty one, and a
      comma-separated list (never a number) for longer arrays. */
  function ToNumber(v: JsValue, numeral: string -> JsNumber): (r: JsNumber)
    ensures v.Num? || v.NaN? ==> r == v
    ensures v.Undefined? ==> r == NaN
    ensures v.Null? || v == Bool(false) ==> r == Num(0.0)
    ensures v == Bool(true) ==> r == Num(1.0)
    ensures v.Arr? && |v.elems| > 1 ==> r == NaN
  {
    match v
    case Undefined => NaN
    case Null => Num(0.0)
    case Bool(b) => if b then Num(1.0) else Num(0.0)
    case Num(n) => v
    case NaN => NaN
    case Str(s) => numeral(s)
    case Obj(_) => numeral("[object Object]")
    case Arr(elems) =>
      if |elems| == 0 then numeral("")
      else if |elems| > 1 then NaN
      else
        match elems[0]
        case Undefined => numeral("")
        case Null => numeral("")
        case Bool(b) => numeral(if b then "true" else "false")
        case Num(_) => elems[0]
        case NaN => NaN
        case Str(s) => numeral(s)
        case Obj(_) => numeral("[object Object]")
        case Arr(_) => ToNumber(elems[0], numeral)
  }

  /** `Number()` leaves a number unchanged, whatever the host's string
      conversion does. */
  lemma ToNumberOfNumber(v: JsNumber, numeral: string -> JsNumber)
    ensures ToNumber(v, numeral) == v
  {
  }

  /** `??` and `||` pick different values exactly for the falsy values that
      are not nullish (0, NaN, "" and false), and only when the fallback
      differs from them: this is why an explicit 0 survives `??`. */
  lemma CoalesceDiffersFromOr(a: JsValue, b: JsValue)
    ensures Coalesce(a, b) != Or(a, b) <==> !Truthy(a) && !Nullish(a) && a != b
  {
  }
}
