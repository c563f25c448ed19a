/** The few JavaScript value semantics the handlers rely on: truthiness,
    `Number(...)`, template-literal rendering, and the opaque runtime
    primitives (numeric parsing and formatting, JSON.parse). */
module Js {
  import opened Wrappers

  /** A scalar JSON value as it arrives in a parsed request body.  `Undefined`
      is an absent property; `NaN` only arises from `Number(...)`. */
  datatype JsValue = Undefined | Null | Bool(b: bool) | Num(n: real) | NaN | Str(s: string)

  /** The primitives the model treats as opaque.
      - toNumber: `Number(s)` on a string, `None` when the result is NaN;
      - numberText: `String(n)` for a finite number;
      - toFixed2: `n.toFixed(2)`;
      - jsonParses: whether `JSON.parse(s)` succeeds. */
  datatype Runtime = Runtime(
    toNumber: string -> Option<real>,
    numberText: real -> string,
    toFixed2: real -> string,
    jsonParses: string -> bool)

  /** JavaScript truthiness: `!v` is `!Truthy(v)`. */
  predicate Truthy(v: JsValue) {
    match v
    case Undefined => false
    case Null => false
    case Bool(b) => b
    case Num(n) => n != 0.0
    case NaN => false
    case Str(s) => s != ""
  }

  /** `Number(v)`: always a number, possibly NaN. */
  function ToNumber(v: JsValue, rt: Runtime): (r: JsValue)
    ensures r.Num? || r.NaN?
    ensures v.Num? ==> r == v
    ensures v.Undefined? ==> r.NaN?
  {
    match v
    case Undefined => NaN
    case Null => Num(0.0)
    case Bool(b) => Num(if b then 1.0 else 0.0)
    case Num(_) => v
    case NaN => NaN
    case Str(s) => match rt.toNumber(s) { case Some(n) => Num(n) case None => NaN }
  }

  /** `${v}` in a template literal. */
  function ToText(v: JsValue, rt: Runtime): string {
    match v
    case Undefined => "undefined"
    case Null => "null"
    case Bool(b) => if b then "true" else "false"
    case Num(n) => rt.numberText(n)
    case NaN => "NaN"
    case Str(s) => s
  }

  /** `Number.MAX_SAFE_INTEGER`, 2^53 - 1. */
  const MaxSafeInteger: real := 9007199254740991.0

  /** Whether `marshall` from the DynamoDB utilities accepts a scalar.  It
      throws on NaN ("Special numeric value NaN is not allowed") and, since
      `allowImpreciseNumbers` is not set, on a number above
      `Number.MAX_SAFE_INTEGER` or below `Number.MIN_SAFE_INTEGER`, whether
      or not it is an integer.  It also throws on an undefined value, since
      `removeUndefinedValues` is not set either.  Strings, booleans and null
      are accepted. */
  predicate Marshallable(v: JsValue) {
    match v
    case Undefined => false
    case NaN => false
    case Num(n) => -MaxSafeInteger <= n <= MaxSafeInteger
    case _ => true
  }

  /** Whether `marshall` accepts every value of an object. */
  predicate AllMarshallable(m: map<string, JsValue>) {
    forall a :: a in m ==> Marshallable(m[a])
  }
}
