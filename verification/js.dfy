/** The fragment of JavaScript value semantics the request handler relies on:
    truthiness, the `??` operator and strict equality `===`. */
module Js {

  datatype Option<+T> = None | Some(value: T)

  /** A field value as the handler and the document store see it: the JSON
      scalars a request body can carry, plus the store's native timestamp
      (milliseconds). JSON numbers are modelled as integers. */
  datatype Val = Null | Bool(b: bool) | Num(n: int) | Str(s: string) | Time(millis: int)

  /** What a parsed JSON request body can carry: anything but a native timestamp. */
  type Json = v: Val | !v.Time? witness Null

  /** A parsed request body; a key that is absent reads as `undefined`. */
  type Body = map<string, Json>

  /** A parsed query string: every value is a string. */
  type Query = map<string, string>

  /** `body[key]`, with `None` standing for `undefined`. */
  function Lookup(body: Body, key: string): Option<Json> {
    if key in body then Some(body[key]) else None
  }

  /** JavaScript falsiness: `undefined`, `null`, `false`, `0` and `''` are falsy;
      every other value (a timestamp object included) is truthy. */
  predicate Falsy(v: Option<Val>) {
    match v
    case None => true
    case Some(x) =>
      match x
      case Null => true
      case Bool(b) => !b
      case Num(n) => n == 0
      case Str(s) => s == ""
      case Time(_) => false
  }

  /** The nullish-coalescing operator `v ?? fallback`: only `undefined` and
      `null` fall back; `false`, `0` and `''` are kept. */
  function Coalesce(v: Option<Val>, fallback: Val): Val {
    match v
    case None => fallback
    case Some(x) => if x == Null then fallback else x
  }

  /** Strict equality `a === b` where `b` is built from a query string. A
      timestamp or `Date` object is an object, never `===` to such a value. */
  predicate StrictEquals(a: Val, b: Val) {
    !a.Time? && a == b
  }
}
