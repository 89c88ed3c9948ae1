/**
 * JavaScript values as the backend sees them after `JSON.parse`, with the
 * truthiness test, property reads and the `String(...)` / `Number(...)`
 * coercions it applies to them, and the outcome of a call that may throw.
 */
module Js {
  import opened Text

  datatype Option<+T> = None | Some(value: T) {
    /** `x ?? d` for a value that is either undefined or present */
    function GetOr(d: T): T {
      match this
      case Some(v) => v
      case None => d
    }
  }

  /**
   * A value `JSON.parse` can produce. JSON has no NaN or infinities, so a
   * number is a real.
   */
  datatype JsValue =
    | JsNull
    | JsBool(b: bool)
    | JsNumber(n: real)
    | JsString(s: string)
    | JsArray(items: seq<JsValue>)
    | JsObject(fields: map<string, JsValue>)

  /** What a function can throw, by kind. */
  datatype JsError =
    | SyntaxError   // JSON.parse rejected its input
    | TypeError     // a property was read from null or undefined
    | ServiceError  // an awaited external call rejected

  /** The outcome of a call that returns a value or throws. */
  datatype Outcome<+T> = Returned(value: T) | Threw(error: JsError)

  /** The result of `Number(...)`: a number, or NaN. */
  datatype Numeric = Finite(r: real) | NaN

  /**
   * The two coercions that depend on floating-point formatting, taken as
   * given: the text of a number (`String(1.5)`) and the number a string
   * denotes (`Number("0.7")`, None for NaN).
   */
  datatype Coercions = Coercions(numberText: real -> string, stringNumber: string -> Option<real>)

  /** Whether `x` is truthy, for a property that may be undefined (None). */
  predicate Truthy(x: Option<JsValue>) {
    match x
    case None => false
    case Some(v) =>
      match v
      case JsNull => false
      case JsBool(b) => b
      case JsNumber(n) => n != 0.0
      case JsString(s) => s != ""
      case JsArray(_) => true
      case JsObject(_) => true
  }

  /** Whether an optional string is truthy: present and non-empty. */
  predicate TruthyText(x: Option<string>) {
    x.Some? && x.value != ""
  }

  /**
   * `v.key`, or destructuring `{ key } = v`, for any v but null (which throws
   * a TypeError). Only objects carry the keys read here; a property missing
   * from an object, or read from any other value, is undefined.
   */
  function Get(v: JsValue, key: string): (r: Option<JsValue>)
    requires v != JsNull
    ensures r.Some? <==> v.JsObject? && key in v.fields
    ensures r.Some? ==> r.value == v.fields[key]
  {
    if v.JsObject? && key in v.fields then Some(v.fields[key]) else None
  }

  /**
   * `String(v)`. An array is its elements' texts joined by ",", with null
   * elements as ""; an object is "[object Object]".
   */
  function ToJsString(v: JsValue, c: Coercions): string
    decreases v, 1
  {
    match v
    case JsNull => "null"
    case JsBool(b) => if b then "true" else "false"
    case JsNumber(n) => c.numberText(n)
    case JsString(s) => s
    case JsArray(items) => ItemsText(v, items, c)
    case JsObject(_) => "[object Object]"
  }

  /** The text of a suffix of an array's elements, as `join(",")` builds it. */
  function ItemsText(whole: JsValue, items: seq<JsValue>, c: Coercions): string
    requires whole.JsArray? && forall x :: x in items ==> x in whole.items
    decreases whole, 0, |items|
  {
    if |items| == 0 then ""
    else
      assert items[0] in items && items[0] in whole.items;
      var first := if items[0] == JsNull then "" else ToJsString(items[0], c);
      if |items| == 1 then first else first + "," + ItemsText(whole, items[1..], c)
  }

  /**
   * `Number(v)`: null is 0, booleans are 0 or 1, a string is read as a
   * number, and arrays and objects are read through their `String` text.
   */
  function ToNumber(v: JsValue, c: Coercions): Numeric {
    match v
    case JsNull => Finite(0.0)
    case JsBool(b) => Finite(if b then 1.0 else 0.0)
    case JsNumber(n) => Finite(n)
    case JsString(s) => NumberOfText(s, c)
    case _ => NumberOfText(ToJsString(v, c), c)
  }

  function NumberOfText(s: string, c: Coercions): Numeric {
    match c.stringNumber(s)
    case Some(r) => Finite(r)
    case None => NaN
  }
}
