/**
 * JavaScript values as `JSON.parse` produces them, with the two runtime behaviours the
 * app depends on: property access (which throws on `null`) and truthiness, plus `String(v)`.
 */
module Json {
  import opened Wrappers
  import opened Text

  /** A parsed JSON value. Numbers are modelled as integers. */
  datatype Json =
    | JNull
    | JBool(b: bool)
    | JNumber(n: int)
    | JString(s: string)
    | JArray(items: seq<Json>)
    | JObject(fields: map<string, Json>)

  /** `JSON.parse` as the app sees it: a value, or None when it throws a SyntaxError. */
  type JsonParser = string -> Option<Json>

  /** The outcome of evaluating `v.name`. */
  datatype Access = Undefined | Defined(value: Json) | TypeError

  /**
   * `v.name` for the field names the app reads: reading a property of `null` throws a
   * TypeError, an object yields its own field or `undefined`, and any other value has no
   * such property. Inherited properties (`length` of a string, prototype members) are not
   * modelled.
   */
  function GetProperty(v: Json, name: string): (a: Access)
    ensures a.TypeError? <==> v.JNull?
    ensures a.Defined? <==> v.JObject? && name in v.fields
    ensures a.Defined? ==> a.value == v.fields[name]
  {
    match v
    case JNull => TypeError
    case JObject(fields) => if name in fields then Defined(fields[name]) else Undefined
    case _ => Undefined
  }

  /** JavaScript truthiness of a JSON value. */
  predicate Truthy(v: Json) {
    match v
    case JNull => false
    case JBool(b) => b
    case JNumber(n) => n != 0
    case JString(s) => s != ""
    case _ => true
  }

  /** Truthiness of a property read that did not throw. */
  predicate IsTruthy(a: Access) {
    a.Defined? && Truthy(a.value)
  }

  /** `String(v)`; inside an array, `null` converts to the empty string, as `Array.prototype.join` does. */
  function ToJsString(v: Json): string
    decreases v
  {
    match v
    case JNull => "null"
    case JBool(b) => if b then "true" else "false"
    case JNumber(n) => IntToDecimal(n)
    case JString(s) => s
    case JArray(items) =>
      Join(seq(|items|, i requires 0 <= i < |items| => if items[i].JNull? then "" else ToJsString(items[i])))
    case JObject(_) => "[object Object]"
  }

  /** The parts separated by commas. */
  function Join(parts: seq<string>): string {
    if parts == [] then "" else if |parts| == 1 then parts[0] else parts[0] + "," + Join(parts[1..])
  }
}
