/**
  JavaScript values as the core sees them: JSON bodies, object property reads with
  `undefined`, truthiness, and the values a `throw` can carry.
 */
module Js {
  import opened Wrappers

  /** A JSON value. Objects are key-to-value maps (key order is not modelled); numbers are
      integers, plus `JNaN`, the number NaN, which JSON text cannot carry but `parseInt`
      can produce. */
  datatype Json =
    | JNull
    | JBool(b: bool)
    | JNum(n: int)
    | JNaN
    | JStr(s: string)
    | JArr(items: seq<Json>)
    | JObj(fields: map<string, Json>)

  /** JavaScript truthiness: `null`, `false`, `0`, `NaN` and `""` are falsy; arrays and objects are truthy. */
  predicate Truthy(j: Json)
  {
    match j
    case JNull => false
    case JBool(b) => b
    case JNum(n) => n != 0
    case JNaN => false
    case JStr(s) => s != ""
    case JArr(_) => true
    case JObj(_) => true
  }

  /** No NaN anywhere inside the value. */
  predicate NoNaN(j: Json)
  {
    match j
    case JNaN => false
    case JArr(items) => forall i :: 0 <= i < |items| ==> NoNaN(items[i])
    case JObj(fields) => forall k :: k in fields ==> NoNaN(fields[k])
    case _ => true
  }

  /** What a value becomes on its way through JSON text (`JSON.stringify`, then `JSON.parse`
      or `response.json()`): every NaN is written as `null`, and nothing else changes. */
  function OnWire(j: Json): (r: Json)
    ensures NoNaN(r)
    ensures NoNaN(j) ==> r == j
  {
    match j
    case JNaN => JNull
    case JArr(items) => JArr(seq(|items|, i requires 0 <= i < |items| => OnWire(items[i])))
    case JObj(fields) => JObj(map k | k in fields :: OnWire(fields[k]))
    case _ => j
  }

  /** A field read from an object after the JSON text step is the field's own value after it. */
  lemma OnWireField(fields: map<string, Json>, key: string)
    requires key in fields
    ensures OnWire(JObj(fields)).JObj?
    ensures key in OnWire(JObj(fields)).fields && OnWire(JObj(fields)).fields[key] == OnWire(fields[key])
  {
  }

  /** Truthiness of a value that may be `undefined` (`None`), which is falsy. */
  predicate TruthyOpt(v: Option<Json>)
  {
    v.Some? && Truthy(v.value)
  }

  /** `v.key` on a JSON value: only objects own properties; every other value gives `undefined`. */
  function Get(v: Json, key: string): (r: Option<Json>)
    ensures r.Some? <==> v.JObj? && key in v.fields
    ensures r.Some? ==> r.value == v.fields[key]
  {
    if v.JObj? && key in v.fields then Some(v.fields[key]) else None
  }

  /** `v?.key`: optional chaining on a value that may itself be `undefined` or `null`. */
  function GetOpt(v: Option<Json>, key: string): (r: Option<Json>)
    ensures v.None? || v.value.JNull? ==> r.None?
    ensures v.Some? ==> r == Get(v.value, key)
  {
    if v.Some? then Get(v.value, key) else None
  }

  /** `key in v`, for a value known to be an object. */
  predicate Has(v: Json, key: string)
  {
    v.JObj? && key in v.fields
  }

  /** `typeof v === 'object' && v` : a non-null object or array. */
  predicate IsObject(v: Json)
  {
    v.JObj? || v.JArr?
  }

  /** A string-valued JSON field, or `None` if the field is absent or not a string. */
  function GetString(v: Json, key: string): (r: Option<string>)
    ensures r.Some? ==> Get(v, key) == Some(JStr(r.value))
  {
    match Get(v, key)
    case Some(JStr(s)) => Some(s)
    case _ => None
  }

  /** A value raised by `throw`: an `Error` instance (name, message and the engine's stack
      text, `None` where the engine left it undefined), a fetch `Response` object, or any
      other value, known by what `String(value)` gives. */
  datatype Thrown =
    | ErrorValue(name: string, message: string, stack: Option<string>)
    | ResponseValue(status: nat, statusText: string)
    | OtherValue(asString: string)

  /** `new Error(message)` */
  function NewError(message: string): (e: Thrown)
    ensures e.ErrorValue? && e.name == "Error" && e.message == message
  {
    ErrorValue("Error", message, None)
  }

  /** `String(e)` */
  function ThrownToString(e: Thrown): (s: string)
    ensures e.OtherValue? ==> s == e.asString
  {
    match e
    case ErrorValue(name, message, _) => if message == "" then name else name + ": " + message
    case ResponseValue(_, _) => "[object Response]"
    case OtherValue(s) => s
  }
}
