/**
 * Decoded JSON values as the integration sees them after `response.json()`,
 * and the handful of Python value operations its code relies on:
 * `dict.get` with a default, truthiness, `str()` and `==` against an int.
 */
module Json {

  datatype Option<+T> = None | Some(value: T)

  /** A JSON value (numbers with a fraction are not modelled). */
  datatype Json =
    | JNull
    | JBool(b: bool)
    | JInt(i: int)
    | JStr(s: string)
    | JArr(items: seq<Json>)
    | JObj(fields: map<string, Json>)

  /** A Python dict decoded from a JSON object. */
  type Object = map<string, Json>

  /** `d.get(key, default)` */
  function Get(d: Object, key: string, default: Json): (r: Json)
    ensures key in d ==> r == d[key]
    ensures key !in d ==> r == default
  {
    if key in d then d[key] else default
  }

  /** Python truthiness: None, False, 0, "" and empty containers are falsy. */
  predicate Truthy(v: Json)
  {
    match v
    case JNull => false
    case JBool(b) => b
    case JInt(i) => i != 0
    case JStr(s) => s != ""
    case JArr(items) => items != []
    case JObj(fields) => fields != map[]
  }

  /**
   * The int a value equals under Python's `==` (and hashes like):
   * an int is itself, True is 1 and False is 0; no other value equals an int.
   */
  function PyInt(v: Json): (r: Option<int>)
    ensures r.Some? <==> v.JInt? || v.JBool?
    ensures v.JBool? ==> r == Some(if v.b then 1 else 0)
  {
    match v
    case JInt(i) => Some(i)
    case JBool(b) => Some(if b then 1 else 0)
    case _ => None
  }

  function DigitChar(d: nat): char
    requires d < 10
  {
    "0123456789"[d]
  }

  function NatToDecimal(n: nat): string
    decreases n
  {
    if n < 10 then [DigitChar(n)] else NatToDecimal(n / 10) + [DigitChar(n % 10)]
  }

  /** `str(n)` for an int. */
  function IntToDecimal(n: int): string
  {
    if n < 0 then "-" + NatToDecimal(-n) else NatToDecimal(n)
  }

  /** Python's `str(v)`; arrays and objects are abbreviated. */
  function Str(v: Json): string
  {
    match v
    case JNull => "None"
    case JBool(b) => if b then "True" else "False"
    case JInt(i) => IntToDecimal(i)
    case JStr(s) => s
    case JArr(items) => if items == [] then "[]" else "[...]"
    case JObj(fields) => if fields == map[] then "{}" else "{...}"
  }
}
