/** JSON values as the handlers see them after `JSON.parse`, and the
    JavaScript coercions the source applies to them: truthiness, `||`,
    property access, `String(v)`, `Number(v)` and `Number.isFinite(v)`. */
module Json {
  import opened Strings

  datatype Option<+T> = None | Some(value: T)

  /** A parsed JSON value. Numbers are integers (fractions are not modelled). */
  datatype Json =
    | Null
    | Bool(b: bool)
    | Num(n: int)
    | Str(s: string)
    | Arr(items: seq<Json>)
    | Obj(fields: map<string, Json>)

  /** `v.key`, where `v` may itself be undefined (None); only objects have properties. */
  function Get(v: Option<Json>, key: string): Option<Json>
  {
    if v.Some? && v.value.Obj? && key in v.value.fields then Some(v.value.fields[key]) else None
  }

  /** `v.key` on a value known to be defined. */
  function Field(v: Json, key: string): Option<Json>
  {
    Get(Some(v), key)
  }

  /** JavaScript truthiness; undefined (None) is falsy. */
  predicate Truthy(v: Option<Json>)
  {
    match v
    case None => false
    case Some(Null) => false
    case Some(Bool(b)) => b
    case Some(Num(n)) => n != 0
    case Some(Str(s)) => s != ""
    case Some(_) => true
  }

  /** `a || b`. */
  function Or(a: Option<Json>, b: Option<Json>): Option<Json>
  {
    if Truthy(a) then a else b
  }

  /** `v || fallback` for a property that may be undefined. */
  function OrElse(v: Option<Json>, fallback: Json): Json
  {
    if Truthy(v) then v.value else fallback
  }

  predicate IsArray(v: Option<Json>)
  {
    v.Some? && v.value.Arr?
  }

  /** `String(v)`, as template literals and `URLSearchParams` apply it. */
  function JsString(v: Json): string
  {
    match v
    case Null => "null"
    case Bool(b) => if b then "true" else "false"
    case Num(n) => IntToString(n)
    case Str(s) => s
    case Arr(items) => Join(ElementStrings(items), ',')
    case Obj(_) => "[object Object]"
  }

  /** The elements as `Array.prototype.join` renders them: null as the empty string. */
  function ElementStrings(items: seq<Json>): seq<string>
    decreases items
  {
    if items == [] then []
    else [if items[0].Null? then "" else JsString(items[0])] + ElementStrings(items[1..])
  }

  function JsStringOf(v: Option<Json>): string
  {
    if v.Some? then JsString(v.value) else "undefined"
  }

  /** `Number(s)` for a string: surrounding whitespace is ignored, the empty
      string is 0, a run of decimal digits is its value, anything else NaN (None). */
  function NumberOfString(s: string): Option<int>
  {
    var t := Trim(s);
    if t == "" then Some(0) else if AllDigits(t) then Some(DigitsValue(t)) else None
  }

  /** `Number(v)`; None is NaN. Strings, arrays and objects go through their string form. */
  function NumberOf(v: Option<Json>): Option<int>
  {
    match v
    case None => None
    case Some(Null) => Some(0)
    case Some(Bool(b)) => Some(if b then 1 else 0)
    case Some(Num(n)) => Some(n)
    case Some(j) => NumberOfString(JsString(j))
  }

  /** `Number.isFinite(v)`: true exactly for number values. */
  predicate IsFiniteNumber(v: Option<Json>)
  {
    v.Some? && v.value.Num?
  }
}
