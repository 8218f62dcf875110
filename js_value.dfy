/** JavaScript values as they appear in parsed JSON bodies and in the program's
    objects. Numbers are modelled as integers. Object keys are unordered. */
module JsValue {
  import opened Basics
  import opened JsString

  datatype Json =
    | JUndefined
    | JNull
    | JBool(b: bool)
    | JNum(n: int)
    | JStr(s: string)
    | JArr(items: seq<Json>)
    | JObj(fields: map<string, Json>)

  /** `!!v`. */
  predicate Truthy(v: Json) {
    match v
    case JUndefined => false
    case JNull => false
    case JBool(b) => b
    case JNum(n) => n != 0
    case JStr(s) => s != ""
    case JArr(_) => true
    case JObj(_) => true
  }

  /** `a || b`. */
  function Or(a: Json, b: Json): Json {
    if Truthy(a) then a else b
  }

  /** `v.key` when `v` is neither null nor undefined: an own key of a plain
      object, and undefined for every other value (the keys the program reads,
      such as `name` or `error`, are not inherited members). */
  function Get(v: Json, key: string): Json {
    if v.JObj? && key in v.fields then v.fields[key] else JUndefined
  }

  /** `v?.key`. */
  function GetOptional(v: Json, key: string): Json {
    if v.JNull? || v.JUndefined? then JUndefined else Get(v, key)
  }

  /** V8's message for reading a property of null or undefined. */
  function CannotRead(v: Json, key: string): string {
    "Cannot read properties of " + (if v.JNull? then "null" else "undefined") + " (reading '" + key + "')"
  }

  /** `v.key`, which throws a TypeError on null and undefined. */
  function Prop(v: Json, key: string): (r: Result<Json, string>)
    ensures r.Err? <==> v.JNull? || v.JUndefined?
    ensures r.Ok? ==> r.value == Get(v, key)
  {
    if v.JNull? || v.JUndefined? then Err(CannotRead(v, key)) else Ok(Get(v, key))
  }

  /** `v[0]`, which throws a TypeError on null and undefined. */
  function First(v: Json): Result<Json, string> {
    match v
    case JNull => Err(CannotRead(v, "0"))
    case JUndefined => Err(CannotRead(v, "0"))
    case JArr(items) => Ok(if items == [] then JUndefined else items[0])
    case JStr(s) => Ok(if s == [] then JUndefined else JStr([s[0]]))
    case _ => Ok(Get(v, "0"))
  }

  /** A string-valued property: `{[key]: s}`. */
  function StrField(key: string, s: string): map<string, Json> {
    map[key := JStr(s)]
  }

  /** `String(v)`, as template literals and `+ ''` convert. */
  function ToStr(v: Json): string
    decreases v, 0
  {
    match v
    case JUndefined => "undefined"
    case JNull => "null"
    case JBool(b) => if b then "true" else "false"
    case JNum(n) => IntToString(n)
    case JStr(s) => s
    case JArr(items) => Join(seq(|items|, i requires 0 <= i < |items| => ElementStr(items[i])), ",")
    case JObj(_) => "[object Object]"
  }

  /** How `Array.prototype.join` renders one element: null and undefined as the empty string. */
  function ElementStr(v: Json): string
    decreases v, 1
  {
    if v.JNull? || v.JUndefined? then "" else ToStr(v)
  }

  /** `items.join(sep)`. */
  function JoinValues(items: seq<Json>, sep: string): string {
    Join(seq(|items|, i requires 0 <= i < |items| => ElementStr(items[i])), sep)
  }

  /** The strings of a sequence of JSON strings. */
  function Strings(items: seq<Json>): (r: seq<string>)
    requires forall i :: 0 <= i < |items| ==> items[i].JStr?
    ensures |r| == |items|
    ensures forall i :: 0 <= i < |items| ==> items[i] == JStr(r[i])
  {
    seq(|items|, i requires 0 <= i < |items| => items[i].s)
  }

  /** A JSON array of strings. */
  function StrArray(ss: seq<string>): (r: Json)
    ensures r.JArr? && |r.items| == |ss|
    ensures forall i :: 0 <= i < |ss| ==> r.items[i] == JStr(ss[i])
  {
    JArr(seq(|ss|, i requires 0 <= i < |ss| => JStr(ss[i])))
  }
}
