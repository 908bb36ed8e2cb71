/** The JavaScript values a parsed JSON document or stored entry can hold, and the
    conversions the site's code applies to them: truthiness, `typeof`, property access,
    `??`, `String(v)` and `Number(v)`. */
module JsValues {
  import opened Strings

  /** A JavaScript value as produced by `JSON.parse`, plus `undefined` for a missing
      property.  Numbers are integers (see `JsNumber`). */
  datatype JsValue =
    | JUndefined
    | JNull
    | JBool(b: bool)
    | JNum(n: int)
    | JStr(s: string)
    | JArr(items: seq<JsValue>)
    | JObj(fields: map<string, JsValue>)

  /** What `Number(v)` can produce here: `NaN` or an integer. */
  datatype JsNumber = NaN | Num(n: int)

  /** `Boolean(v)`: `undefined`, `null`, `false`, `0`, `NaN` and `''` are falsy. */
  predicate Truthy(v: JsValue) {
    match v
    case JUndefined => false
    case JNull => false
    case JBool(b) => b
    case JNum(n) => n != 0
    case JStr(s) => s != ""
    case _ => true
  }

  predicate NumTruthy(x: JsNumber) {
    x.Num? && x.n != 0
  }

  /** `undefined` or `null`: what `??` and `?.` test for. */
  predicate Nullish(v: JsValue) {
    v.JUndefined? || v.JNull?
  }

  /** `typeof v`. */
  function TypeOf(v: JsValue): (r: string)
    ensures r == "object" <==> v.JNull? || v.JArr? || v.JObj?
  {
    match v
    case JUndefined => "undefined"
    case JNull => "object"
    case JBool(_) => "boolean"
    case JNum(_) => "number"
    case JStr(_) => "string"
    case JArr(_) => "object"
    case JObj(_) => "object"
  }

  /** `v?.[key]` for the plain data keys the site reads: an object's own property, and
      `undefined` for a missing key or for any other kind of value. */
  function Get(v: JsValue, key: string): (r: JsValue)
    ensures !v.JObj? ==> r == JUndefined
    ensures v.JObj? && key !in v.fields ==> r == JUndefined
  {
    if v.JObj? && key in v.fields then v.fields[key] else JUndefined
  }

  /** `v ?? d`. */
  function Coalesce(v: JsValue, d: JsValue): (r: JsValue)
    ensures Nullish(v) ==> r == d
    ensures !Nullish(v) ==> r == v
  {
    if Nullish(v) then d else v
  }

  /** A measure for the recursion of `ToStr` through arrays. */
  function Size(v: JsValue): (r: nat)
    ensures r >= 1
  {
    match v
    case JArr(items) => 1 + SizeAll(items)
    case _ => 1
  }

  function SizeAll(items: seq<JsValue>): nat {
    if items == [] then 0 else Size(items[0]) + SizeAll(items[1..])
  }

  /** `String(v)`.  An array prints as its elements joined with ',' (nullish elements as
      ''), a plain object as "[object Object]". */
  function ToStr(v: JsValue): (r: string)
    ensures v.JStr? ==> r == v.s
    decreases Size(v), 0
  {
    match v
    case JUndefined => "undefined"
    case JNull => "null"
    case JBool(b) => if b then "true" else "false"
    case JNum(n) => IntToString(n)
    case JStr(s) => s
    case JArr(items) => JoinElements(items)
    case JObj(_) => "[object Object]"
  }

  /** `String(v ?? '')`. */
  function TextOr(v: JsValue): (r: string)
    ensures Nullish(v) ==> r == ""
    ensures v.JStr? ==> r == v.s
  {
    ToStr(Coalesce(v, JStr("")))
  }

  /** `Array.prototype.join(',')` as `String` applies it. */
  function JoinElements(items: seq<JsValue>): string
    decreases SizeAll(items), 1
  {
    if items == [] then ""
    else
      var head := if Nullish(items[0]) then "" else ToStr(items[0]);
      if |items| == 1 then head else head + "," + JoinElements(items[1..])
  }

  predicate AllDigits(s: string) {
    forall i :: 0 <= i < |s| ==> IsAsciiDigit(s[i])
  }

  /** `t` without one leading sign character. */
  function Unsigned(t: string): (r: string)
    ensures r == t || (t != [] && r == t[1..])
  {
    if t != [] && (t[0] == '+' || t[0] == '-') then t[1..] else t
  }

  /** An optional sign followed by at least one decimal digit. */
  predicate IsDecimalInteger(t: string) {
    Unsigned(t) != [] && AllDigits(Unsigned(t))
  }

  /** `Number(s)` for a string: blank is 0, a signed decimal integer is its value, and
      anything else is `NaN` here. */
  function StringToNumber(s: string): (r: JsNumber)
    ensures Trim(s) == "" ==> r == Num(0)
    ensures Trim(s) != "" && !IsDecimalInteger(Trim(s)) ==> r == NaN
    ensures IsDecimalInteger(Trim(s)) ==> r.Num? && (r.n < 0 ==> Trim(s)[0] == '-')
  {
    var t := Trim(s);
    if t == "" then Num(0)
    else if !IsDecimalInteger(t) then NaN
    else
      var v := DigitsValue(Unsigned(t));
      DigitsValueNonNegative(Unsigned(t));
      if t[0] == '-' then Num(-v) else Num(v)
  }

  lemma {:induction false} DigitsValueNonNegative(s: string)
    requires AllDigits(s)
    ensures DigitsValue(s) >= 0
  {
    if s != [] {
      DigitsValueNonNegative(s[..|s| - 1]);
    }
  }

  /** `Number(v)`. */
  function ToNumber(v: JsValue): (r: JsNumber)
    ensures v.JNum? ==> r == Num(v.n)
    ensures v.JUndefined? ==> r == NaN
    ensures v.JNull? ==> r == Num(0)
  {
    match v
    case JUndefined => NaN
    case JNull => Num(0)
    case JBool(b) => Num(if b then 1 else 0)
    case JNum(n) => Num(n)
    case JStr(s) => StringToNumber(s)
    case _ => StringToNumber(ToStr(v))
  }

  /** `String(x)` for a number. */
  function NumberToStr(x: JsNumber): string {
    match x
    case NaN => "NaN"
    case Num(n) => IntToString(n)
  }

  /** The value `JSON.parse(JSON.stringify(x))` gives back for a number. */
  function NumberToJson(x: JsNumber): (r: JsValue)
    ensures NumTruthy(x) ==> Truthy(r) && ToNumber(r) == x
  {
    match x
    case NaN => JNull
    case Num(n) => JNum(n)
  }
}
