/**
 * JavaScript values as the components see them: the results of `JSON.parse`,
 * their own object literals and what they read back from the realtime store,
 * with the few operators the components apply to them (`||`, property access,
 * optional chaining, indexing, object spread, string conversion).
 */
module JsValue {

  /** A JavaScript value. A number is represented by the text JavaScript prints
      for it (`String(n)`, e.g. "0.56", "0", "NaN"): the components only test
      numbers for truthiness and display them, they never compute with them. */
  datatype Value =
    | Undefined
    | Null
    | Bool(b: bool)
    | Num(repr: string)
    | Str(s: string)
    | Arr(items: seq<Value>)
    | Obj(props: map<string, Value>)

  /** The outcome of evaluating an expression that may throw a TypeError
      (reading a property of `null` or `undefined`). */
  datatype Completion<+T> = Normal(value: T) | TypeError

  predicate Nullish(v: Value) {
    v == Undefined || v == Null
  }

  /** JavaScript truthiness: `false`, `0`, `-0`, `NaN`, `""`, `null` and
      `undefined` are falsy; every array and object is truthy. (`-0` prints as "0".) */
  predicate Truthy(v: Value) {
    match v
    case Undefined => false
    case Null => false
    case Bool(b) => b
    case Num(repr) => repr != "0" && repr != "NaN"
    case Str(s) => s != ""
    case Arr(_) => true
    case Obj(_) => true
  }

  /** `a || b` */
  function Or(a: Value, b: Value): Value {
    if Truthy(a) then a else b
  }

  /** `obj.key` on an object literal: a missing key reads as `undefined`. */
  function Field(props: map<string, Value>, key: string): Value {
    if key in props then props[key] else Undefined
  }

  /** `v.key` for a value of unknown shape: throws on `null` and `undefined`.
      Built-in properties of strings and arrays (`length`, prototype members)
      are not modelled; no key the components read is one of them. */
  function Get(v: Value, key: string): (r: Completion<Value>)
    ensures r.TypeError? <==> Nullish(v)
    ensures v.Obj? && key in v.props ==> r == Normal(v.props[key])
    ensures v.Obj? && key !in v.props ==> r == Normal(Undefined)
    ensures !v.Obj? && !Nullish(v) ==> r == Normal(Undefined)
  {
    match v
    case Undefined => TypeError
    case Null => TypeError
    case Obj(props) => Normal(Field(props, key))
    case _ => Normal(Undefined)
  }

  /** `v?.key`: `undefined` instead of a TypeError on `null` and `undefined`. */
  function OptionalGet(v: Value, key: string): Value {
    if Nullish(v) then Undefined else Get(v, key).value
  }

  /** Decimal text of a natural number: the property key of an array index. */
  function DecimalText(n: nat): string {
    var digit := "0123456789"[n % 10];
    if n < 10 then [digit] else DecimalText(n / 10) + [digit]
  }

  /** `v[i]`: an array element, a one-character string, or the property named
      by the index on an object; `undefined` past the end; throws on `null`
      and `undefined`. */
  function Index(v: Value, i: nat): (r: Completion<Value>)
    ensures r.TypeError? <==> Nullish(v)
    ensures v.Arr? ==> r == Normal(if i < |v.items| then v.items[i] else Undefined)
  {
    match v
    case Undefined => TypeError
    case Null => TypeError
    case Arr(items) => Normal(if i < |items| then items[i] else Undefined)
    case Str(s) => Normal(if i < |s| then Str([s[i]]) else Undefined)
    case Obj(props) => Normal(Field(props, DecimalText(i)))
    case _ => Normal(Undefined)
  }

  /** The index-keyed entries that spreading an array contributes. */
  function ElementEntries(items: seq<Value>): map<string, Value> {
    if items == [] then map[]
    else ElementEntries(items[..|items| - 1])[DecimalText(|items| - 1) := items[|items| - 1]]
  }

  /** The index-keyed one-character entries that spreading a string contributes. */
  function CharEntries(s: string): map<string, Value> {
    if s == [] then map[]
    else CharEntries(s[..|s| - 1])[DecimalText(|s| - 1) := Str([s[|s| - 1]])]
  }

  /** The own enumerable properties that `{...v}` copies: an object's
      properties, the indexed elements of an array or a string, and nothing
      for `null`, `undefined`, booleans and numbers. */
  function Spread(v: Value): map<string, Value> {
    match v
    case Obj(props) => props
    case Arr(items) => ElementEntries(items)
    case Str(s) => CharEntries(s)
    case _ => map[]
  }

  /** `{...v, [key]: x}`, the functional update both configuration pages use. */
  function WithKey(v: Value, key: string, x: Value): (r: map<string, Value>)
    ensures key in r && r[key] == x
    ensures forall k :: k != key ==> (k in r <==> k in Spread(v))
    ensures forall k :: k != key && k in r ==> r[k] == Spread(v)[k]
  {
    Spread(v)[key := x]
  }

  /** Updating an object changes the named key and nothing else. */
  lemma WithKeyOnObject(props: map<string, Value>, key: string, x: Value)
    ensures WithKey(Obj(props), key, x) == props[key := x]
    ensures WithKey(Obj(props), key, x).Keys == props.Keys + {key}
  {
  }

  /** `String(v)`, as a template literal or string concatenation converts a value. */
  function ToText(v: Value): string {
    match v
    case Undefined => "undefined"
    case Null => "null"
    case Bool(b) => if b then "true" else "false"
    case Num(repr) => repr
    case Str(s) => s
    case Arr(items) => JoinedTexts(items)
    case Obj(_) => "[object Object]"
  }

  /** `Array.prototype.join(",")`: `null` and `undefined` elements become empty. */
  function JoinedTexts(items: seq<Value>): string {
    if items == [] then ""
    else
      var first := if Nullish(items[0]) then "" else ToText(items[0]);
      if |items| == 1 then first else first + "," + JoinedTexts(items[1..])
  }
}
