/** JavaScript values as they reach the connection from JSON.parse or from
    application code, with the two conversions the connection relies on:
    truthiness (`x && ...`, `x ? a : b`, `x || y`) and String(x), which
    RegExp.prototype.test and string concatenation apply to their operand. */
module JsValues {

  datatype Option<+T> = None | Some(value: T)

  /** A decoded JSON value, plus `undefined` for an absent property.
      Numbers are integers (fractional numbers and NaN are not modelled). */
  datatype Value =
    | Undefined
    | Null
    | Bool(b: bool)
    | Num(n: int)
    | Str(s: string)
    | Arr(elems: seq<Value>)
    | Obj(fields: map<string, Value>)

  /** JavaScript truthiness: undefined, null, false, 0 and "" are falsy;
      every array and object, even an empty one, is truthy. */
  predicate Truthy(v: Value) {
    match v
    case Undefined => false
    case Null => false
    case Bool(b) => b
    case Num(n) => n != 0
    case Str(s) => s != ""
    case Arr(_) => true
    case Obj(_) => true
  }

  /** Arrays and objects are the values a property can be set on. */
  predicate IsObject(v: Value) {
    v.Arr? || v.Obj?
  }

  /** Reading property `name` of `v` (`v.name`): undefined for a missing
      property and for every primitive; arrays are given no named
      properties. Reading from null or undefined throws, see `Readable`. */
  function Property(v: Value, name: string): Value {
    if v.Obj? && name in v.fields then v.fields[name] else Undefined
  }

  /** Whether `v.name` can be evaluated without a TypeError. */
  predicate Readable(v: Value) {
    !v.Undefined? && !v.Null?
  }

  function DigitChar(d: int): (c: char)
    requires 0 <= d < 10
    ensures '0' <= c <= '9'
  {
    ["0123456789"][0][d]
  }

  /** The decimal numeral of a natural number, most significant digit first. */
  function NatToString(n: nat): (s: string)
    ensures |s| >= 1
    ensures forall i :: 0 <= i < |s| ==> '0' <= s[i] <= '9'
    decreases n
  {
    if n < 10 then [DigitChar(n)] else NatToString(n / 10) + [DigitChar(n % 10)]
  }

  /** String(n) for an integer n. */
  function NumberToString(n: int): (s: string)
    ensures |s| >= 1
    ensures forall i :: 0 <= i < |s| ==> s[i] == '-' || '0' <= s[i] <= '9'
  {
    if n < 0 then "-" + NatToString(-n) else NatToString(n)
  }

  /** `strs.join(sep)` */
  function Join(strs: seq<string>, sep: string): string {
    if |strs| == 0 then ""
    else if |strs| == 1 then strs[0]
    else strs[0] + sep + Join(strs[1..], sep)
  }

  /** String(v). Array.prototype.join writes null and undefined elements as
      the empty string; every plain object is "[object Object]". */
  function Stringify(v: Value): string
    decreases v
  {
    match v
    case Undefined => "undefined"
    case Null => "null"
    case Bool(b) => if b then "true" else "false"
    case Num(n) => NumberToString(n)
    case Str(s) => s
    case Arr(xs) =>
      Join(seq(|xs|, i requires 0 <= i < |xs| =>
             if xs[i].Undefined? || xs[i].Null? then "" else Stringify(xs[i])), ",")
    case Obj(_) => "[object Object]"
  }

  /** No decimal numeral contains the letter x. */
  lemma NumberHasNoX(n: int, i: int)
    requires 0 <= i < |NumberToString(n)|
    ensures NumberToString(n)[i] != 'x'
  {
  }

  /** A primitive compares equal to a Map key by value; arrays and objects
      compare by identity, and a value freshly produced by JSON.parse is
      identical to no key stored earlier. */
  predicate IsPrimitive(v: Value) {
    !IsObject(v)
  }

  /** `m.get(k)` on a JavaScript Map whose keys are values of this model. */
  function MapGet<V>(m: map<Value, V>, k: Value): Option<V> {
    if IsPrimitive(k) && k in m then Some(m[k]) else None
  }
}
