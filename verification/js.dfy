/** The JavaScript values the service worker passes around untyped (message
    payloads, push payloads, parsed JSON, stored configuration), with the
    conversions the worker code relies on: truthiness, loose comparison with
    `undefined`, `??`, optional property access and template-literal text.
    Numbers are integers here; fractional numbers and NaN values stored in a
    value are not modelled. */
module Js {
  import opened Wrappers

  datatype Value =
    | Undefined
    | Null
    | Bool(b: bool)
    | Num(n: int)
    | Str(s: string)
    /** A plain object: its own properties in insertion order, with
        distinct names. */
    | Obj(props: seq<(string, Value)>)

  /** `!!v`. */
  predicate Truthy(v: Value) {
    match v
    case Undefined => false
    case Null => false
    case Bool(b) => b
    case Num(n) => n != 0
    case Str(s) => s != ""
    case Obj(_) => true
  }

  /** `v == undefined`, which also holds for null. */
  predicate IsNullish(v: Value) {
    v.Undefined? || v.Null?
  }

  /** `v ?? def`. */
  function Coalesce(v: Value, def: Value): Value {
    if IsNullish(v) then def else v
  }

  /** `v == ""` with JavaScript's loose equality: the empty string, zero and
      false are all equal to "". */
  predicate LooseEqualsEmptyString(v: Value) {
    match v
    case Str(s) => s == ""
    case Num(n) => n == 0
    case Bool(b) => !b
    case _ => false
  }

  /** The value of the first property named `key`. */
  function Lookup(props: seq<(string, Value)>, key: string): Option<Value> {
    if props == [] then None
    else if props[0].0 == key then Some(props[0].1)
    else Lookup(props[1..], key)
  }

  /** `v?.key` on a parsed value: undefined unless `v` is an object with
      that property. */
  function Prop(v: Value, key: string): Value {
    if v.Obj? && Lookup(v.props, key).Some? then Lookup(v.props, key).value else Undefined
  }

  /** `key in v`: None where the operator throws (`v` is not an object). */
  function Has(v: Value, key: string): Option<bool> {
    if v.Obj? then Some(Lookup(v.props, key).Some?) else None
  }

  /** `Number(v)` for the values whose conversion is a whole number; None
      stands for NaN. Numeric strings are not converted. */
  function ToNumber(v: Value): Option<int> {
    match v
    case Null => Some(0)
    case Bool(b) => Some(if b then 1 else 0)
    case Num(n) => Some(n)
    case _ => None
  }

  function DigitChar(d: nat): char
    requires d < 10
  {
    ('0' as int + d) as char
  }

  /** The decimal digits of a natural number, without leading zeros. */
  function NatToString(n: nat): (s: string)
    ensures |s| > 0
    ensures forall k :: 0 <= k < |s| ==> '0' <= s[k] <= '9'
  {
    if n < 10 then [DigitChar(n)] else NatToString(n / 10) + [DigitChar(n % 10)]
  }

  /** `String(n)` for an integer. */
  function IntToString(n: int): (s: string)
    ensures |s| > 0
  {
    if n < 0 then "-" + NatToString(-n) else NatToString(n)
  }

  /** `${n}` for a number that may be NaN. */
  function NumberText(n: Option<int>): string {
    if n.Some? then IntToString(n.value) else "NaN"
  }

  /** `${v}`: the text a template literal inserts for a value. */
  function ToText(v: Value): string {
    match v
    case Undefined => "undefined"
    case Null => "null"
    case Bool(b) => if b then "true" else "false"
    case Num(n) => IntToString(n)
    case Str(s) => s
    case Obj(_) => "[object Object]"
  }

  /** `parts.join(sep)`. */
  function Join(parts: seq<string>, sep: string): string {
    if parts == [] then ""
    else if |parts| == 1 then parts[0]
    else Join(parts[..|parts| - 1], sep) + sep + parts[|parts| - 1]
  }
}
