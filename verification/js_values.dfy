/**
 The slice of JavaScript's value semantics the three components rely on:
 truthiness, the nullish test, the `??`, `||` and `?.` operators, plain
 property lookup and the string a value turns into inside a template literal.

 Numbers are integral (`Num`); objects are records of own properties with no
 prototype chain.
 */
module JsValues {
  import Decimal

  datatype Value =
    | Undefined
    | Null
    | Bool(b: bool)
    | Num(n: int)
    | Str(s: string)
    | Arr(elems: seq<Value>)
    | Obj(props: map<string, Value>)

  /** A plain record such as an sObject delivered by Apex: field name to value. */
  type Record = map<string, Value>

  /** `v == null` in JavaScript: true of `null` and `undefined` only. */
  predicate IsNullish(v: Value) {
    v.Undefined? || v.Null?
  }

  /** The falsy values are `undefined`, `null`, `false`, `0` and `""`; everything else is truthy. */
  predicate Truthy(v: Value) {
    match v
    case Undefined => false
    case Null => false
    case Bool(b) => b
    case Num(n) => n != 0
    case Str(s) => s != ""
    case Arr(_) => true
    case Obj(_) => true
  }

  /** A value that is not an object or an array. */
  predicate IsPrimitive(v: Value) {
    !v.Arr? && !v.Obj?
  }

  /** `a ?? b` */
  function Coalesce(a: Value, b: Value): (r: Value)
    ensures IsNullish(a) ==> r == b
    ensures !IsNullish(a) ==> r == a
  {
    if IsNullish(a) then b else a
  }

  /** `a || b` */
  function Or(a: Value, b: Value): (r: Value)
    ensures Truthy(a) ==> r == a
    ensures !Truthy(a) ==> r == b
  {
    if Truthy(a) then a else b
  }

  /** `rec.key` on a plain record: a missing field reads as `undefined`. */
  function Field(rec: Record, key: string): (r: Value)
    ensures key !in rec ==> r == Undefined
    ensures key in rec ==> r == rec[key]
  {
    if key in rec then rec[key] else Undefined
  }

  /** `v.key` on a value that is not nullish: only objects carry named own properties here. */
  function GetProp(v: Value, key: string): (r: Value)
    requires !IsNullish(v)
  {
    if v.Obj? then Field(v.props, key) else Undefined
  }

  /** `v?.key`: short-circuits to `undefined` on a nullish receiver instead of throwing. */
  function OptionalProp(v: Value, key: string): (r: Value)
    ensures IsNullish(v) ==> r == Undefined
    ensures !v.Obj? ==> r == Undefined
  {
    if IsNullish(v) then Undefined else GetProp(v, key)
  }

  /** Comma join, as `Array.prototype.join` with its default separator. */
  function JoinComma(parts: seq<string>): (joined: string) {
    if parts == [] then ""
    else if |parts| == 1 then parts[0]
    else parts[0] + "," + JoinComma(parts[1..])
  }

  /** The string `${v}` produces; arrays print their elements comma-joined with nullish elements empty. */
  function TemplateString(v: Value): (text: string) {
    match v
    case Undefined => "undefined"
    case Null => "null"
    case Bool(b) => if b then "true" else "false"
    case Num(n) => Decimal.IntToString(n)
    case Str(s) => s
    case Obj(_) => "[object Object]"
    case Arr(es) =>
      JoinComma(seq(|es|, i requires 0 <= i < |es| =>
        if IsNullish(es[i]) then "" else TemplateString(es[i])))
  }

  lemma TemplateStringOfNum(n: int)
    ensures Decimal.ParseInt(TemplateString(Num(n))) == n
  {
    Decimal.IntToStringRoundTrip(n);
  }
}
