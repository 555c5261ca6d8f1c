/**
 * Parsed JSON values, with the handful of JavaScript semantics the servers and the
 * client rely on: truthiness (`!x`), `a || b`, property reads on a parsed object, and
 * the string conversion used by template literals and by table lookups `T[k]`.
 */
module Json {
  import opened Text

  /** A JavaScript value as it appears in a parsed request or response. Numbers are integers. */
  datatype Value =
    | Undefined
    | Null
    | Bool(b: bool)
    | Num(n: int)
    | Str(s: string)
    | Arr(items: seq<Value>)
    | Obj(fields: map<string, Value>)

  /** Reading a property of these throws a TypeError. */
  predicate Nullish(v: Value) {
    v.Undefined? || v.Null?
  }

  /** JavaScript truthiness: undefined, null, false, 0 and "" are falsy; every array and object is truthy. */
  predicate Truthy(v: Value) {
    match v
    case Undefined => false
    case Null => false
    case Bool(b) => b
    case Num(n) => n != 0
    case Str(s) => s != ""
    case Arr(_) => true
    case Obj(_) => true
  }

  lemma FalsyValues(v: Value)
    ensures !Truthy(v) <==> v in {Undefined, Null, Bool(false), Num(0), Str("")}
  {
  }

  /** `a || b`. */
  function Or(a: Value, b: Value): (r: Value)
    ensures Truthy(a) ==> r == a
    ensures !Truthy(a) ==> r == b
    ensures Truthy(r) <==> Truthy(a) || Truthy(b)
  {
    if Truthy(a) then a else b
  }

  /** `v.key` on a value that is not nullish: an own property of an object, otherwise undefined. */
  function Field(v: Value, key: string): Value {
    if v.Obj? && key in v.fields then v.fields[key] else Undefined
  }

  /** `v?.key`. */
  function OptField(v: Value, key: string): Value {
    if Nullish(v) then Undefined else Field(v, key)
  }

  /** JavaScript `String(v)`, as used in template literals and property keys. */
  function ToString(v: Value): string
    decreases v
  {
    match v
    case Undefined => "undefined"
    case Null => "null"
    case Bool(b) => if b then "true" else "false"
    case Num(n) => IntToString(n)
    case Str(s) => s
    case Arr(items) =>
      Join(seq(|items|, i requires 0 <= i < |items| =>
        if Nullish(items[i]) then "" else ToString(items[i])), ",")
    case Obj(_) => "[object Object]"
  }

  /** A JSON array of strings, such as `['email', 'full_name']`. */
  function Strs(xs: seq<string>): (r: Value)
    ensures r.Arr? && |r.items| == |xs|
    ensures forall i :: 0 <= i < |xs| ==> r.items[i] == Str(xs[i])
  {
    Arr(seq(|xs|, i requires 0 <= i < |xs| => Str(xs[i])))
  }

  /** `Math.round(num / den)` computed exactly: the nearest integer, a half rounded up. */
  function MathRound(num: int, den: int): (r: int)
    requires den > 0
    ensures 2 * den * r - den <= 2 * num < 2 * den * r + den
  {
    var q := (2 * num + den) / (2 * den);
    assert 2 * num + den == 2 * den * q + (2 * num + den) % (2 * den);
    q
  }
}
