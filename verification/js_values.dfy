/**
 * The JavaScript values that a GeoJSON property can hold once the browser has
 * parsed the response, with the two conversions the component relies on:
 * truthiness (`if (!name)`) and the numeric conversion performed by unary
 * `+` and by the relational operator `>`.
 */
module JsValues {

  /** A property value. Numbers are exact reals; NaN is a value of its own. */
  datatype JsValue =
    | Undefined
    | Null
    | Bool(b: bool)
    | Num(x: real)
    | NaN
    | Text(s: string)

  /** Property bags: a key that is not present reads as `undefined`. */
  type Properties = map<string, JsValue>

  function Get(props: Properties, key: string): (v: JsValue)
    ensures key !in props ==> v == Undefined
    ensures key in props ==> v == props[key]
  {
    if key in props then props[key] else Undefined
  }

  /** The six falsy values a property can hold. */
  const Falsy: set<JsValue> := {Undefined, Null, Bool(false), Num(0.0), NaN, Text("")}

  /** JavaScript truthiness: `undefined`, `null`, `false`, `0`, `NaN` and `""` are falsy. */
  predicate Truthy(v: JsValue): (t: bool)
    ensures t <==> v !in Falsy
  {
    match v
    case Undefined => false
    case Null => false
    case Bool(b) => b
    case Num(x) => x != 0.0
    case NaN => false
    case Text(s) => s != ""
  }

  predicate IsDigit(c: char)
  {
    '0' <= c <= '9'
  }

  /** Decimal value of a string of digits. */
  function DigitsValue(s: string): (n: nat)
    requires forall i :: 0 <= i < |s| ==> IsDigit(s[i])
  {
    if s == [] then 0
    else
      var d := (s[|s| - 1] as int) - ('0' as int);
      assert 0 <= d by { assert IsDigit(s[|s| - 1]); }
      DigitsValue(s[..|s| - 1]) * 10 + d
  }

  /**
   * The numeric conversion of a value (ECMAScript ToNumber). Strings are
   * converted only when empty or made of decimal digits; every other string
   * converts to NaN here.
   */
  function ToNumber(v: JsValue): (r: JsValue)
    ensures r.Num? || r.NaN?
    ensures v.Num? ==> r == v
    ensures v.Undefined? || v.NaN? ==> r == NaN
    ensures v.Null? ==> r == Num(0.0)
    ensures v.Bool? ==> r == Num(if v.b then 1.0 else 0.0)
  {
    match v
    case Undefined => NaN
    case Null => Num(0.0)
    case Bool(b) => Num(if b then 1.0 else 0.0)
    case Num(x) => v
    case NaN => NaN
    case Text(s) =>
      if forall i :: 0 <= i < |s| ==> IsDigit(s[i]) then Num(DigitsValue(s) as real) else NaN
  }

  /** `v > bound` for a numeric bound: the value is converted, NaN compares false. */
  predicate GreaterThan(v: JsValue, bound: real): (r: bool)
    ensures v.Num? ==> (r <==> v.x > bound)
    ensures v.Undefined? || v.NaN? ==> !r
    ensures v.Null? ==> (r <==> 0.0 > bound)
    ensures v.Bool? ==> (r <==> (if v.b then 1.0 else 0.0) > bound)
  {
    match ToNumber(v)
    case Num(x) => x > bound
    case _ => false
  }
}
