/** JavaScript values as they reach the storage facade inside a parsed request
    body, together with the two pieces of JavaScript semantics the facade
    depends on: truthiness (`if (!x)`) and string conversion (template-literal
    interpolation `${x}`). */
module JsValues {

  /** A JavaScript value. Numbers are modelled by their integer value plus
      NaN; `-0` and `0` coincide, which JavaScript truthiness and string
      conversion also treat alike. */
  datatype JsValue =
    | Undefined
    | Null
    | Bool(b: bool)
    | Num(n: int)
    | NaN
    | Str(s: string)
    | Arr(elems: seq<JsValue>)
    | Obj(fields: map<string, JsValue>)

  datatype Option<T> = None | Some(value: T)

  /** A request body: the own properties of a plain object. */
  type Body = map<string, JsValue>

  /** The complete list of falsy values of the modelled domain. Empty arrays
      and empty objects are not in it. */
  const FalsyValues: set<JsValue> := {Undefined, Null, Bool(false), Num(0), NaN, Str("")}

  /** JavaScript truthiness: what `if (v)` tests and `!v` negates. */
  predicate Truthy(v: JsValue)
    ensures Truthy(v) <==> v !in FalsyValues
  {
    match v
    case Undefined => false
    case Null => false
    case Bool(b) => b
    case Num(n) => n != 0
    case NaN => false
    case Str(s) => s != ""
    case Arr(_) => true
    case Obj(_) => true
  }

  /** Property access `body[name]`: a missing property reads as undefined. */
  function Prop(body: Body, name: string): JsValue
  {
    if name in body then body[name] else Undefined
  }

  /** The element `Array.prototype.shift` hands back: the first element, or
      undefined for an empty array. */
  function Head(values: seq<JsValue>): JsValue
  {
    if |values| == 0 then Undefined else values[0]
  }

  /** Whether converting `v` to a string throws a TypeError. The modelled
      values hold no functions, so an object with an own `toString`
      property has no callable `toString`, and the inherited `valueOf`
      returns the object itself: no primitive is found. An array converts
      through its elements, so it throws when one of them does. */
  predicate ConversionThrows(v: JsValue)
  {
    match v
    case Obj(fields) => "toString" in fields
    case Arr(elems) => exists i :: 0 <= i < |elems| && ConversionThrows(elems[i])
    case _ => false
  }

  /** `String(v)`, which is what `${v}` in a template literal produces, or
      `None` when the conversion throws. Integers are written out in full
      decimal, which is JavaScript's form for magnitudes below 10^21. Only
      the empty string and arrays render as "" (an empty array is truthy,
      yet renders as ""). */
  function DisplayString(v: JsValue): (r: Option<string>)
    ensures r.None? <==> ConversionThrows(v)
    ensures v.Str? ==> r == Some(v.s)
    ensures v.Num? ==> r.Some? && DenotesInt(r.value, v.n)
    ensures r == Some("") ==> v == Str("") || v.Arr?
    decreases v, 0
  {
    match v
    case Undefined => Some("undefined")
    case Null => Some("null")
    case Bool(b) => Some(if b then "true" else "false")
    case Num(n) => Some(IntToDecimal(n))
    case NaN => Some("NaN")
    case Str(s) => Some(s)
    case Arr(elems) => JoinElements(elems)
    case Obj(fields) => if "toString" in fields then None else Some("[object Object]")
  }

  /** `elems.join(",")`: null and undefined elements contribute "", and the
      join throws when converting an element does. */
  function JoinElements(elems: seq<JsValue>): (r: Option<string>)
    ensures r.None? <==> exists i :: 0 <= i < |elems| && ConversionThrows(elems[i])
  {
    if |elems| == 0 then Some("")
    else if |elems| == 1 then ElementString(elems[0])
    else
      var front, last := JoinElements(elems[..|elems| - 1]), ElementString(elems[|elems| - 1]);
      assert forall i :: 0 <= i < |elems| - 1 ==> elems[..|elems| - 1][i] == elems[i];
      if front.Some? && last.Some? then Some(front.value + "," + last.value) else None
  }

  function ElementString(v: JsValue): (r: Option<string>)
    ensures r.None? <==> ConversionThrows(v)
    decreases v, 1
  {
    if v == Undefined || v == Null then Some("") else DisplayString(v)
  }

  /** Whether every character of `s` is a decimal digit. */
  predicate IsDigits(s: string)
  {
    forall i :: 0 <= i < |s| ==> '0' <= s[i] <= '9'
  }

  /** The number a string of decimal digits denotes, read left to right. */
  function DecimalValue(s: string): nat
    requires IsDigits(s)
  {
    if |s| == 0 then 0 else DecimalValue(s[..|s| - 1]) * 10 + (s[|s| - 1] as int - '0' as int)
  }

  /** `s` is the canonical decimal numeral of `n`: digits without leading
      zeros, a minus sign for a negative number. */
  predicate DenotesInt(s: string, n: int)
  {
    if n < 0 then
      && |s| >= 2 && s[0] == '-' && s[1] != '0'
      && IsDigits(s[1..]) && DecimalValue(s[1..]) == -n
    else
      && |s| >= 1 && (s[0] == '0' ==> |s| == 1)
      && IsDigits(s) && DecimalValue(s) == n
  }

  /** The decimal numeral of an integer. */
  function IntToDecimal(n: int): (r: string)
    ensures DenotesInt(r, n)
  {
    if n < 0 then
      var digits := NatToDecimal(-n);
      assert ("-" + digits)[1..] == digits;
      "-" + digits
    else NatToDecimal(n)
  }

  /** The decimal digits of a natural number, most significant first. */
  function NatToDecimal(n: nat): (r: string)
    ensures |r| >= 1 && IsDigits(r) && DecimalValue(r) == n
    ensures r[0] == '0' ==> n == 0
  {
    if n < 10 then [DigitChar(n)]
    else
      var front := NatToDecimal(n / 10);
      var r := front + [DigitChar(n % 10)];
      assert r[..|r| - 1] == front;
      r
  }

  function DigitChar(d: nat): (c: char)
    requires d < 10
    ensures '0' <= c <= '9' && c as int - '0' as int == d
  {
    ('0' as int + d) as char
  }
}
