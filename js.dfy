/** The slice of JavaScript value semantics the handlers and the page rely on:
    JSON-shaped values, truthiness (`!x`, `x || y`), property reads on a
    parsed body and `String(x)` coercion. */
module Js {
  import opened Wrappers

  /** A value that `request.json()` or `response.json()` can produce, plus
      `undefined`, which a missing property reads as. Numbers are modelled as
      integers. */
  datatype Value =
    | Undefined
    | Null
    | Bool(b: bool)
    | Num(n: int)
    | Str(s: string)
    | Arr(elems: seq<Value>)
    | Obj(fields: map<string, Value>)

  /** JavaScript truthiness: `false`, `0`, `""`, `null` and `undefined` are
      falsy; every array and object (even empty) is truthy. A truthy value
      is never null or undefined, so reading a property of it does not throw. */
  predicate Truthy(v: Value)
    ensures v.Arr? || v.Obj? ==> Truthy(v)
    ensures Truthy(v) ==> Properties(v).Some?
  {
    match v
    case Undefined => false
    case Null => false
    case Bool(b) => b
    case Num(n) => n != 0
    case Str(s) => s != ""
    case Arr(_) => true
    case Obj(_) => true
  }

  /** `a || b`: one of the operands, the first when it is truthy; the result
      is truthy exactly when either operand is. */
  function Or(a: Value, b: Value): (r: Value)
    ensures r == a || r == b
    ensures Truthy(a) ==> r == a
    ensures Truthy(r) <==> Truthy(a) || Truthy(b)
  {
    if Truthy(a) then a else b
  }

  /** `v || undefined` written into an object that `JSON.stringify` then
      serialises: None when the key is left out, so the field is kept exactly
      when `v` is truthy, and then as `v` itself. */
  function DropFalsy(v: Value): (r: Option<Value>)
    ensures KeptIfTruthy(r, v)
  {
    if Truthy(v) then Some(v) else None
  }

  /** An optional field: present exactly when the input is truthy, and then
      the input itself, neither coerced nor truncated. */
  predicate KeptIfTruthy(field: Option<Value>, input: Value) {
    (field.Some? <==> Truthy(input)) && (field.Some? ==> field.value == input)
  }

  /** A `string | undefined` (an environment entry, a UTM entry) as a value */
  function Undefinable(o: Option<string>): Value {
    if o.Some? then Str(o.value) else Undefined
  }

  /** A `string | undefined` is truthy when it is set and non-empty: exactly
      when a guard `!value` is false. */
  predicate Present(o: Option<string>)
    ensures Present(o) <==> Truthy(Undefinable(o))
  {
    o.Some? && o.value != ""
  }

  /** The properties `v.key` can read, or None when reading any property of
      `v` throws a TypeError (`v` is null or undefined). A primitive or an
      array has none of the named keys the handlers read. */
  function Properties(v: Value): (r: Option<map<string, Value>>)
    ensures r.None? <==> v == Null || v == Undefined
  {
    match v
    case Undefined => None
    case Null => None
    case Obj(fields) => Some(fields)
    case _ => Some(map[])
  }

  /** `obj.key` on an object whose properties are `props`: one of the
      property values, or undefined for a missing key */
  function Get(props: map<string, Value>, key: string): (r: Value)
    ensures key in props ==> r == props[key]
    ensures key !in props ==> r == Undefined
    ensures r == Undefined || r in props.Values
  {
    if key in props then props[key] else Undefined
  }

  /** `String(v)`: a string is itself, a number its decimal rendering, and
      every truthy value other than an array a non-empty string (an empty
      array is truthy yet coerces to ""). */
  function ToStr(v: Value): (r: string)
    ensures v.Str? ==> r == v.s
    ensures v.Num? ==> r == IntToDecimal(v.n)
    ensures Truthy(v) && !v.Arr? ==> r != ""
    decreases v
  {
    match v
    case Undefined => "undefined"
    case Null => "null"
    case Bool(b) => if b then "true" else "false"
    case Num(n) => IntToDecimal(n)
    case Str(s) => s
    case Arr(elems) => Join(elems)
    case Obj(_) => "[object Object]"
  }

  /** `elems.join(",")`, where null and undefined elements render as "": one
      separator between each pair of elements, so the result is at least
      `|elems| - 1` long, a single element renders alone, and a longer array
      starts with its first element's rendering followed by ",". */
  function Join(elems: seq<Value>): (r: string)
    ensures elems == [] ==> r == ""
    ensures |elems| >= 1 ==> |r| >= |elems| - 1
    ensures |elems| == 1 ==> r == (if elems[0] == Null || elems[0] == Undefined then "" else ToStr(elems[0]))
    ensures |elems| >= 2 ==> (if elems[0] == Null || elems[0] == Undefined then "" else ToStr(elems[0])) + "," <= r
    decreases elems
  {
    if elems == [] then ""
    else
      var head := if elems[0] == Null || elems[0] == Undefined then "" else ToStr(elems[0]);
      if |elems| == 1 then head else head + "," + Join(elems[1..])
  }

  function DigitChar(d: nat): char
    requires d < 10
  {
    ('0' as int + d) as char
  }

  predicate IsDigit(c: char) {
    '0' <= c <= '9'
  }

  /** The number a string of decimal digits denotes, most significant digit
      first; the empty string denotes 0. */
  ghost function DecimalValue(s: string): nat
    requires forall i :: 0 <= i < |s| ==> IsDigit(s[i])
  {
    if s == [] then 0
    else
      assert IsDigit(s[|s| - 1]);
      DecimalValue(s[..|s| - 1]) * 10 + (s[|s| - 1] as int - '0' as int)
  }

  /** The decimal rendering of a natural number, most significant digit
      first, without leading zeros, denoting `n` */
  function NatToDecimal(n: nat): (r: string)
    ensures |r| >= 1
    ensures forall i :: 0 <= i < |r| ==> IsDigit(r[i])
    ensures |r| > 1 ==> r[0] != '0'
    ensures DecimalValue(r) == n
    decreases n
  {
    if n < 10 then [DigitChar(n)]
    else
      var prefix := NatToDecimal(n / 10);
      var r := prefix + [DigitChar(n % 10)];
      assert r[..|r| - 1] == prefix;
      r
  }

  /** The decimal rendering of an integer: a minus sign exactly for negative
      numbers, followed by the rendering of the magnitude. */
  function IntToDecimal(n: int): (r: string)
    ensures r != ""
    ensures r[0] == '-' <==> n < 0
    ensures n < 0 ==> r == "-" + NatToDecimal(-n)
    ensures n >= 0 ==> r == NatToDecimal(n)
  {
    if n < 0 then "-" + NatToDecimal(-n) else NatToDecimal(n)
  }

  /** `String(v || '')`: falsy values coerce to the empty string, and a string
      coerces to itself. */
  lemma CoerceOrEmpty(v: Value)
    ensures !Truthy(v) ==> ToStr(Or(v, Str(""))) == ""
    ensures v.Str? ==> ToStr(Or(v, Str(""))) == v.s
  {
  }

  lemma EmptyArrayCoercesEmpty()
    ensures Truthy(Arr([])) && ToStr(Arr([])) == ""
  {
  }
}
