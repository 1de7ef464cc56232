/**
 * The JavaScript values the client passes around as ids, filters and body
 * fields, with the two pieces of JavaScript semantics the client relies on:
 * truthiness (`if (v)`, `v ? a : b`, `v || d`) and the string conversion a
 * template literal applies to an interpolated value.
 */
module Js {
  import opened Wrappers

  /** Primitive JavaScript values; numbers are integers (fractions and NaN are not modelled). */
  datatype JsValue = Undefined | Null | Bool(b: bool) | Num(n: int) | Str(s: string)

  /** JavaScript truthiness: the falsy primitives are exactly undefined, null, false, 0 and "". */
  predicate Truthy(v: JsValue)
    ensures Truthy(v) <==> v !in {Undefined, Null, Bool(false), Num(0), Str("")}
  {
    match v
    case Undefined => false
    case Null => false
    case Bool(b) => b
    case Num(n) => n != 0
    case Str(s) => |s| > 0
  }

  /** The value `localStorage.getItem` yields: the stored string, or null for a missing key. */
  function OfItem(item: Option<string>): JsValue
  {
    match item
    case None => Null
    case Some(s) => Str(s)
  }

  /** A stored item (or an optional string field) is truthy exactly when it is there and not empty. */
  predicate Present(item: Option<string>)
    ensures Present(item) <==> item.Some? && item.value != ""
  {
    Truthy(OfItem(item))
  }

  /** The argument a JavaScript default parameter sees: `undefined` is replaced, everything else kept. */
  function OrDefault(arg: JsValue, default: JsValue): (r: JsValue)
    ensures arg != Undefined ==> r == arg
    ensures arg == Undefined ==> r == default
  {
    if arg == Undefined then default else arg
  }

  function DigitChar(d: nat): char
    requires d < 10
  {
    ('0' as int + d) as char
  }

  function DigitValue(c: char): nat
  {
    if '0' <= c <= '9' then c as int - '0' as int else 0
  }

  /** Decimal digits of a natural number, most significant first, without leading zeros. */
  function NatToString(n: nat): (r: string)
    ensures |r| > 0
    ensures forall k :: 0 <= k < |r| ==> '0' <= r[k] <= '9'
    ensures |r| > 1 ==> r[0] != '0'
    decreases n
  {
    if n < 10 then [DigitChar(n)] else NatToString(n / 10) + [DigitChar(n % 10)]
  }

  /** The number a string of decimal digits denotes (non-digits count as 0). */
  function ParseDecimal(s: string): nat
    decreases |s|
  {
    if |s| == 0 then 0 else 10 * ParseDecimal(s[..|s| - 1]) + DigitValue(s[|s| - 1])
  }

  /** Reading the decimal rendering back gives the number again. */
  lemma {:induction false} DecimalRoundTrip(n: nat)
    ensures ParseDecimal(NatToString(n)) == n
    decreases n
  {
    var s := NatToString(n);
    if n >= 10 {
      var front := NatToString(n / 10);
      assert s == front + [DigitChar(n % 10)];
      assert s[..|s| - 1] == front;
      DecimalRoundTrip(n / 10);
    }
  }

  /** `String(n)` of an integer: an optional minus sign followed by the decimal digits. */
  function IntToString(i: int): (r: string)
    ensures var start := if i < 0 then 1 else 0;
      && |r| > start
      && (i < 0 <==> r[0] == '-')
      && (forall k :: start <= k < |r| ==> '0' <= r[k] <= '9')
      && (|r| > start + 1 ==> r[start] != '0')
      && ParseDecimal(r[start..]) == if i < 0 then -i else i
  {
    if i < 0 then
      DecimalRoundTrip(-i);
      assert ("-" + NatToString(-i))[1..] == NatToString(-i);
      "-" + NatToString(-i)
    else
      DecimalRoundTrip(i);
      assert NatToString(i)[0..] == NatToString(i);
      NatToString(i)
  }

  /** The text a template literal substitutes for `${v}`. */
  function Render(v: JsValue): (r: string)
    ensures v.Str? ==> r == v.s
    ensures v.Num? ==> r == IntToString(v.n)
    ensures v.Num? && v.n >= 0 ==> ParseDecimal(r) == v.n
    ensures v.Bool? ==> r == if v.b then "true" else "false"
    ensures v == Null ==> r == "null"
    ensures v == Undefined ==> r == "undefined"
  {
    match v
    case Undefined => "undefined"
    case Null => "null"
    case Bool(b) => if b then "true" else "false"
    case Num(n) =>
      assert IntToString(n)[0..] == IntToString(n);
      IntToString(n)
    case Str(s) => s
  }
}
