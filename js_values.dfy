/**
 * The slice of JavaScript's value semantics that the Google Pay glue code relies
 * on: truthiness (`if (!x)`), `typeof x === "function"`, property access on a
 * possibly missing object, string concatenation (`"" + x`) and loose equality
 * against the string "0".
 *
 * Numbers are integers; a JavaScript object is a map from property names to
 * values. A property that is missing reads as `Undefined`.
 */
module JsValues {

  datatype Option<+T> = None | Some(value: T)

  datatype Value =
    | Undefined
    | Null
    | Bool(b: bool)
    | Num(n: int)
    | Str(s: string)
    | Arr(items: seq<Value>)
    | Obj(props: map<string, Value>)
    | Func(id: nat)

  type Props = map<string, Value>

  /** An object the code mutates in place (the caller's `options` bag). */
  class JsObject {
    var props: Props
  }

  /** The props of a possibly missing object: `None` stands for a falsy `options`. */
  function PropsOf(o: JsObject?): (r: Option<Props>)
    reads o
    ensures r.Some? <==> o != null
  {
    if o == null then None else Some(o.props)
  }

  /** `p.key` on an object whose own properties are `p`. */
  function Get(p: Props, key: string): (r: Value)
    ensures key !in p ==> r == Undefined
  {
    if key in p then p[key] else Undefined
  }

  /** `v.key` for any value; primitives and functions carry none of the keys used here. */
  function Prop(v: Value, key: string): (r: Value)
  {
    match v
    case Obj(p) => Get(p, key)
    case _ => Undefined
  }

  /** JavaScript's ToBoolean: what `if (x)` accepts. */
  predicate Truthy(v: Value)
    ensures !Truthy(v) <==> v == Undefined || v == Null || v == Bool(false) || v == Num(0) || v == Str("")
  {
    match v
    case Undefined => false
    case Null => false
    case Bool(b) => b
    case Num(n) => n != 0
    case Str(s) => s != ""
    case _ => true
  }

  /**
   * `typeof v === "function"`. A function is always truthy, so a test
   * `!f || typeof f !== "function"` comes down to the `typeof` test.
   */
  predicate IsFunction(v: Value)
    ensures IsFunction(v) ==> Truthy(v)
  {
    v.Func?
  }

  // ---------------------------------------------------------------------------
  // Decimal formatting of integers (Number.prototype.toString, radix 10)

  predicate IsDigit(c: char)
  {
    '0' <= c <= '9'
  }

  predicate AllDigits(s: string)
  {
    forall i :: 0 <= i < |s| ==> IsDigit(s[i])
  }

  /** Canonical decimal text: non-empty digits, no leading zero unless the text is "0". */
  predicate Canonical(s: string)
  {
    |s| >= 1 && AllDigits(s) && (|s| > 1 ==> s[0] != '0')
  }

  function DigitChar(d: nat): (c: char)
    requires d < 10
    ensures IsDigit(c)
  {
    ('0' as int + d) as char
  }

  function DigitValue(c: char): (d: nat)
    requires IsDigit(c)
    ensures d < 10
  {
    c as int - '0' as int
  }

  /** The decimal digits of `n`, most significant first. */
  function Digits(n: nat): (r: string)
    ensures Canonical(r)
    ensures n == 0 <==> r == "0"
  {
    if n < 10 then [DigitChar(n)] else Digits(n / 10) + [DigitChar(n % 10)]
  }

  /** The value of a string of decimal digits. */
  function DigitsValue(s: string): (r: nat)
    requires AllDigits(s)
  {
    if s == [] then 0 else DigitsValue(s[..|s| - 1]) * 10 + DigitValue(s[|s| - 1])
  }

  /** Reading back the digits of `n` gives `n`. */
  lemma {:induction false} DigitsRoundTrip(n: nat)
    ensures DigitsValue(Digits(n)) == n
  {
    if n >= 10 {
      var s := Digits(n);
      assert s[..|s| - 1] == Digits(n / 10);
      DigitsRoundTrip(n / 10);
    }
  }

  /**
   * `"" + n` for an integer-valued number: canonical digits, preceded by a minus
   * sign exactly for a negative number (there is no "-0"); "0" only for zero.
   */
  function NumberString(n: int): (r: string)
    ensures n >= 0 ==> Canonical(r)
    ensures n < 0 ==> |r| >= 2 && r[0] == '-' && Canonical(r[1..]) && r[1..] != "0"
    ensures r == "0" <==> n == 0
  {
    if n < 0 then
      var d := Digits(-n);
      assert ("-" + d)[1..] == d;
      "-" + d
    else Digits(n)
  }

  /** The inverse of `NumberString` on the texts it produces. */
  function ParseNumber(s: string): (r: Option<int>)
  {
    if |s| >= 2 && s[0] == '-' && Canonical(s[1..]) && s[1..] != "0" then Some(-(DigitsValue(s[1..]) as int))
    else if Canonical(s) then Some(DigitsValue(s))
    else None
  }

  lemma NumberStringRoundTrip(n: int)
    ensures ParseNumber(NumberString(n)) == Some(n)
  {
    var r := NumberString(n);
    if n < 0 {
      assert r[1..] == Digits(-n);
      DigitsRoundTrip(-n);
    } else {
      assert IsDigit(r[0]);
      DigitsRoundTrip(n);
    }
  }

  /** Distinct integers format to distinct texts. */
  lemma NumberStringInjective(a: int, b: int)
    requires NumberString(a) == NumberString(b)
    ensures a == b
  {
    NumberStringRoundTrip(a);
    NumberStringRoundTrip(b);
  }

  // ---------------------------------------------------------------------------
  // ToString, as used by `"" + v` and `s + v`

  /**
   * JavaScript's ToString of a value (ToPrimitive first for objects and arrays).
   * A string is its own text, and the text of an integer reads back to it.
   */
  function JsString(v: Value): (r: string)
    ensures v.Str? ==> r == v.s
    ensures v.Num? ==> ParseNumber(r) == Some(v.n)
    decreases v, 1
  {
    match v
    case Undefined => "undefined"
    case Null => "null"
    case Bool(b) => if b then "true" else "false"
    case Num(n) => NumberStringRoundTrip(n); NumberString(n)
    case Str(s) => s
    case Arr(items) => JoinFrom(v, 0)
    case Obj(_) => "[object Object]"
    case Func(_) => "function"
  }

  /** `Array.prototype.join(",")` of the items of `a` from index `i` on. */
  function JoinFrom(a: Value, i: nat): (r: string)
    requires a.Arr? && i <= |a.items|
    decreases a, 0, |a.items| - i
  {
    if i == |a.items| then ""
    else
      var item := a.items[i];
      var text := if item.Undefined? || item.Null? then "" else JsString(item);
      (if i == 0 then "" else ",") + text + JoinFrom(a, i + 1)
  }

  /**
   * The loose comparison `v == "0"`: a string compares as text, a number or a
   * boolean through ToNumber("0") == 0, an object or array through its
   * primitive (string) value; `undefined` and `null` equal no string. Apart
   * from `false`, which compares as the number 0, that is exactly the values
   * whose text is "0".
   */
  predicate LooselyEqualsZeroText(v: Value)
    ensures LooselyEqualsZeroText(v) <==> JsString(v) == "0" || v == Bool(false)
  {
    match v
    case Undefined => false
    case Null => false
    case Bool(b) => !b
    case Num(n) => n == 0
    case Str(s) => s == "0"
    case _ => JsString(v) == "0"
  }
}
