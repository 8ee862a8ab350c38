/**
 * The small part of JavaScript value semantics that the sync logic depends on:
 * `Number.parseInt` on a string argument, the property name that an integer
 * number becomes when it is used as an object key, and strict equality (`===`)
 * between values of possibly different types.
 */
module JsValues {

  /** A JavaScript number, restricted to the integers the sync logic stores, plus NaN. */
  datatype JsNumber = Finite(n: int) | NaN

  /** The JavaScript values that appear in the comparisons and calls of the sync logic. */
  datatype JsValue = JsBool(b: bool) | JsString(s: string) | JsNum(x: JsNumber)

  /** A height argument as callers pass it: a number, or a string that is converted first. */
  datatype HeightArg = NumberArg(n: int) | StringArg(s: string)

  /** `===`: values of different types are never strictly equal, and NaN is not equal to itself. */
  predicate StrictEquals(a: JsValue, b: JsValue)
  {
    match (a, b)
    case (JsBool(x), JsBool(y)) => x == y
    case (JsString(x), JsString(y)) => x == y
    case (JsNum(Finite(x)), JsNum(Finite(y))) => x == y
    case _ => false
  }

  /** The white space and line terminators that `parseInt` skips before the number. */
  predicate IsWhitespace(c: char)
  {
    var u := c as int;
    u == 0x09 || u == 0x0A || u == 0x0B || u == 0x0C || u == 0x0D || u == 0x20 || u == 0xA0 ||
    u == 0x1680 || (0x2000 <= u <= 0x200A) || u == 0x2028 || u == 0x2029 || u == 0x202F ||
    u == 0x205F || u == 0x3000 || u == 0xFEFF
  }

  function TrimStart(s: string): (t: string)
    ensures |t| <= |s| && t == s[|s| - |t|..]
    ensures |t| > 0 ==> !IsWhitespace(t[0])
  {
    if |s| > 0 && IsWhitespace(s[0]) then TrimStart(s[1..]) else s
  }

  /** The value of `c` as a digit in base 10 or 16, or -1 when it is not one. */
  function DigitValue(c: char, radix: nat): (v: int)
    requires radix == 10 || radix == 16
    ensures -1 <= v < radix
  {
    if '0' <= c <= '9' then c as int - '0' as int
    else if radix == 16 && 'a' <= c <= 'f' then c as int - 'a' as int + 10
    else if radix == 16 && 'A' <= c <= 'F' then c as int - 'A' as int + 10
    else -1
  }

  /** The number of leading characters of `s` that are digits in `radix`. */
  function DigitPrefix(s: string, radix: nat): (k: nat)
    requires radix == 10 || radix == 16
    ensures k <= |s|
    ensures forall j :: 0 <= j < k ==> DigitValue(s[j], radix) >= 0
    ensures k < |s| ==> DigitValue(s[k], radix) < 0
  {
    if |s| == 0 || DigitValue(s[0], radix) < 0 then 0 else 1 + DigitPrefix(s[1..], radix)
  }

  /** The value of a string of digits, most significant first. */
  function DigitsValue(s: string, radix: nat): nat
    requires radix == 10 || radix == 16
    requires forall j :: 0 <= j < |s| ==> DigitValue(s[j], radix) >= 0
  {
    if |s| == 0 then 0
    else DigitsValue(s[..|s| - 1], radix) * radix + DigitValue(s[|s| - 1], radix)
  }

  /**
   * `Number.parseInt(s)` with no radix: skip leading white space, take an optional
   * sign, switch to base 16 after a `0x` or `0X` prefix, and read the longest run
   * of digits; no digit at all gives NaN.
   */
  function ParseInt(s: string): JsNumber
  {
    var t := TrimStart(s);
    if |t| > 0 && t[0] == '-' then Negate(ParseMagnitude(t[1..]))
    else if |t| > 0 && t[0] == '+' then ParseMagnitude(t[1..])
    else ParseMagnitude(t)
  }

  /** The unsigned part of `parseInt`: an optional `0x` prefix, then digits. */
  function ParseMagnitude(u: string): JsNumber
  {
    if |u| >= 2 && u[0] == '0' && (u[1] == 'x' || u[1] == 'X') then DigitRun(u[2..], 16)
    else DigitRun(u, 10)
  }

  /** The longest run of leading digits of `body`, or NaN when there is none. */
  function DigitRun(body: string, radix: nat): JsNumber
    requires radix == 10 || radix == 16
  {
    var digits := body[..DigitPrefix(body, radix)];
    if |digits| == 0 then NaN else Finite(DigitsValue(digits, radix))
  }

  function Negate(x: JsNumber): JsNumber
  {
    match x
    case NaN => NaN
    case Finite(v) => Finite(-v)
  }

  /** The decimal digits of `n`, without leading zeros. */
  function NatDecimal(n: nat): (s: string)
    ensures |s| >= 1
    ensures forall j :: 0 <= j < |s| ==> '0' <= s[j] <= '9'
    ensures s[0] == '0' ==> n == 0 && |s| == 1
  {
    if n < 10 then ['0' + n as char]
    else NatDecimal(n / 10) + ['0' + (n % 10) as char]
  }

  /** The property name a number becomes when it is used as an object key (`String(x)`). */
  function NumberKey(x: JsNumber): string
  {
    match x
    case NaN => "NaN"
    case Finite(n) => if n < 0 then "-" + NatDecimal(-n) else NatDecimal(n)
  }

  /** The numeric conversion the accessors apply to a height before looking it up. */
  function ToNumber(h: HeightArg): JsNumber
  {
    match h
    case NumberArg(n) => Finite(n)
    case StringArg(s) => ParseInt(s)
  }

  /** The property name under which a height argument is looked up. */
  function HeightKey(h: HeightArg): string
  {
    NumberKey(ToNumber(h))
  }

  lemma {:induction false} NatDecimalValue(n: nat)
    ensures DigitPrefix(NatDecimal(n), 10) == |NatDecimal(n)|
    ensures DigitsValue(NatDecimal(n), 10) == n
  {
    var s := NatDecimal(n);
    AllDigitsPrefix(s);
    if n >= 10 {
      NatDecimalValue(n / 10);
      assert s[..|s| - 1] == NatDecimal(n / 10);
    }
  }

  lemma {:induction false} AllDigitsPrefix(s: string)
    requires forall j :: 0 <= j < |s| ==> '0' <= s[j] <= '9'
    ensures DigitPrefix(s, 10) == |s|
  {
    if |s| > 0 {
      AllDigitsPrefix(s[1..]);
    }
  }

  /** Reading back the property name of an integer gives that integer. */
  lemma ParseNumberKey(n: int)
    ensures ParseInt(NumberKey(Finite(n))) == Finite(n)
  {
    var key := NumberKey(Finite(n));
    if n < 0 {
      var m: nat := -n;
      assert key == "-" + NatDecimal(m);
      ParseNegativeKey(m);
    } else {
      assert key == NatDecimal(n);
      ParseNonNegativeKey(n);
    }
  }

  lemma ParseNegativeKey(m: nat)
    requires m > 0
    ensures ParseInt("-" + NatDecimal(m)) == Finite(0 - m)
  {
    var d := NatDecimal(m);
    var s := "-" + d;
    assert s[0] == '-' && s[1..] == d;
    assert TrimStart(s) == s;
    DecimalMagnitude(m);
  }

  lemma ParseNonNegativeKey(m: nat)
    ensures ParseInt(NatDecimal(m)) == Finite(m)
  {
    var d := NatDecimal(m);
    assert '0' <= d[0] <= '9';
    assert TrimStart(d) == d;
    DecimalMagnitude(m);
  }

  /** The unsigned part of a property name is read in base 10, in full. */
  lemma DecimalMagnitude(m: nat)
    ensures ParseMagnitude(NatDecimal(m)) == Finite(m)
  {
    var d := NatDecimal(m);
    NatDecimalValue(m);
    assert d[..|d|] == d;
    assert DigitRun(d, 10) == Finite(m);
  }

  /**
   * A string that is empty after its leading white space, or whose first
   * non-blank character is neither a sign nor a digit, parses to NaN.
   */
  lemma ParseIntNoDigits(s: string)
    ensures TrimStart(s) == [] ==> ParseInt(s) == NaN
    ensures (|TrimStart(s)| > 0 && TrimStart(s)[0] != '-' && TrimStart(s)[0] != '+' &&
      DigitValue(TrimStart(s)[0], 10) < 0) ==> ParseInt(s) == NaN
  {
  }

  /**
   * Only NaN becomes the property name "NaN", and an integer's property name
   * starts with a minus sign exactly when the integer is negative.
   */
  lemma NumberKeyShape(x: JsNumber)
    ensures NumberKey(x) == "NaN" <==> x.NaN?
    ensures x.Finite? ==> |NumberKey(x)| >= 1 && (NumberKey(x)[0] == '-' <==> x.n < 0)
  {
    if x.Finite? {
      var k := NumberKey(x);
      if x.n < 0 {
        assert k[0] == '-';
      } else {
        assert '0' <= k[0] <= '9';
      }
      assert k[0] != "NaN"[0];
    }
  }

  /** Distinct integers never share a property name. */
  lemma NumberKeyInjective(a: int, b: int)
    requires NumberKey(Finite(a)) == NumberKey(Finite(b))
    ensures a == b
  {
    ParseNumberKey(a);
    ParseNumberKey(b);
  }

  /**
   * A height given as the decimal string of a number is looked up under the same
   * key as the number itself.
   */
  lemma StringHeightSameKey(n: int)
    ensures HeightKey(StringArg(NumberKey(Finite(n)))) == HeightKey(NumberArg(n))
  {
    ParseNumberKey(n);
  }
}
