/**
 * The few JavaScript value rules the handlers depend on: `parseInt`, number
 * to string conversion, truthiness of numbers and strings, `startsWith` and
 * lower-casing.
 */
module JsValues {
  import opened Wrappers

  /** A JavaScript number as `parseInt` can produce it: NaN or an integer. */
  datatype Num = NaN | N(v: int)

  /** `!n` for a number: NaN and zero are falsy. */
  predicate Falsy(n: Num)
  {
    n == NaN || n == N(0)
  }

  /** `!s` for an optional string: `undefined` and the empty string are falsy. */
  predicate Present(s: Option<string>)
  {
    s.Some? && s.value != ""
  }

  /** `s || ''` */
  function OrEmpty(s: Option<string>): string
  {
    if s.Some? then s.value else ""
  }

  predicate IsDigit(c: char)
  {
    '0' <= c <= '9'
  }

  predicate AllDigits(s: string)
  {
    forall i :: 0 <= i < |s| ==> IsDigit(s[i])
  }

  function DigitValue(c: char): nat
    requires IsDigit(c)
  {
    (c as int - '0' as int) as nat
  }

  function DigitChar(d: nat): (c: char)
    requires d < 10
    ensures IsDigit(c) && DigitValue(c) == d
  {
    ('0' as int + d) as char
  }

  /** The longest prefix of `s` made of decimal digits. */
  function DigitPrefix(s: string): string
  {
    if |s| > 0 && IsDigit(s[0]) then [s[0]] + DigitPrefix(s[1..]) else []
  }

  /** The digit prefix is a prefix of `s`, made of digits, and stops at the first character that is not one. */
  lemma {:induction false} DigitPrefixShape(s: string)
    ensures DigitPrefix(s) <= s && AllDigits(DigitPrefix(s))
    ensures |DigitPrefix(s)| < |s| ==> !IsDigit(s[|DigitPrefix(s)|])
  {
    if |s| > 0 && IsDigit(s[0]) {
      DigitPrefixShape(s[1..]);
    }
  }

  /** The value of a decimal digit string, most significant digit first. */
  function DigitsValue(d: string): nat
    requires AllDigits(d)
  {
    if d == [] then 0 else 10 * DigitsValue(d[..|d| - 1]) + DigitValue(d[|d| - 1])
  }

  /**
   * `parseInt(s)` with the default radix: an optional sign, then the longest
   * run of decimal digits; NaN when there is no digit. Everything after the
   * digits is ignored.
   */
  function ParseInt(s: string): (r: Num)
    ensures r == NaN <==> DigitPrefix(if |s| > 0 && (s[0] == '-' || s[0] == '+') then s[1..] else s) == []
  {
    var signed := |s| > 0 && (s[0] == '-' || s[0] == '+');
    var digits := DigitPrefix(if signed then s[1..] else s);
    DigitPrefixShape(if signed then s[1..] else s);
    if digits == [] then NaN
    else if signed && s[0] == '-' then N(0 - (DigitsValue(digits) as int))
    else N(DigitsValue(digits))
  }

  /** Decimal text of a natural number, without leading zeros. */
  function NatText(n: nat): string
  {
    if n < 10 then [DigitChar(n)] else NatText(n / 10) + [DigitChar(n % 10)]
  }

  /** The decimal text of a natural number is a non-empty run of digits. */
  lemma {:induction false} NatTextDigits(n: nat)
    ensures |NatText(n)| > 0 && AllDigits(NatText(n))
  {
    if n >= 10 {
      NatTextDigits(n / 10);
    }
  }

  /** `n.toString()` */
  function NumText(n: Num): string
  {
    match n
    case NaN => "NaN"
    case N(v) => if v < 0 then "-" + NatText(-v) else NatText(v)
  }

  lemma {:induction false} DigitPrefixOfDigits(s: string)
    requires AllDigits(s)
    ensures DigitPrefix(s) == s
  {
    if s != [] {
      DigitPrefixOfDigits(s[1..]);
    }
  }

  /** The decimal text of a natural number denotes it. */
  lemma {:induction false} NatTextValue(n: nat)
    ensures AllDigits(NatText(n)) && DigitsValue(NatText(n)) == n
  {
    NatTextDigits(n);
    if n >= 10 {
      NatTextValue(n / 10);
      var t := NatText(n);
      assert t[..|t| - 1] == NatText(n / 10);
    }
  }

  /**
   * Converting a parsed number back to text and parsing it again gives the
   * same number: an id forwarded as `parseInt(raw).toString()` denotes what
   * `raw` denoted.
   */
  lemma ParseNumText(n: Num)
    ensures ParseInt(NumText(n)) == n
  {
    match n
    case NaN =>
      assert !IsDigit(NumText(n)[0]);
    case N(v) =>
      if v < 0 {
        ParseNegativeText(-v);
      } else {
        ParseNatText(v);
      }
  }

  /** The text of a natural number parses back to it. */
  lemma ParseNatText(m: nat)
    ensures ParseInt(NatText(m)) == N(m)
  {
    var t := NatText(m);
    NatTextValue(m);
    DigitPrefixOfDigits(t);
    assert !(t[0] == '-' || t[0] == '+');
  }

  /** The text of a negative number, a minus sign and its magnitude, parses back to it. */
  lemma ParseNegativeText(m: nat)
    ensures ParseInt("-" + NatText(m)) == N(-(m as int))
  {
    var t := NatText(m);
    NatTextValue(m);
    DigitPrefixOfDigits(t);
    assert ("-" + t)[1..] == t;
  }

  /** `s.startsWith(p)` */
  predicate StartsWith(s: string, p: string)
  {
    p <= s
  }

  /** Lower-casing of one character; only ASCII letters change. */
  function LowerChar(c: char): char
  {
    if 'A' <= c <= 'Z' then (c as int + 32) as char else c
  }

  /** `s.toLowerCase()` restricted to ASCII letters. */
  function ToLower(s: string): (r: string)
    ensures |r| == |s|
    ensures forall i :: 0 <= i < |s| ==> r[i] == LowerChar(s[i])
  {
    if s == [] then [] else [LowerChar(s[0])] + ToLower(s[1..])
  }
}
