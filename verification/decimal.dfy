/**
 * The number-to-text conversions behind invoice numbering: `String(n)` for
 * integers, `parseInt(s, 10)`, and `padStart` with zeros.
 */
module Decimal {

  /** A number that came out of `parseInt`: an integer, or NaN when no digits were found. */
  datatype JsNumber = Int(value: int) | NaN {

    /** `x + 1`; NaN stays NaN. */
    function Inc(): JsNumber {
      match this
      case Int(v) => Int(v + 1)
      case NaN => NaN
    }
  }

  predicate IsDigit(c: char) {
    '0' <= c <= '9'
  }

  predicate AllDigits(s: string) {
    forall i :: 0 <= i < |s| ==> IsDigit(s[i])
  }

  function DigitChar(d: nat): (c: char)
    requires d < 10
    ensures IsDigit(c)
  {
    ('0' as int + d) as char
  }

  function DigitValue(c: char): (d: nat)
    requires IsDigit(c)
    ensures d < 10
    ensures DigitChar(d) == c
  {
    c as int - '0' as int
  }

  function Pow10(k: nat): (p: nat)
    ensures p >= 1
  {
    if k == 0 then 1 else 10 * Pow10(k - 1)
  }

  /** `String(n)` for a natural number: its decimal digits, most significant first, without leading zeros. */
  function NatToDecimal(n: nat): (s: string)
    ensures |s| >= 1 && AllDigits(s)
    ensures s[0] == '0' ==> n == 0
    decreases n
  {
    if n < 10 then [DigitChar(n)] else NatToDecimal(n / 10) + [DigitChar(n % 10)]
  }

  /** The number a string of decimal digits denotes; leading zeros contribute nothing. */
  function ValueOf(s: string): nat
    requires AllDigits(s)
    decreases |s|
  {
    if |s| == 0 then 0 else ValueOf(s[..|s| - 1]) * 10 + DigitValue(s[|s| - 1])
  }

  /** `String(i)` for an integer: a minus sign before the digits of a negative number. */
  function IntToDecimal(i: int): string {
    if i < 0 then "-" + NatToDecimal(-i) else NatToDecimal(i)
  }

  /** `String(x)` for a number `parseInt` produced. */
  function NumberToString(x: JsNumber): string {
    match x
    case Int(v) => IntToDecimal(v)
    case NaN => "NaN"
  }

  /** The length of the run of digits `s` starts with. */
  function DigitRun(s: string): (k: nat)
    ensures k <= |s|
    ensures AllDigits(s[..k])
    ensures k < |s| ==> !IsDigit(s[k])
    decreases |s|
  {
    if |s| == 0 || !IsDigit(s[0]) then 0
    else
      var k := 1 + DigitRun(s[1..]);
      assert s[..k] == [s[0]] + s[1..][..k - 1];
      k
  }

  /**
   * `parseInt(s, 10)`: an optional sign, then the longest run of digits;
   * NaN when that run is empty. Whatever follows the run is ignored
   * (`ParseIntPrefix`).
   */
  function ParseInt(s: string): (r: JsNumber)
    ensures r.Int? <==> (|s| > 0 && IsDigit(s[0])) || (|s| > 1 && (s[0] == '-' || s[0] == '+') && IsDigit(s[1]))
  {
    var signed := |s| > 0 && (s[0] == '-' || s[0] == '+');
    var body := if signed then s[1..] else s;
    var k := DigitRun(body);
    if k == 0 then NaN
    else
      var v: int := ValueOf(body[..k]);
      Int(if signed && s[0] == '-' then -v else v)
  }

  /** A run of digits reads as far as the first character that is not one. */
  lemma {:induction false} DigitRunStops(digits: string, rest: string)
    requires AllDigits(digits)
    requires |rest| == 0 || !IsDigit(rest[0])
    ensures DigitRun(digits + rest) == |digits|
    decreases |digits|
  {
    if |digits| > 0 {
      DigitRunStops(digits[1..], rest);
      assert (digits + rest)[1..] == digits[1..] + rest;
    } else {
      assert digits + rest == rest;
    }
  }

  /** `parseInt` of text whose first character is not a sign: the value of its leading digits. */
  lemma ParseIntUnsigned(s: string, k: nat)
    requires 0 < k <= |s| && AllDigits(s[..k])
    requires k == |s| || !IsDigit(s[k])
    ensures ParseInt(s) == Int(ValueOf(s[..k]))
  {
    DigitRunStops(s[..k], s[k..]);
    assert s[..k] + s[k..] == s;
  }

  /** `parseInt` of a sign followed by text: the signed value of that text's leading digits. */
  lemma ParseIntSigned(s: string, k: nat)
    requires |s| > 0 && (s[0] == '-' || s[0] == '+')
    requires 0 < k < |s| && AllDigits(s[1..k + 1])
    requires k + 1 == |s| || !IsDigit(s[k + 1])
    ensures ParseInt(s) == Int(if s[0] == '-' then -(ValueOf(s[1..k + 1]) as int) else ValueOf(s[1..k + 1]))
  {
    var body := s[1..];
    assert body[..k] == s[1..k + 1];
    assert body[k..] == s[k + 1..];
    DigitRunStops(body[..k], body[k..]);
    assert body[..k] + body[k..] == body;
  }

  /**
   * `parseInt` of an optional sign, a non-empty run of digits and anything that
   * does not start with a digit: the signed value of the digits, the rest ignored.
   */
  lemma ParseIntPrefix(sign: string, digits: string, rest: string)
    requires sign == "" || sign == "-" || sign == "+"
    requires |digits| > 0 && AllDigits(digits)
    requires |rest| == 0 || !IsDigit(rest[0])
    ensures ParseInt(sign + digits + rest) == Int(if sign == "-" then -(ValueOf(digits) as int) else ValueOf(digits))
  {
    var s := sign + digits + rest;
    var k := |digits|;
    if sign == "" {
      assert s[..k] == digits && s[k..] == rest;
      ParseIntUnsigned(s, k);
    } else {
      assert s[0] == sign[0] && s[1..k + 1] == digits && s[k + 1..] == rest;
      ParseIntSigned(s, k);
    }
  }

  /** Text that starts with '{', such as a JSON object, is not a number to `parseInt`. */
  lemma ParseIntOfBrace(s: string)
    requires |s| > 0 && s[0] == '{'
    ensures ParseInt(s) == NaN
  {
  }

  /** `s.padStart(width, fill)`: fill characters in front up to `width`; a longer `s` is never cut. */
  function PadStart(s: string, width: nat, fill: char): (r: string)
    ensures |r| == if |s| >= width then |s| else width
    ensures r[|r| - |s|..] == s
    ensures forall i :: 0 <= i < |r| - |s| ==> r[i] == fill
  {
    if |s| >= width then s else seq(width - |s|, _ => fill) + s
  }

  /** `String(x).padStart(4, "0")`: the counter part of an invoice number. */
  function Pad4(x: JsNumber): string {
    PadStart(NumberToString(x), 4, '0')
  }

  lemma {:induction false} ValueOfDecimal(n: nat)
    ensures ValueOf(NatToDecimal(n)) == n
    decreases n
  {
    var s := NatToDecimal(n);
    if n >= 10 {
      ValueOfDecimal(n / 10);
      assert s[..|s| - 1] == NatToDecimal(n / 10);
    }
  }

  /** Zeros in front do not change the value of a digit string. */
  lemma {:induction false} ValueOfLeadingZeros(zeros: string, s: string)
    requires forall i :: 0 <= i < |zeros| ==> zeros[i] == '0'
    requires AllDigits(s)
    ensures AllDigits(zeros + s)
    ensures ValueOf(zeros + s) == ValueOf(s)
    decreases |s|, |zeros|
  {
    if |s| == 0 {
      assert zeros + s == zeros;
      if |zeros| > 0 {
        ValueOfLeadingZeros(zeros[..|zeros| - 1], s);
        assert zeros[..|zeros| - 1] + s == zeros[..|zeros| - 1];
      }
    } else {
      ValueOfLeadingZeros(zeros, s[..|s| - 1]);
      assert (zeros + s)[..|zeros + s| - 1] == zeros + s[..|s| - 1];
    }
  }

  /** `parseInt` reads a string made only of digits as the number it denotes. */
  lemma ParseAllDigits(s: string)
    requires |s| > 0 && AllDigits(s)
    ensures ParseInt(s) == Int(ValueOf(s))
  {
    ParseIntPrefix("", s, "");
    assert "" + s + "" == s;
  }

  /** `parseInt(String(i), 10) == i` for every integer. */
  lemma ParseIntRoundTrip(i: int)
    ensures ParseInt(IntToDecimal(i)) == Int(i)
  {
    if i < 0 {
      var digits := NatToDecimal(-i);
      var s := "-" + digits;
      assert s[1..] == digits;
      ParseAllDigits(digits);
      ValueOfDecimal(-i);
    } else {
      ParseAllDigits(NatToDecimal(i));
      ValueOfDecimal(i);
    }
  }

  /** A decimal has at most `k` digits exactly when the number is below `10^k`. */
  lemma {:induction false} DecimalLength(n: nat, k: nat)
    requires k >= 1
    ensures |NatToDecimal(n)| <= k <==> n < Pow10(k)
    decreases n
  {
    if n >= 10 {
      if k == 1 {
        assert Pow10(1) == 10;
      } else {
        DecimalLength(n / 10, k - 1);
        assert n / 10 < Pow10(k - 1) <==> n < 10 * Pow10(k - 1);
      }
    } else {
      assert Pow10(k) >= 10 by {
        assert Pow10(k) == 10 * Pow10(k - 1);
      }
    }
  }

  /**
   * The padded counter: four digits for counters below 10000, all the digits
   * otherwise, and `parseInt` gives the counter back.
   */
  lemma Pad4Counter(n: nat)
    ensures |Pad4(Int(n))| == if |NatToDecimal(n)| >= 4 then |NatToDecimal(n)| else 4
    ensures |Pad4(Int(n))| == 4 <==> n < 10000
    ensures AllDigits(Pad4(Int(n)))
    ensures ParseInt(Pad4(Int(n))) == Int(n)
  {
    var digits := NatToDecimal(n);
    var padded := Pad4(Int(n));
    DecimalLength(n, 4);
    assert Pow10(4) == 10000;
    var zeros := padded[..|padded| - |digits|];
    assert padded == zeros + digits;
    ValueOfLeadingZeros(zeros, digits);
    ParseAllDigits(padded);
    ValueOfDecimal(n);
  }

  /** Different counters give different padded strings. */
  lemma Pad4Injective(n: nat, m: nat)
    requires n != m
    ensures Pad4(Int(n)) != Pad4(Int(m))
  {
    Pad4Counter(n);
    Pad4Counter(m);
  }
}
