/**
 * JavaScript values as the editors and pickers use them: optional fields,
 * numbers that may be NaN, truthiness, and the decimal text of integers.
 */
module Js {

  /** A field that may be absent (`undefined`). */
  datatype Option<+T> = None | Some(value: T) {
    /** `x ?? d` */
    function GetOr(default: T): T {
      match this
      case Some(v) => v
      case None => default
    }
  }

  /** A JavaScript number restricted to what the model needs: NaN or an integer. */
  datatype JsNumber = NaN | Num(n: int)

  /** Truthiness of an optional string: defined and non-empty. */
  predicate StringTruthy(s: Option<string>) {
    s.Some? && s.value != ""
  }

  /** Truthiness of an optional boolean. */
  predicate BoolTruthy(b: Option<bool>) {
    b == Some(true)
  }

  /** Truthiness of an optional number: defined, not NaN and not zero. */
  predicate NumberTruthy(x: Option<JsNumber>) {
    x.Some? && x.value.Num? && x.value.n != 0
  }

  /** Truthiness of an optional integer field that is never NaN. */
  predicate IntTruthy(x: Option<int>) {
    x.Some? && x.value != 0
  }

  /** `a !== b` for an optional number field against a number: NaN differs from everything. */
  predicate StrictlyDiffers(a: Option<JsNumber>, b: JsNumber) {
    match a
    case None => true
    case Some(x) => x.NaN? || b.NaN? || x.n != b.n
  }

  predicate IsDigit(c: char) {
    '0' <= c <= '9'
  }

  predicate AllDigits(s: string) {
    forall i :: 0 <= i < |s| ==> IsDigit(s[i])
  }

  function DigitChar(d: nat): (c: char)
    requires d < 10
    ensures IsDigit(c)
  {
    "0123456789"[d]
  }

  function DigitValue(c: char): (d: nat)
    requires IsDigit(c)
    ensures d < 10
  {
    c as int - '0' as int
  }

  /** `String(n)` for a natural number: its decimal digits, most significant first. */
  function NatString(n: nat): (s: string)
    ensures |s| > 0 && AllDigits(s)
    ensures |s| > 1 ==> s[0] != '0'
  {
    if n < 10 then [DigitChar(n)] else NatString(n / 10) + [DigitChar(n % 10)]
  }

  /** `String(i)` for an integer. */
  function IntString(i: int): string {
    if i < 0 then "-" + NatString(-i) else NatString(i)
  }

  /** The value of a run of decimal digits (0 for the empty run). */
  function DigitsValue(s: string): nat
    requires AllDigits(s)
  {
    if |s| == 0 then 0 else DigitsValue(s[..|s| - 1]) * 10 + DigitValue(s[|s| - 1])
  }

  /** Reading back the decimal text of n gives n. */
  lemma {:induction false} NatStringRoundTrip(n: nat)
    ensures DigitsValue(NatString(n)) == n
  {
    if n >= 10 {
      var s := NatString(n);
      NatStringRoundTrip(n / 10);
      assert s[..|s| - 1] == NatString(n / 10);
      assert DigitValue(DigitChar(n % 10)) == n % 10;
    } else {
      assert DigitValue(DigitChar(n)) == n;
    }
  }

  /** The longest prefix of s made of decimal digits. */
  function LeadingDigits(s: string): (d: string)
    ensures |d| <= |s| && d == s[..|d|] && AllDigits(d)
    ensures |d| < |s| ==> !IsDigit(s[|d|])
  {
    if |s| > 0 && IsDigit(s[0]) then [s[0]] + LeadingDigits(s[1..]) else []
  }

  lemma {:induction false} LeadingDigitsOfConcat(d: string, t: string)
    requires AllDigits(d)
    requires |t| == 0 || !IsDigit(t[0])
    ensures LeadingDigits(d + t) == d
  {
    if |d| > 0 {
      assert (d + t)[1..] == d[1..] + t;
      LeadingDigitsOfConcat(d[1..], t);
    } else {
      assert d + t == t;
    }
  }

  /**
   * `parseFloat(s)` restricted to a leading run of decimal digits: the value
   * of that run, or NaN when s does not start with a digit.
   */
  function ParseLeadingNumber(s: string): (r: JsNumber)
    ensures r.NaN? <==> (|s| == 0 || !IsDigit(s[0]))
    ensures r.Num? ==> r.n >= 0
  {
    var d := LeadingDigits(s);
    if |d| == 0 then NaN else Num(DigitsValue(d))
  }

  /** parseFloat reads back the count written before a non-digit suffix. */
  lemma ParseLeadingNumberOfNatString(n: nat, suffix: string)
    requires |suffix| == 0 || !IsDigit(suffix[0])
    ensures ParseLeadingNumber(NatString(n) + suffix) == Num(n)
  {
    LeadingDigitsOfConcat(NatString(n), suffix);
    NatStringRoundTrip(n);
  }

  /**
   * Unary plus `+s` on the forms the model admits: the empty string is 0,
   * an optional sign followed by one or more digits is that integer, and
   * anything else is NaN.
   */
  function UnaryPlus(s: string): (r: JsNumber)
    ensures |s| == 0 ==> r == Num(0)
    ensures AllDigits(s) && |s| > 0 ==> r == Num(DigitsValue(s))
    ensures |s| > 1 && s[0] == '-' && AllDigits(s[1..]) ==> r == Num(0 - DigitsValue(s[1..]) as int)
    ensures |s| > 1 && s[0] == '+' && AllDigits(s[1..]) ==> r == Num(DigitsValue(s[1..]))
    ensures r.Num? <==> |s| == 0 || AllDigits(s) || (|s| > 1 && (s[0] == '-' || s[0] == '+') && AllDigits(s[1..]))
    ensures |s| > 0 && !IsDigit(s[0]) && s[0] != '-' && s[0] != '+' ==> r.NaN?
  {
    if |s| == 0 then Num(0)
    else if AllDigits(s) then Num(DigitsValue(s))
    else if (s[0] == '-' || s[0] == '+') && |s| > 1 && AllDigits(s[1..]) then
      (if s[0] == '-' then Num(0 - DigitsValue(s[1..]) as int) else Num(DigitsValue(s[1..])))
    else NaN
  }

  /** `+` reads back the text of an integer, with or without a sign. */
  lemma UnaryPlusOfNatString(n: nat)
    ensures UnaryPlus(NatString(n)) == Num(n)
    ensures UnaryPlus("-" + NatString(n)) == Num(0 - n)
    ensures UnaryPlus("+" + NatString(n)) == Num(n)
  {
    NatStringRoundTrip(n);
    assert ("-" + NatString(n))[1..] == NatString(n);
    assert ("+" + NatString(n))[1..] == NatString(n);
  }

  /** The UTF-16 code units of one character: two for a character beyond the Basic Multilingual Plane. */
  function CodeUnits(c: char): nat {
    if c as int < 0x1_0000 then 1 else 2
  }

  /** `s.length` in JavaScript, which counts UTF-16 code units rather than characters. */
  function Utf16Length(s: string): (n: nat)
    ensures |s| <= n <= 2 * |s|
  {
    if |s| == 0 then 0 else CodeUnits(s[0]) + Utf16Length(s[1..])
  }

  /** The JavaScript length is the number of characters exactly when none lies beyond the Basic Multilingual Plane. */
  lemma {:induction false} Utf16LengthOfBmp(s: string)
    ensures Utf16Length(s) == |s| <==> forall i :: 0 <= i < |s| ==> s[i] as int < 0x1_0000
  {
    if |s| > 0 {
      Utf16LengthOfBmp(s[1..]);
      if Utf16Length(s) == |s| {
        forall i | 0 <= i < |s| ensures s[i] as int < 0x1_0000 {
          if i > 0 { assert s[i] == s[1..][i - 1]; }
        }
      }
      if forall i :: 0 <= i < |s| ==> s[i] as int < 0x1_0000 {
        forall i | 0 <= i < |s| - 1 ensures s[1..][i] as int < 0x1_0000 {
          assert s[1..][i] == s[i + 1];
        }
      }
    }
  }
}
