/**
 * `parseFloat` on the decimal strings the forms produce: leading white space
 * is skipped, an optional sign is read, then the longest prefix of the form
 * `digits [. digits]` (at least one digit in all) is converted; anything
 * else is NaN, written `None`.
 */
module JsNumber {
  import opened Wrappers
  import opened Strings

  /** The longest prefix of `s` made of decimal digits. */
  function LeadingDigits(s: string): (r: string)
    ensures |r| <= |s| && r == s[..|r|] && AllDigits(r)
    ensures |r| == |s| || !IsDigit(s[|r|])
  {
    if s != [] && IsDigit(s[0]) then [s[0]] + LeadingDigits(s[1..]) else []
  }

  /** The integer a digit string denotes. */
  function DigitsValue(ds: string): nat
    requires AllDigits(ds)
  {
    if ds == [] then 0 else DigitsValue(ds[..|ds| - 1]) * 10 + DigitValue(ds[|ds| - 1])
  }

  /** The value of `0.ds`: always in [0, 1). */
  function FractionValue(ds: string): (v: real)
    requires AllDigits(ds)
    ensures 0.0 <= v < 1.0
  {
    if ds == [] then 0.0 else (DigitValue(ds[0]) as real + FractionValue(ds[1..])) / 10.0
  }

  /** `digits [. digits]` at the head of `body`, with at least one digit. */
  function ParseUnsigned(body: string): (r: Option<real>)
    ensures r.Some? ==> r.value >= 0.0
  {
    var whole := LeadingDigits(body);
    var rest := body[|whole|..];
    var frac := if rest != [] && rest[0] == '.' then LeadingDigits(rest[1..]) else "";
    if whole == [] && frac == [] then None
    else Some(DigitsValue(whole) as real + FractionValue(frac))
  }

  /** `parseFloat(s)`; `None` stands for NaN. */
  function ParseFloat(s: string): Option<real>
  {
    var t := TrimStart(s);
    if t != [] && t[0] == '-' then
      match ParseUnsigned(t[1..])
      case Some(v) => Some(-v)
      case None => None
    else if t != [] && t[0] == '+' then ParseUnsigned(t[1..])
    else ParseUnsigned(t)
  }

  /** `parseFloat(s) || 0`: NaN (and zero) become 0. */
  function ParseFloatOrZero(s: string): real
  {
    ParseFloat(s).GetOr(0.0)
  }

  lemma {:induction false} LeadingDigitsOfDigits(ds: string)
    requires AllDigits(ds)
    ensures LeadingDigits(ds) == ds
  {
    if ds != [] {
      LeadingDigitsOfDigits(ds[1..]);
    }
  }

  /** Reading back a rendered integer gives the integer. */
  lemma {:induction false} DigitsValueOfNatToString(n: nat)
    ensures DigitsValue(NatToString(n)) == n
  {
    if n >= 10 {
      var s := NatToString(n);
      assert s[..|s| - 1] == NatToString(n / 10);
      DigitsValueOfNatToString(n / 10);
    }
  }

  /** A non-empty digit string parses to the integer it denotes. */
  lemma ParseFloatOfDigits(ds: string)
    requires ds != [] && AllDigits(ds)
    ensures ParseFloat(ds) == Some(DigitsValue(ds) as real)
  {
    assert TrimStart(ds) == ds;
    LeadingDigitsOfDigits(ds);
  }

  /** `parseFloat(String(n)) === n` for every non-negative integer `n`. */
  lemma ParseFloatOfNatToString(n: nat)
    ensures ParseFloat(NatToString(n)) == Some(n as real)
  {
    ParseFloatOfDigits(NatToString(n));
    DigitsValueOfNatToString(n);
  }

  /** Text made only of digits and '.' never parses to a negative number. */
  lemma ParseFloatUnsigned(s: string)
    requires forall i :: 0 <= i < |s| ==> IsDigit(s[i]) || s[i] == '.'
    ensures ParseFloat(s).Some? ==> ParseFloat(s).value >= 0.0
  {
    var t := TrimStart(s);
    assert t == [] || t[0] != '-';
  }

  /** The empty string (an untouched input field) is NaN. */
  lemma ParseFloatOfEmpty()
    ensures ParseFloat("") == None
    ensures ParseFloatOrZero("") == 0.0
  {
  }

  /** `Math.abs`: the magnitude, never negative, equal to `x` or to `-x`. */
  function Abs(x: real): (r: real)
    ensures r >= 0.0 && (r == x || r == -x)
  {
    if x < 0.0 then -x else x
  }
}
