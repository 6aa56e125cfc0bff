/** The subset of JavaScript's `parseFloat`, `parseInt` and decimal
    rendering that the core relies on: optional leading whitespace, an
    optional sign, decimal digits and at most one decimal point. */
module TextParse {
  import opened Wrappers
  import Seqs

  predicate IsDigit(c: char) {
    '0' <= c <= '9'
  }

  predicate AllDigits(s: string) {
    forall i :: 0 <= i < |s| ==> IsDigit(s[i])
  }

  /** The ASCII characters JavaScript's number parsers skip before a number. */
  predicate IsSpace(c: char) {
    c == ' ' || c == '\t' || c == '\n' || c == '\r' || c == '\U{000B}' || c == '\U{000C}'
  }

  function Pow10(k: nat): (r: nat)
    ensures r >= 1
  {
    if k == 0 then 1 else 10 * Pow10(k - 1)
  }

  /** The length of the longest all-digit prefix of `s`. */
  function LeadingDigits(s: string): (n: nat)
    ensures n <= |s|
    ensures AllDigits(s[..n])
    ensures n < |s| ==> !IsDigit(s[n])
  {
    if |s| == 0 || !IsDigit(s[0]) then 0
    else
      var k := LeadingDigits(s[1..]);
      assert s[..k + 1] == [s[0]] + s[1..][..k];
      k + 1
  }

  /** The value of a string of decimal digits, most significant first. */
  function DigitsValue(ds: string): (v: nat)
    requires AllDigits(ds)
    ensures v < Pow10(|ds|)
  {
    if |ds| == 0 then 0
    else DigitsValue(ds[..|ds| - 1]) * 10 + ((ds[|ds| - 1] as int) - ('0' as int))
  }

  /** The count of leading whitespace characters. */
  function LeadingSpaces(s: string): (n: nat)
    ensures n <= |s|
    ensures n < |s| ==> !IsSpace(s[n])
    ensures forall i :: 0 <= i < n ==> IsSpace(s[i])
  {
    if |s| == 0 || !IsSpace(s[0]) then 0 else LeadingSpaces(s[1..]) + 1
  }

  /** An unsigned decimal at the start of `s`: digits, then optionally a
      point and more digits, with at least one digit overall. `None` is NaN. */
  function ParseUnsignedDecimal(s: string): Option<real> {
    var k := LeadingDigits(s);
    var whole := DigitsValue(s[..k]) as real;
    if k < |s| && s[k] == '.' then
      var rest := s[k + 1..];
      var f := LeadingDigits(rest);
      if k == 0 && f == 0 then None
      else Some(whole + DigitsValue(rest[..f]) as real / Pow10(f) as real)
    else if k == 0 then None
    else Some(whole)
  }

  /** Splits off leading whitespace and an optional sign: the sign factor and the rest. */
  function SignAndBody(s: string): (real, string) {
    var t := s[LeadingSpaces(s)..];
    if |t| > 0 && t[0] == '-' then (-1.0, t[1..])
    else if |t| > 0 && t[0] == '+' then (1.0, t[1..])
    else (1.0, t)
  }

  /** `parseFloat(s)`; exponents and the word `Infinity` are not modelled. */
  function ParseFloat(s: string): (r: Option<real>)
    ensures r.Some? ==> exists i :: 0 <= i < |s| && IsDigit(s[i])
  {
    var (sign, body) := SignAndBody(s);
    match ParseUnsignedDecimal(body)
    case None => None
    case Some(v) =>
      DecimalHasDigit(body);
      SignAndBodySuffix(s);
      Some(sign * v)
  }

  /** `parseInt(s, 10)`. */
  function ParseInt(s: string): (r: Option<int>)
    ensures r.Some? ==> exists i :: 0 <= i < |s| && IsDigit(s[i])
  {
    var (sign, body) := SignAndBody(s);
    var k := LeadingDigits(body);
    if k == 0 then None
    else
      SignAndBodySuffix(s);
      assert body[0] in s;
      var magnitude: int := DigitsValue(body[..k]);
      Some(if sign < 0.0 then -magnitude else magnitude)
  }

  lemma SignAndBodySuffix(s: string)
    ensures forall i :: 0 <= i < |SignAndBody(s).1| ==> SignAndBody(s).1[i] in s
  {
  }

  lemma DecimalHasDigit(s: string)
    requires ParseUnsignedDecimal(s).Some?
    ensures exists i :: 0 <= i < |s| && IsDigit(s[i])
  {
    var k := LeadingDigits(s);
    if k == 0 {
      assert IsDigit(s[k + 1..][0]);
      assert s[1] == s[k + 1..][0];
    } else {
      assert IsDigit(s[..k][0]);
    }
  }

  /** `String(s).replace(/[^0-9.]/g, '')`: keeps only digits and points. */
  function KeepDecimalChars(s: string): (r: string)
    ensures forall i :: 0 <= i < |r| ==> IsDigit(r[i]) || r[i] == '.'
    ensures forall i :: 0 <= i < |s| && (IsDigit(s[i]) || s[i] == '.') ==> s[i] in r
  {
    Seqs.Filter((c: char) => IsDigit(c) || c == '.', s)
  }

  /** The decimal rendering of a natural number (`String(n)`, `${n}`). */
  function NatToString(n: nat): (s: string)
    ensures |s| >= 1 && AllDigits(s)
    decreases n
  {
    var last := [(('0' as int) + n % 10) as char];
    if n < 10 then last else NatToString(n / 10) + last
  }

  /** Reading back a rendered natural number gives the number. */
  lemma {:induction false} DigitsValueOfNatToString(n: nat)
    ensures DigitsValue(NatToString(n)) == n
    decreases n
  {
    var s := NatToString(n);
    if n >= 10 {
      DigitsValueOfNatToString(n / 10);
      assert s[..|s| - 1] == NatToString(n / 10);
    }
  }

  lemma {:induction false} ParseIntOfNatToString(n: nat)
    ensures ParseInt(NatToString(n)) == Some(n)
  {
    var s := NatToString(n);
    assert LeadingSpaces(s) == 0;
    assert SignAndBody(s) == (1.0, s);
    AllDigitsLeading(s);
    assert s[..|s|] == s;
    DigitsValueOfNatToString(n);
  }

  lemma {:induction false} ParseFloatOfNatToString(n: nat)
    ensures ParseFloat(NatToString(n)) == Some(n as real)
  {
    var s := NatToString(n);
    assert LeadingSpaces(s) == 0;
    assert SignAndBody(s) == (1.0, s);
    AllDigitsLeading(s);
    assert s[..|s|] == s;
    DigitsValueOfNatToString(n);
  }

  lemma {:induction false} AllDigitsLeading(s: string)
    requires AllDigits(s)
    ensures LeadingDigits(s) == |s|
    decreases |s|
  {
    if |s| > 0 {
      AllDigitsLeading(s[1..]);
    }
  }
}
