/** Decimal rendering of integers, as Python's str() and f-strings produce it,
    and the reading of digits back. */
module Text {

  predicate IsDigit(c: char) {
    '0' <= c <= '9'
  }

  predicate AllDigits(s: string) {
    forall i :: 0 <= i < |s| ==> IsDigit(s[i])
  }

  function DigitChar(d: nat): (c: char)
    requires d < 10
  {
    (48 + d) as char
  }

  function DigitValue(c: char): nat
    requires IsDigit(c)
  {
    c as int - '0' as int
  }

  /** str(n) for a non-negative integer: decimal digits, no leading zero. */
  function DecimalText(n: nat): (r: string)
    ensures |r| >= 1 && AllDigits(r)
    ensures r[0] == '0' <==> n == 0
    ensures n == 0 ==> r == "0"
  {
    if n < 10 then [DigitChar(n)] else DecimalText(n / 10) + [DigitChar(n % 10)]
  }

  /** The number a string of decimal digits denotes. */
  function DecimalValue(s: string): nat
    requires AllDigits(s)
  {
    if s == [] then 0 else DecimalValue(s[..|s| - 1]) * 10 + DigitValue(s[|s| - 1])
  }

  /** Reading back what DecimalText wrote gives the number again. */
  lemma {:induction false} DecimalRoundTrip(n: nat)
    ensures DecimalValue(DecimalText(n)) == n
  {
    var r := DecimalText(n);
    if n >= 10 {
      DecimalRoundTrip(n / 10);
      assert r[..|r| - 1] == DecimalText(n / 10);
    }
  }

  /** Length of the run of digits at the start of s. */
  function LeadingDigits(s: string): (k: nat)
    ensures k <= |s| && AllDigits(s[..k])
    ensures k < |s| ==> !IsDigit(s[k])
  {
    if s == [] || !IsDigit(s[0]) then 0
    else
      var k := 1 + LeadingDigits(s[1..]);
      assert s[..k] == [s[0]] + s[1..][..k - 1];
      k
  }

  /** The leading run of digits ends where the digits do. */
  lemma {:induction false} LeadingDigitsOfRun(digits: string, rest: string)
    requires AllDigits(digits)
    requires |rest| >= 1 && !IsDigit(rest[0])
    ensures LeadingDigits(digits + rest) == |digits|
  {
    if digits != [] {
      assert (digits + rest)[1..] == digits[1..] + rest;
      LeadingDigitsOfRun(digits[1..], rest);
    }
  }

  /** str(n) for any integer. */
  function IntText(n: int): (r: string)
    ensures n >= 0 ==> r == DecimalText(n)
  {
    if n < 0 then "-" + DecimalText(-n) else DecimalText(n)
  }

  /** Leading zeros add nothing to the value of a digit string. */
  lemma {:induction false} LeadingZeros(zeros: string, s: string)
    requires forall i :: 0 <= i < |zeros| ==> zeros[i] == '0'
    requires AllDigits(s)
    ensures AllDigits(zeros + s) && DecimalValue(zeros + s) == DecimalValue(s)
    decreases |s|, |zeros|
  {
    var t := zeros + s;
    if s != [] {
      assert t[..|t| - 1] == zeros + s[..|s| - 1];
      LeadingZeros(zeros, s[..|s| - 1]);
    } else if zeros != [] {
      assert t[..|t| - 1] == zeros[..|zeros| - 1] + [];
      LeadingZeros(zeros[..|zeros| - 1], []);
    }
  }

  /** 10 to the power k. */
  function Pow10(k: nat): nat {
    if k == 0 then 1 else 10 * Pow10(k - 1)
  }

  /** A number below 10^k, for k at least 1, takes at most k digits. */
  lemma {:induction false} DecimalTextLength(n: nat, k: nat)
    ensures 1 <= k && n < Pow10(k) ==> |DecimalText(n)| <= k
  {
    if 1 <= k && n < Pow10(k) && n >= 10 {
      assert n / 10 < Pow10(k - 1);
      DecimalTextLength(n / 10, k - 1);
    }
  }

  /** s is a run of decimal digits that denotes n. */
  predicate Denotes(s: string, n: nat) {
    AllDigits(s) && DecimalValue(s) == n
  }

  /** The %0<width>d rendering of n: the decimal digits of n, with zeros in
      front up to the width. */
  function ZeroPadded(n: nat, width: nat): (r: string)
    ensures |r| == if |DecimalText(n)| >= width then |DecimalText(n)| else width
    ensures 1 <= width && n < Pow10(width) ==> |r| == width
    ensures Denotes(r, n)
  {
    var digits := DecimalText(n);
    DecimalRoundTrip(n);
    DecimalTextLength(n, width);
    if |digits| >= width then digits
    else
      var zeros := seq(width - |digits|, _ => '0');
      LeadingZeros(zeros, digits);
      zeros + digits
  }
}
