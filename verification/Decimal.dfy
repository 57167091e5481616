// Decimal numerals: String(n) for a non-negative integer, and Number.parseInt(s, 10).

module Decimal {
  import opened Text

  const DIGITS := "0123456789"

  function ToDecimal(n: nat): (s: string)
    ensures s != ""
  {
    if n < 10 then [DIGITS[n]] else ToDecimal(n / 10) + [DIGITS[n % 10]]
  }

  predicate IsDigit(c: char) { '0' <= c <= '9' }

  function DigitValue(c: char): nat
    requires IsDigit(c)
  {
    c as int - '0' as int
  }

  // The longest prefix of digits.
  function DigitPrefix(s: string): string {
    if s == "" || !IsDigit(s[0]) then "" else [s[0]] + DigitPrefix(s[1..])
  }

  predicate AllDigits(s: string) {
    forall i :: 0 <= i < |s| ==> IsDigit(s[i])
  }

  function ValueOf(s: string): nat
    requires AllDigits(s)
  {
    if s == "" then 0 else 10 * ValueOf(s[..|s| - 1]) + DigitValue(s[|s| - 1])
  }

  lemma {:induction false} DigitPrefixDigits(s: string)
    ensures AllDigits(DigitPrefix(s))
  {
    if s != "" && IsDigit(s[0]) { DigitPrefixDigits(s[1..]); }
  }

  // White space first, then a sign, then digits; what follows is ignored. None is NaN.
  function ParseInt(s: string): Option<int> {
    var t := TrimStart(s);
    var negative := t != "" && t[0] == '-';
    var rest := if t != "" && (t[0] == '-' || t[0] == '+') then t[1..] else t;
    var digits := DigitPrefix(rest);
    if digits == "" then None
    else
      DigitPrefixDigits(rest);
      var value: int := ValueOf(digits);
      Some(if negative then -value else value)
  }

  lemma DigitAt(d: nat)
    requires d < 10
    ensures IsDigit(DIGITS[d]) && DigitValue(DIGITS[d]) == d
  {
  }

  lemma {:induction false} ToDecimalDigits(n: nat)
    ensures AllDigits(ToDecimal(n)) && ValueOf(ToDecimal(n)) == n
  {
    DigitAt(n % 10);
    if n < 10 {
      assert ToDecimal(n)[..0] == "";
    } else {
      ToDecimalDigits(n / 10);
      var s := ToDecimal(n);
      assert s[..|s| - 1] == ToDecimal(n / 10);
    }
  }

  lemma {:induction false} DigitPrefixOfDigits(s: string)
    requires AllDigits(s)
    ensures DigitPrefix(s) == s
  {
    if s != "" { DigitPrefixOfDigits(s[1..]); }
  }

  // A number reads back as it was printed, so different numbers print differently.
  lemma ParseIntOfDecimal(n: nat)
    ensures ParseInt(ToDecimal(n)) == Some(n)
  {
    ToDecimalDigits(n);
    var s := ToDecimal(n);
    assert IsDigit(s[0]) && !IsSpace(s[0]);
    assert TrimStart(s) == s;
    DigitPrefixOfDigits(s);
  }
}
