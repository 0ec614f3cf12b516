/** Python's decimal rendering of integers -- `str(n)`, and the `{i}` of an
    f-string such as `f"output{i}"` -- together with the parse that inverts it. */
module Decimal {

  predicate IsDigit(c: char) {
    '0' <= c <= '9'
  }

  predicate IsDigits(s: string) {
    forall k :: 0 <= k < |s| ==> IsDigit(s[k])
  }

  function DigitChar(d: nat): (c: char)
    requires d < 10
    ensures IsDigit(c) && c as int - '0' as int == d
  {
    ('0' as int + d) as char
  }

  function DigitValue(c: char): (d: nat)
    requires IsDigit(c)
    ensures d < 10 && DigitChar(d) == c
  {
    c as int - '0' as int
  }

  /** `str(n)` for a non-negative integer: the most significant digit first and
      no leading zero, so "0" is the only rendering that starts with '0'. */
  function NatToString(n: nat): (s: string)
    ensures |s| > 0 && IsDigits(s)
    ensures n == 0 <==> s == "0"
    ensures n > 0 ==> s[0] != '0'
    decreases n
  {
    if n < 10 then [DigitChar(n)] else NatToString(n / 10) + [DigitChar(n % 10)]
  }

  /** The value of a string of decimal digits, read left to right. */
  function ParseNat(s: string): (n: nat)
    requires IsDigits(s)
    decreases |s|
  {
    if s == [] then 0 else 10 * ParseNat(s[..|s| - 1]) + DigitValue(s[|s| - 1])
  }

  /** Reading back what `str` wrote gives the number again. */
  lemma {:induction false} ParseNatToString(n: nat)
    ensures ParseNat(NatToString(n)) == n
  {
    var s := NatToString(n);
    if n < 10 {
      assert s[..|s| - 1] == [];
    } else {
      assert s[..|s| - 1] == NatToString(n / 10);
      ParseNatToString(n / 10);
    }
  }

  /** Distinct numbers have distinct renderings, so `f"output{i}"` names each
      output differently. */
  lemma NatToStringInjective(a: nat, b: nat)
    ensures NatToString(a) == NatToString(b) ==> a == b
  {
    ParseNatToString(a);
    ParseNatToString(b);
  }

  /** `str(i)` for any integer: a minus sign before the digits of a negative one. */
  function IntToString(i: int): (s: string)
    ensures |s| > 0 && (s[0] == '-' <==> i < 0)
    ensures i >= 0 ==> IsDigits(s) && ParseNat(s) == i
    ensures i < 0 ==> |s| > 1 && IsDigits(s[1..]) && ParseNat(s[1..]) == -i
    ensures i == 0 ==> s == "0"
    ensures i > 0 ==> s[0] != '0'
    ensures i < 0 ==> s[1] != '0'
  {
    if i < 0 then
      var digits := NatToString(-i);
      ParseNatToString(-i);
      assert ("-" + digits)[1..] == digits;
      "-" + digits
    else
      ParseNatToString(i);
      NatToString(i)
  }
}
