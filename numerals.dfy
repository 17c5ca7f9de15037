/**
 * Decimal integers as text: the int() conversion the dashboard applies to
 * its user filter, and the decimal form of an id it inverts.
 */
module Numerals {
  import opened Wrappers

  predicate IsDigit(c: char)
  {
    '0' <= c <= '9'
  }

  predicate AllDigits(s: string)
  {
    forall i :: 0 <= i < |s| ==> IsDigit(s[i])
  }

  /** The value of a string of decimal digits, most significant first. */
  function DigitsValue(s: string): nat
    requires AllDigits(s)
  {
    if s == [] then 0 else DigitsValue(s[..|s| - 1]) * 10 + (s[|s| - 1] as int - '0' as int)
  }

  /**
   * CPython's default limit on the number of digits int() converts from a
   * decimal string, and str() writes (sys.int_info.default_max_str_digits).
   */
  const MAX_STR_DIGITS: nat := 4300

  /** One or more ASCII digits, no more than int() converts. */
  predicate Numeral(s: string)
  {
    0 < |s| <= MAX_STR_DIGITS && AllDigits(s)
  }

  /**
   * int(s) on a decimal string: an optional sign followed by one to
   * MAX_STR_DIGITS ASCII digits; anything else raises, here None.
   */
  function ParseInt(s: string): (r: Option<int>)
    ensures r.Some? <==>
      (|s| > 0 && AllDigits(s) && |s| <= MAX_STR_DIGITS) ||
      (|s| > 1 && (s[0] == '-' || s[0] == '+') && AllDigits(s[1..]) && |s| - 1 <= MAX_STR_DIGITS)
    ensures r.Some? && s[0] == '-' ==> r.value <= 0
    ensures r.Some? && s[0] != '-' ==> r.value >= 0
  {
    if |s| > 1 && s[0] == '-' && Numeral(s[1..]) then Some(0 - DigitsValue(s[1..]) as int)
    else if |s| > 1 && s[0] == '+' && Numeral(s[1..]) then Some(DigitsValue(s[1..]))
    else if Numeral(s) then Some(DigitsValue(s))
    else None
  }

  function DigitChar(d: nat): char
    requires d < 10
  {
    ('0' as int + d) as char
  }

  /** The decimal form of a natural number, without leading zeros. */
  function ShowNat(n: nat): string
  {
    if n < 10 then [DigitChar(n)] else ShowNat(n / 10) + [DigitChar(n % 10)]
  }

  /** str(i) for an integer id. */
  function ShowInt(i: int): string
  {
    if i < 0 then "-" + ShowNat(-i) else ShowNat(i)
  }

  lemma {:induction false} ShowNatIsDigits(n: nat)
    ensures |ShowNat(n)| > 0 && AllDigits(ShowNat(n)) && DigitsValue(ShowNat(n)) == n
  {
    var s := ShowNat(n);
    if n >= 10 {
      ShowNatIsDigits(n / 10);
      assert s[..|s| - 1] == ShowNat(n / 10);
    }
  }

  function Pow10(k: nat): nat
  {
    if k == 0 then 1 else 10 * Pow10(k - 1)
  }

  /** A number below 10^k has at most k decimal digits. */
  lemma {:induction false} ShowNatLength(n: nat, k: nat)
    requires 0 < k && n < Pow10(k)
    ensures |ShowNat(n)| <= k
  {
    if n >= 10 {
      assert k > 1;
      assert n / 10 < Pow10(k - 1);
      ShowNatLength(n / 10, k - 1);
    }
  }

  /**
   * int(str(i)) == i for every integer whose decimal form is within the
   * digit limit (beyond it str() raises as well).
   */
  lemma ParseShowInt(i: int)
    requires |ShowNat(if i < 0 then -i else i)| <= MAX_STR_DIGITS
    ensures ParseInt(ShowInt(i)) == Some(i)
  {
    if i < 0 {
      ShowNatIsDigits(-i);
      assert ShowInt(i)[1..] == ShowNat(-i);
    } else {
      ShowNatIsDigits(i);
    }
  }

  /** Every id a SERIAL (32-bit integer) column can hold parses back from its decimal form. */
  lemma ParseShowId(i: int)
    requires 0 <= i < 0x8000_0000
    ensures ParseInt(ShowInt(i)) == Some(i)
  {
    assert Pow10(2) == 100;
    assert Pow10(4) == 10000;
    assert Pow10(6) == 1000000;
    assert Pow10(8) == 100000000;
    assert Pow10(10) == 10000000000;
    ShowNatLength(i, 10);
    ParseShowInt(i);
  }

  /** int() refuses a numeral one digit longer than the limit. */
  lemma OverlongNumeralFails(s: string)
    requires |s| == MAX_STR_DIGITS + 1 && AllDigits(s)
    ensures ParseInt(s).None? && ParseInt("-" + s).None?
  {
    assert ("-" + s)[1..] == s;
  }
}
