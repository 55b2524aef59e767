/**
 * Decimal text for integers: Python's `str(n)`, the `04d` format used for
 * padded VLAN ids, and the subset of `int(s, 10)` the model accepts.
 */
module Decimal {

  predicate IsDigit(c: char)
  {
    '0' <= c <= '9'
  }

  predicate AllDigits(s: string)
  {
    forall i :: 0 <= i < |s| ==> IsDigit(s[i])
  }

  /** A non-empty run of ASCII digits. */
  predicate IsDecimal(s: string)
  {
    |s| > 0 && AllDigits(s)
  }

  /** The form `str(n)` produces: digits with no leading zero, except for "0" itself. */
  predicate IsCanonical(s: string)
  {
    IsDecimal(s) && (s[0] == '0' ==> |s| == 1)
  }

  function DigitValue(c: char): nat
    requires IsDigit(c)
  {
    c as int - '0' as int
  }

  function DigitChar(d: nat): (c: char)
    requires d < 10
    ensures IsDigit(c) && DigitValue(c) == d
  {
    ('0' as int + d) as char
  }

  /** The number a string of digits denotes in base 10 (the empty string denotes 0). */
  function DecimalValue(s: string): nat
    requires AllDigits(s)
  {
    if s == [] then 0 else 10 * DecimalValue(s[..|s| - 1]) + DigitValue(s[|s| - 1])
  }

  function Pow10(k: nat): (p: nat)
    ensures p >= 1
  {
    if k == 0 then 1 else 10 * Pow10(k - 1)
  }

  /** Python's `str(n)` for a non-negative integer. */
  function NatToDecimal(n: nat): (s: string)
    ensures IsCanonical(s)
    ensures s[0] == '0' <==> n == 0
  {
    if n < 10 then [DigitChar(n)] else NatToDecimal(n / 10) + [DigitChar(n % 10)]
  }

  /** Reading back the decimal text of `n` gives `n`. */
  lemma {:induction false} DecimalRoundTrip(n: nat)
    ensures DecimalValue(NatToDecimal(n)) == n
  {
    var s := NatToDecimal(n);
    if n >= 10 {
      assert s[..|s| - 1] == NatToDecimal(n / 10);
      DecimalRoundTrip(n / 10);
    }
  }

  /** `str(n)` has at most `k` digits when `n < 10^k`. */
  lemma {:induction false} DecimalLength(n: nat, k: nat)
    requires k >= 1 && n < Pow10(k)
    ensures |NatToDecimal(n)| <= k
  {
    if n >= 10 {
      DecimalLength(n / 10, k - 1);
    }
  }

  /** The canonical form is the only one: a canonical string is `str` of its value. */
  lemma {:induction false} CanonicalUnique(s: string)
    requires IsCanonical(s)
    ensures NatToDecimal(DecimalValue(s)) == s
  {
    var init := s[..|s| - 1];
    var v := DecimalValue(s);
    if |s| > 1 {
      assert IsCanonical(init) by {
        assert init[0] == s[0];
      }
      CanonicalUnique(init);
      assert init[0] != '0';
      assert DecimalValue(init) != 0;
      assert v / 10 == DecimalValue(init);
      assert v % 10 == DigitValue(s[|s| - 1]);
      assert s == init + [s[|s| - 1]];
    } else {
      assert s == [s[0]];
    }
  }

  function Zeros(k: nat): (z: string)
    ensures |z| == k && forall i :: 0 <= i < k ==> z[i] == '0'
  {
    seq(k, _ => '0')
  }

  /** Leading zeros do not change the value. */
  lemma {:induction false} LeadingZerosValue(k: nat, s: string)
    requires AllDigits(s)
    ensures AllDigits(Zeros(k) + s)
    ensures DecimalValue(Zeros(k) + s) == DecimalValue(s)
  {
    var z := Zeros(k);
    if s == [] {
      assert z + s == z;
      if k > 0 {
        assert z[..k - 1] == Zeros(k - 1);
        LeadingZerosValue(k - 1, s);
        assert Zeros(k - 1) + s == Zeros(k - 1);
      }
    } else {
      var init := s[..|s| - 1];
      assert (z + s)[..|z + s| - 1] == z + init;
      LeadingZerosValue(k, init);
    }
  }

  /** Python's `f"{n:0{width}d}"` for a non-negative integer: `str(n)` left-filled with zeros. */
  function ZeroPadded(n: nat, width: nat): (s: string)
    ensures IsDecimal(s) && DecimalValue(s) == n
    ensures |s| >= width && |s| >= |NatToDecimal(n)|
    ensures width >= 1 && n < Pow10(width) ==> |s| == width
    ensures |NatToDecimal(n)| >= width ==> s == NatToDecimal(n)
  {
    var d := NatToDecimal(n);
    DecimalRoundTrip(n);
    assert width >= 1 && n < Pow10(width) ==> |d| <= width by {
      if width >= 1 && n < Pow10(width) {
        DecimalLength(n, width);
      }
    }
    if |d| < width then
      LeadingZerosValue(width - |d|, d);
      Zeros(width - |d|) + d
    else
      d
  }

  /**
   * CPython's default limit on the digits of a decimal text `int()` converts
   * (3.11 and later, and the 3.10.7, 3.9.14, 3.8.14 and 3.7.14 releases); a
   * longer text raises ValueError.
   */
  const MaxStrDigits := 4300

  predicate HasSign(s: string)
  {
    |s| > 0 && (s[0] == '+' || s[0] == '-')
  }

  /** The digits of a literal, after its optional sign. */
  function Digits(s: string): string
  {
    if HasSign(s) then s[1..] else s
  }

  /**
   * The integer literals `int(s, 10)` accepts in this model: an optional
   * sign followed by at least one and at most MaxStrDigits ASCII digits.
   */
  predicate IsIntLiteral(s: string)
    ensures IsIntLiteral(s) ==>
      && 0 < |s| <= MaxStrDigits + 1
      && forall i :: 0 <= i < |s| ==> IsDigit(s[i]) || (i == 0 && (s[i] == '+' || s[i] == '-'))
  {
    var digits := Digits(s);
    IsDecimal(digits) && |digits| <= MaxStrDigits
  }

  /**
   * The value `int(s, 10)` returns for such a literal: the digits give its
   * magnitude, and it is negative only after a minus sign.
   */
  function IntValue(s: string): (r: int)
    requires IsIntLiteral(s)
    ensures (if r < 0 then -r else r) == DecimalValue(Digits(s))
    ensures r < 0 ==> s[0] == '-'
    ensures r > 0 ==> s[0] != '-'
  {
    if s[0] == '-' then -(DecimalValue(s[1..]) as int)
    else if s[0] == '+' then DecimalValue(s[1..])
    else DecimalValue(s)
  }

  /** `str(n)` is read back by `int(., 10)` as `n`, as long as it is within the digit limit. */
  lemma DecimalIsIntLiteral(n: nat)
    requires |NatToDecimal(n)| <= MaxStrDigits
    ensures IsIntLiteral(NatToDecimal(n)) && IntValue(NatToDecimal(n)) == n
  {
    DecimalRoundTrip(n);
  }

  /** A digit string longer than the limit is refused, however small its value. */
  lemma DigitLimitRejects(s: string)
    requires IsDecimal(s) && |s| > MaxStrDigits
    ensures !IsIntLiteral(s) && !IsIntLiteral("-" + s) && !IsIntLiteral("+" + s)
  {
    assert ("-" + s)[1..] == s && ("+" + s)[1..] == s;
  }
}
