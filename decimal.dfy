/** The text the plugins put into a device's sValue: Python's `str` of an
    integer, and `str` of a float that holds a whole number of tenths
    (`float(c_short(w).value) / 10`, `float(w) / 10`, `float(w)`). For
    magnitudes below 10^15 tenths Python prints such a float as its integer
    part, a point and exactly one decimal, so the float is carried here as an
    integer count of tenths. Each rendering has a parser beside it that reads
    the value back. */
module Decimal {

  predicate IsDigit(c: char)
  {
    '0' <= c <= '9'
  }

  function Digit(d: nat): (c: char)
    requires d < 10
    ensures IsDigit(c)
  {
    (('0' as int) + d) as char
  }

  function DigitValue(c: char): int
  {
    (c as int) - ('0' as int)
  }

  function Abs(i: int): nat
  {
    if i < 0 then -i else i
  }

  /** `str(n)` for a non-negative integer: its decimal digits, no leading
      zero. */
  function NatToString(n: nat): (s: string)
    ensures |s| >= 1
    ensures forall i :: 0 <= i < |s| ==> IsDigit(s[i])
    decreases n
  {
    if n < 10 then [Digit(n)] else NatToString(n / 10) + [Digit(n % 10)]
  }

  /** `str(i)` for any integer. */
  function IntToString(i: int): (s: string)
    ensures |s| >= 1 && (s[0] == '-' <==> i < 0)
    ensures forall k :: 1 <= k < |s| ==> IsDigit(s[k])
  {
    if i < 0 then "-" + NatToString(-i) else NatToString(i)
  }

  /** `str(t / 10)` for a float that holds `t` tenths: sign, integer part,
      point, one decimal (`-5.0`, `21.5`, `0.0`). */
  function TenthsToString(t: int): (s: string)
    ensures |s| >= 3 && s[|s| - 2] == '.' && IsDigit(s[|s| - 1])
    ensures s[0] == '-' <==> t < 0
  {
    (if t < 0 then "-" else "") + NatToString(Abs(t) / 10) + "." + [Digit(Abs(t) % 10)]
  }

  /** The value of a string of decimal digits. */
  function ParseNat(s: string): int
  {
    if s == [] then 0 else ParseNat(s[..|s| - 1]) * 10 + DigitValue(s[|s| - 1])
  }

  /** The value of `str(i)`, read back. */
  function ParseInt(s: string): int
  {
    if |s| > 0 && s[0] == '-' then -ParseNat(s[1..]) else ParseNat(s)
  }

  /** The number of tenths of `str(t / 10)`, read back. */
  function ParseTenths(s: string): int
  {
    var negative := |s| > 0 && s[0] == '-';
    var unsigned := if negative then s[1..] else s;
    var magnitude :=
      if |unsigned| < 2 then 0
      else ParseNat(unsigned[..|unsigned| - 2]) * 10 + DigitValue(unsigned[|unsigned| - 1]);
    if negative then -magnitude else magnitude
  }

  lemma {:induction false} NatRoundTrip(n: nat)
    ensures ParseNat(NatToString(n)) == n
    decreases n
  {
    if n >= 10 {
      var s := NatToString(n);
      assert s[..|s| - 1] == NatToString(n / 10);
      NatRoundTrip(n / 10);
    }
  }

  lemma IntRoundTrip(i: int)
    ensures ParseInt(IntToString(i)) == i
  {
    NatRoundTrip(Abs(i));
    var s := IntToString(i);
    if i < 0 {
      assert s[1..] == NatToString(-i);
    } else {
      assert IsDigit(s[0]);
    }
  }

  lemma TenthsRoundTrip(t: int)
    ensures ParseTenths(TenthsToString(t)) == t
  {
    var a := Abs(t);
    var unsigned := NatToString(a / 10) + "." + [Digit(a % 10)];
    var s := TenthsToString(t);
    NatRoundTrip(a / 10);
    assert unsigned[..|unsigned| - 2] == NatToString(a / 10);
    if t < 0 {
      assert s == "-" + unsigned;
      assert s[1..] == unsigned;
    } else {
      assert s == unsigned;
      assert IsDigit(s[0]);
    }
  }

  /** Different numbers of tenths are shown as different strings, so a change
      of a reading always changes the sValue. */
  lemma TenthsToStringInjective(t1: int, t2: int)
    ensures TenthsToString(t1) == TenthsToString(t2) <==> t1 == t2
  {
    TenthsRoundTrip(t1);
    TenthsRoundTrip(t2);
  }

  lemma IntToStringInjective(i1: int, i2: int)
    ensures IntToString(i1) == IntToString(i2) <==> i1 == i2
  {
    IntRoundTrip(i1);
    IntRoundTrip(i2);
  }
}
