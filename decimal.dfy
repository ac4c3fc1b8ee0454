/** How a pixel value becomes the text of a CSS custom property: JavaScript's
    number-to-string conversion, for integers, followed by "px". */
module Decimal {
  import opened Types

  predicate IsDigit(c: char)
  {
    '0' <= c <= '9'
  }

  predicate AllDigits(s: string)
  {
    forall i :: 0 <= i < |s| ==> IsDigit(s[i])
  }

  function Digit(d: nat): (c: char)
    requires d < 10
    ensures IsDigit(c)
  {
    ('0' as int + d) as char
  }

  function DigitValue(c: char): (d: nat)
    requires IsDigit(c)
    ensures d < 10
  {
    c as int - '0' as int
  }

  /** The decimal digits of `n`, most significant first. */
  function NatToDecimal(n: nat): (s: string)
    ensures |s| >= 1 && AllDigits(s)
    ensures s[0] == '0' <==> n == 0
    decreases n
  {
    if n < 10 then [Digit(n)] else NatToDecimal(n / 10) + [Digit(n % 10)]
  }

  /** The number a digit string denotes; the reference reading of `NatToDecimal`. */
  function DecimalValue(s: string): nat
    requires AllDigits(s)
    decreases |s|
  {
    if s == [] then 0 else DecimalValue(s[..|s| - 1]) * 10 + DigitValue(s[|s| - 1])
  }

  lemma {:induction false} NatToDecimalRoundTrip(n: nat)
    ensures DecimalValue(NatToDecimal(n)) == n
    decreases n
  {
    if n >= 10 {
      var s := NatToDecimal(n / 10);
      NatToDecimalRoundTrip(n / 10);
      assert (s + [Digit(n % 10)])[..|s|] == s;
    }
  }

  /** `String(n)` for an integer `n`: a minus sign for negatives, then digits. */
  function IntToDecimal(n: int): (s: string)
    ensures |s| >= 1
    ensures s[0] == '-' <==> n < 0
  {
    if n < 0 then "-" + NatToDecimal(-n) else NatToDecimal(n)
  }

  /** Reads an optionally signed digit string back. */
  function ParseDecimal(s: string): Option<int>
  {
    if |s| >= 2 && s[0] == '-' && AllDigits(s[1..]) then
      var magnitude: int := DecimalValue(s[1..]);
      Some(-magnitude)
    else if |s| >= 1 && AllDigits(s) then
      var magnitude: int := DecimalValue(s);
      Some(magnitude)
    else None
  }

  lemma IntToDecimalRoundTrip(n: int)
    ensures ParseDecimal(IntToDecimal(n)) == Some(n)
  {
    var s := IntToDecimal(n);
    if n < 0 {
      var digits := NatToDecimal(-n);
      assert s == "-" + digits;
      assert s[1..] == digits;
      NatToDecimalRoundTrip(-n);
    } else {
      assert s == NatToDecimal(n);
      assert !(|s| >= 2 && s[0] == '-');
      NatToDecimalRoundTrip(n);
    }
  }

  /** The value written to `--vue-track-y` / `--vue-track-x`: `${n}px`. */
  function Px(n: int): (s: string)
    ensures |s| >= 3 && s[|s| - 2..] == "px"
  {
    IntToDecimal(n) + "px"
  }

  /** The pixel text determines the number: strip "px" and read it back. */
  lemma PxRoundTrip(n: int)
    ensures ParseDecimal(Px(n)[..|Px(n)| - 2]) == Some(n)
  {
    assert Px(n)[..|Px(n)| - 2] == IntToDecimal(n);
    IntToDecimalRoundTrip(n);
  }

  lemma PxInjective(m: int, n: int)
    ensures Px(m) == Px(n) <==> m == n
  {
    if Px(m) == Px(n) {
      PxRoundTrip(m);
      PxRoundTrip(n);
    }
  }
}
