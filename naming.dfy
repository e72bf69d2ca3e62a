/** Decimal rendering of bucket and style indices, as .NET's `int.ToString()` and
    `int.ToString("D3")` produce them for non-negative values, and the inverse
    reading of a digit string. */
module Naming {

  predicate IsDigit(ch: char) {
    '0' <= ch <= '9'
  }

  predicate AllDigits(s: string) {
    forall i :: 0 <= i < |s| ==> IsDigit(s[i])
  }

  function DigitChar(d: nat): (ch: char)
    requires d < 10
  {
    (('0' as int) + d) as char
  }

  function DigitValue(ch: char): (d: nat)
    requires IsDigit(ch)
  {
    (ch as int) - ('0' as int)
  }

  /** `n.ToString()`: the shortest decimal form of n, at least one digit and with
      no leading zero unless n is zero. */
  function Decimal(n: nat): (s: string)
    ensures 1 <= |s| && AllDigits(s)
    ensures n < 10 <==> |s| == 1
    ensures s[0] == '0' <==> n == 0
    decreases n
  {
    if n < 10 then [DigitChar(n)] else Decimal(n / 10) + [DigitChar(n % 10)]
  }

  /** k copies of the digit zero. */
  function Zeros(k: nat): (s: string)
    ensures |s| == k && AllDigits(s)
  {
    seq(k, _ => '0')
  }

  /** `n.ToString("Dw")`: the decimal form of n, left-padded with zeros to at least
      w digits. */
  function ZeroPadded(n: nat, w: nat): (s: string)
    ensures AllDigits(s) && 1 <= |s| && w <= |s|
  {
    var d := Decimal(n);
    if |d| < w then Zeros(w - |d|) + d else d
  }

  /** The number a string of decimal digits denotes. */
  function DecimalValue(s: string): nat
    requires AllDigits(s)
  {
    if s == [] then 0 else DecimalValue(s[..|s| - 1]) * 10 + DigitValue(s[|s| - 1])
  }

  /** Reading back the decimal form of n gives n. */
  lemma {:induction false} DecimalRoundTrip(n: nat)
    ensures DecimalValue(Decimal(n)) == n
    decreases n
  {
    var s := Decimal(n);
    if n >= 10 {
      DecimalRoundTrip(n / 10);
      assert s[..|s| - 1] == Decimal(n / 10);
    }
  }

  /** Leading zeros do not change the value of a digit string. */
  lemma {:induction false} LeadingZeros(k: nat, s: string)
    requires AllDigits(s)
    ensures DecimalValue(Zeros(k) + s) == DecimalValue(s)
    decreases |s|
  {
    if s == [] {
      assert Zeros(k) + s == Zeros(k);
      ZerosValue(k);
    } else {
      var t := Zeros(k) + s;
      assert t[..|t| - 1] == Zeros(k) + s[..|s| - 1];
      LeadingZeros(k, s[..|s| - 1]);
    }
  }

  lemma {:induction false} ZerosValue(k: nat)
    ensures DecimalValue(Zeros(k)) == 0
  {
    if k > 0 {
      assert Zeros(k)[..k - 1] == Zeros(k - 1);
      ZerosValue(k - 1);
    }
  }

  /** Reading back the zero-padded form of n gives n, whatever the width. */
  lemma {:induction false} ZeroPaddedRoundTrip(n: nat, w: nat)
    ensures DecimalValue(ZeroPadded(n, w)) == n
  {
    var d := Decimal(n);
    var p := ZeroPadded(n, w);
    DecimalRoundTrip(n);
    if |d| < w {
      var z := Zeros(w - |d|);
      assert p == z + d;
      LeadingZeros(w - |d|, d);
      assert DecimalValue(z + d) == DecimalValue(d);
    } else {
      assert p == d;
    }
  }

  /** Every index below 1000 is written with exactly three digits by `D3`. */
  lemma ZeroPaddedWidth3(n: nat)
    requires n < 1000
    ensures |ZeroPadded(n, 3)| == 3
  {
    DecimalLength3(n);
  }

  lemma DecimalLength3(n: nat)
    requires n < 1000
    ensures |Decimal(n)| <= 3
  {
    if n >= 10 {
      assert |Decimal(n / 10)| <= 2 by {
        if n / 10 >= 10 {
          assert |Decimal(n / 100)| == 1;
        }
      }
    }
  }
}
