/** Decimal rendering of natural numbers, as JavaScript prints a small
    non-negative integer (a chart's ordinal, an array index used as a key). */
module Decimal {

  predicate IsDigit(c: char) {
    '0' <= c <= '9'
  }

  predicate AllDigits(s: string) {
    forall i :: 0 <= i < |s| ==> IsDigit(s[i])
  }

  /** A canonical decimal numeral: non-empty, digits only, no leading zero
      except for "0" itself. */
  predicate IsCanonical(s: string) {
    |s| >= 1 && AllDigits(s) && (s[0] == '0' ==> |s| == 1)
  }

  function DigitChar(d: nat): (c: char)
    requires d < 10
    ensures IsDigit(c)
  {
    (('0' as int) + d) as char
  }

  function DigitValue(c: char): (d: nat)
    requires IsDigit(c)
    ensures d < 10
  {
    (c as int) - ('0' as int)
  }

  /** The decimal numeral of `n`. */
  function NatToString(n: nat): (s: string)
    ensures IsCanonical(s)
    ensures (|s| == 1) == (n < 10)
    decreases n
  {
    if n < 10 then [DigitChar(n)] else NatToString(n / 10) + [DigitChar(n % 10)]
  }

  function Pow10(k: nat): (p: nat)
    ensures p >= 1
  {
    if k == 0 then 1 else 10 * Pow10(k - 1)
  }

  function Zeros(n: nat): (s: string)
    ensures |s| == n && forall i :: 0 <= i < n ==> s[i] == '0'
  {
    if n == 0 then "" else Zeros(n - 1) + "0"
  }

  /** Appending a zero digit multiplies by ten. */
  lemma NatToStringTimesTen(n: nat)
    requires n > 0
    ensures NatToString(n * 10) == NatToString(n) + "0"
  {
    assert (n * 10) / 10 == n && (n * 10) % 10 == 0;
  }

  /** A positive number times 10^z prints as its own numeral followed by z
      zeros. */
  lemma {:induction false} NatToStringShift(d: nat, z: nat)
    requires d > 0
    ensures NatToString(d * Pow10(z)) == NatToString(d) + Zeros(z)
    decreases z
  {
    if z > 0 {
      var q := d * Pow10(z - 1);
      ShiftStep(d, z);
      NatToStringShift(d, z - 1);
      NatToStringTimesTen(q);
      var digits := NatToString(d);
      assert NatToString(q) == digits + Zeros(z - 1);
      assert (digits + Zeros(z - 1)) + "0" == digits + (Zeros(z - 1) + "0");
    }
  }

  lemma ShiftStep(d: nat, z: nat)
    requires d > 0 && z > 0
    ensures d * Pow10(z) == (d * Pow10(z - 1)) * 10 && d * Pow10(z - 1) > 0
  {
    var p := Pow10(z - 1);
    assert Pow10(z) == 10 * p;
    assert d * (10 * p) == (d * p) * 10;
    assert d * p >= p;
  }

  /** A number below 10^k has at most k digits. */
  lemma {:induction false} NatToStringLength(n: nat, k: nat)
    requires k >= 1 && n < Pow10(k)
    ensures |NatToString(n)| <= k
    decreases n
  {
    if n >= 10 {
      assert Pow10(1) == 10;
      assert n / 10 < Pow10(k - 1);
      NatToStringLength(n / 10, k - 1);
    }
  }

  /** The number a string of digits denotes (leading zeros allowed). */
  function ReadDecimal(s: string): nat
    requires AllDigits(s)
  {
    if s == [] then 0 else ReadDecimal(s[..|s| - 1]) * 10 + DigitValue(s[|s| - 1])
  }

  /** Reading back a rendered numeral gives the number. */
  lemma {:induction false} ReadNatToString(n: nat)
    ensures ReadDecimal(NatToString(n)) == n
    decreases n
  {
    if n >= 10 {
      var s := NatToString(n / 10);
      ReadNatToString(n / 10);
      assert (s + [DigitChar(n % 10)])[..|s|] == s;
    }
  }

  /** Different numbers render differently. */
  lemma NatToStringInjective()
    ensures forall m: nat, n: nat {:trigger NatToString(m), NatToString(n)} ::
              NatToString(m) == NatToString(n) ==> m == n
  {
    forall m: nat, n: nat | NatToString(m) == NatToString(n)
      ensures m == n
    {
      ReadNatToString(m);
      ReadNatToString(n);
    }
  }

  lemma {:induction false} ReadZeroLeadingZero(s: string)
    requires |s| >= 1 && AllDigits(s) && ReadDecimal(s) == 0
    ensures s[0] == '0'
    decreases |s|
  {
    if |s| > 1 {
      ReadZeroLeadingZero(s[..|s| - 1]);
    }
  }

  /** Every canonical numeral is the rendering of the number it denotes, so
      rendering and reading are inverse on canonical numerals. */
  lemma {:induction false} NatToStringOfRead(s: string)
    requires IsCanonical(s)
    ensures NatToString(ReadDecimal(s)) == s
    decreases |s|
  {
    if |s| > 1 {
      var t := s[..|s| - 1];
      assert t[0] == s[0];
      if ReadDecimal(t) == 0 {
        ReadZeroLeadingZero(t);
        assert false;
      }
      NatToStringOfRead(t);
      var n := ReadDecimal(s);
      assert n / 10 == ReadDecimal(t) && n % 10 == DigitValue(s[|s| - 1]);
      assert s == t + [s[|s| - 1]];
    }
  }
}
