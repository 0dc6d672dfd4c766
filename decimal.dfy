/**
 * Decimal rendering of integers, as Python's `str(n)` / `format(n, "0<w>d")`
 * and JavaScript's template interpolation `${n}` print them, together with the
 * reading of a digit string back into its value.
 */
module Decimal {

  predicate IsDigit(c: char) {
    '0' <= c <= '9'
  }

  predicate AllDigits(s: string) {
    forall i :: 0 <= i < |s| ==> IsDigit(s[i])
  }

  function Pow10(k: nat): (p: nat)
    ensures p >= 1
  {
    if k == 0 then 1 else 10 * Pow10(k - 1)
  }

  function DigitChar(d: nat): (c: char)
    requires d < 10
    ensures IsDigit(c) && (c as int) - ('0' as int) == d
  {
    ((d + '0' as int) as char)
  }

  function DigitValue(c: char): (d: nat)
    requires IsDigit(c)
    ensures d < 10 && DigitChar(d) == c
  {
    (c as int) - ('0' as int)
  }

  /** The shortest decimal rendering of `n`: no sign, no leading zero except for `0` itself. */
  function NatToString(n: nat): (s: string)
    ensures 1 <= |s| && AllDigits(s)
    ensures |s| > 1 ==> s[0] != '0'
    decreases n
  {
    if n < 10 then [DigitChar(n)] else NatToString(n / 10) + [DigitChar(n % 10)]
  }

  /** The value of a digit string; the empty string reads as 0. */
  function ValueOf(s: string): nat
    requires AllDigits(s)
  {
    if s == [] then 0 else 10 * ValueOf(s[..|s| - 1]) + DigitValue(s[|s| - 1])
  }

  /** Reading a rendering gives back the number. */
  lemma {:induction false} ValueOfNatToString(n: nat)
    ensures ValueOf(NatToString(n)) == n
    decreases n
  {
    var s := NatToString(n);
    if n >= 10 {
      ValueOfNatToString(n / 10);
      assert s[..|s| - 1] == NatToString(n / 10);
    }
  }

  /** The rendering of `n` has at most `k` digits exactly when `n < 10^k`. */
  lemma {:induction false} NatToStringLength(n: nat, k: nat)
    requires 1 <= k
    ensures |NatToString(n)| <= k <==> n < Pow10(k)
    decreases n
  {
    if n >= 10 {
      if k == 1 {
        assert Pow10(1) == 10;
        NatToStringAtLeastOne(n / 10);
      } else {
        NatToStringLength(n / 10, k - 1);
      }
    } else {
      PowMonotone(1, k);
      assert Pow10(1) == 10;
    }
  }

  lemma NatToStringAtLeastOne(n: nat)
    ensures |NatToString(n)| >= 1
  {
  }

  lemma {:induction false} PowMonotone(j: nat, k: nat)
    requires j <= k
    ensures Pow10(j) <= Pow10(k)
    decreases k
  {
    if j < k {
      PowMonotone(j, k - 1);
    }
  }

  function Zeros(k: nat): (z: string)
    ensures |z| == k && forall i :: 0 <= i < k ==> z[i] == '0'
  {
    if k == 0 then [] else Zeros(k - 1) + ['0']
  }

  /** Left-pads `s` with `0` up to `width` characters; longer strings are kept whole. */
  function ZeroPad(s: string, width: nat): (r: string)
    ensures |r| == if |s| < width then width else |s|
    ensures r[|r| - |s|..] == s
    ensures forall i :: 0 <= i < |r| - |s| ==> r[i] == '0'
  {
    if |s| < width then Zeros(width - |s|) + s else s
  }

  /** Python's `f"{n:0<width>d}"` for a non-negative `n`. */
  function PadNat(n: nat, width: nat): string
  {
    ZeroPad(NatToString(n), width)
  }

  lemma {:induction false} ValueOfAppend(a: string, b: string)
    requires AllDigits(a) && AllDigits(b)
    ensures AllDigits(a + b)
    ensures ValueOf(a + b) == ValueOf(a) * Pow10(|b|) + ValueOf(b)
    decreases |b|
  {
    if b == [] {
      assert a + b == a;
    } else {
      var b' := b[..|b| - 1];
      var c := b[|b| - 1];
      assert (a + b)[..|a + b| - 1] == a + b';
      ValueOfAppend(a, b');
      assert ValueOf(a + b) == 10 * ValueOf(a + b') + DigitValue(c);
      assert ValueOf(b) == 10 * ValueOf(b') + DigitValue(c);
      assert Pow10(|b|) == 10 * Pow10(|b'|);
      ShiftDigit(ValueOf(a), Pow10(|b'|), ValueOf(b'), DigitValue(c));
    }
  }

  lemma ShiftDigit(x: nat, p: nat, y: nat, d: nat)
    ensures 10 * (x * p + y) + d == x * (10 * p) + (10 * y + d)
  {
  }

  lemma {:induction false} ValueOfZeros(k: nat)
    ensures AllDigits(Zeros(k)) && ValueOf(Zeros(k)) == 0
    decreases k
  {
    if k > 0 {
      assert Zeros(k)[..k - 1] == Zeros(k - 1);
      ValueOfZeros(k - 1);
    }
  }

  /**
   * A padded field is all digits, reads back as `n`, is at least `width`
   * long, and is exactly `width` long when `n` fits in `width` digits.
   */
  lemma PadNatProperties(n: nat, width: nat)
    ensures AllDigits(PadNat(n, width)) && ValueOf(PadNat(n, width)) == n
    ensures |PadNat(n, width)| >= width
    ensures 1 <= width && n < Pow10(width) ==> |PadNat(n, width)| == width
  {
    var s := NatToString(n);
    ValueOfNatToString(n);
    if |s| < width {
      ValueOfZeros(width - |s|);
      ValueOfAppend(Zeros(width - |s|), s);
    }
    if 1 <= width && n < Pow10(width) {
      NatToStringLength(n, width);
    }
  }

  /** JavaScript's `${code}` for an integer: a minus sign before the digits of a negative number. */
  function IntToString(i: int): (s: string)
    ensures 1 <= |s|
    ensures i < 0 <==> s[0] == '-'
  {
    if i < 0 then "-" + NatToString(-i) else NatToString(i)
  }

  /** Distinct naturals render differently. */
  lemma NatToStringInjective(a: nat, b: nat)
    requires NatToString(a) == NatToString(b)
    ensures a == b
  {
    ValueOfNatToString(a);
    ValueOfNatToString(b);
  }

  /** Distinct integers render differently, so a rendered code identifies the code. */
  lemma IntToStringInjective(i: int, j: int)
    requires IntToString(i) == IntToString(j)
    ensures i == j
  {
    var s := IntToString(i);
    if i < 0 {
      assert j < 0 by {
        assert s[0] == '-';
      }
      assert s == "-" + NatToString(-i) == "-" + NatToString(-j);
      assert NatToString(-i) == s[1..] == NatToString(-j);
      NatToStringInjective(-i, -j);
    } else {
      assert j >= 0 by {
        assert s[0] != '-';
      }
      NatToStringInjective(i, j);
    }
  }
}
