/** Numbers as the program prints them, and how they are read back. */
module Decimal {
  predicate IsDigit(c: char) {
    '0' <= c <= '9'
  }

  predicate AllDigits(s: string) {
    forall i | 0 <= i < |s| :: IsDigit(s[i])
  }

  function Digit(d: nat): (c: char)
    requires d < 10
    ensures IsDigit(c) && c as int - '0' as int == d
  {
    '0' + d as char
  }

  /** `String(n)`. */
  function Dec(n: nat): (s: string)
    ensures s != "" && AllDigits(s)
    ensures n > 0 ==> s[0] != '0'
  {
    if n < 10 then [Digit(n)] else Dec(n / 10) + [Digit(n % 10)]
  }

  /** The number a run of digits spells. */
  function Read(s: string): nat
    requires AllDigits(s)
  {
    if s == "" then 0 else 10 * Read(s[..|s| - 1]) + (s[|s| - 1] as int - '0' as int)
  }

  lemma {:induction false} ReadDec(n: nat)
    ensures Read(Dec(n)) == n
  {
    if n >= 10 {
      ReadDec(n / 10);
      assert Dec(n)[..|Dec(n)| - 1] == Dec(n / 10);
    } else {
      assert Dec(n)[..0] == "";
    }
  }

  lemma DecInjective(m: nat, n: nat)
    requires Dec(m) == Dec(n)
    ensures m == n
  {
    ReadDec(m);
    ReadDec(n);
  }

  function Zeros(k: nat): (s: string)
    ensures |s| == k && AllDigits(s)
  {
    seq(k, _ => '0')
  }

  /** `s.padStart(width, '0')`: never shorter than `width`, never truncated. */
  function PadStart(s: string, width: nat): (p: string)
    ensures |p| == if |s| < width then width else |s|
    ensures AllDigits(s) ==> AllDigits(p)
  {
    if |s| < width then Zeros(width - |s|) + s else s
  }

  lemma {:induction false} ReadZeros(k: nat, s: string)
    requires AllDigits(s)
    ensures Read(Zeros(k) + s) == Read(s)
    decreases |s| + k
  {
    if |s| > 0 {
      var t := s[..|s| - 1];
      assert (Zeros(k) + s)[..|Zeros(k) + s| - 1] == Zeros(k) + t;
      ReadZeros(k, t);
    } else if k > 0 {
      assert Zeros(k) + s == Zeros(k);
      assert Zeros(k)[..k - 1] == Zeros(k - 1) + s;
      ReadZeros(k - 1, s);
    } else {
      assert Zeros(k) + s == s;
    }
  }

  /** Padding changes how a number looks, never which number it is. */
  lemma ReadPadded(n: nat, width: nat)
    ensures Read(PadStart(Dec(n), width)) == n
  {
    ReadDec(n);
    if |Dec(n)| < width { ReadZeros(width - |Dec(n)|, Dec(n)); }
  }

  /** A run of digits is its number, padded to its own length. */
  lemma {:induction false} DecOfRead(p: string)
    requires p != "" && AllDigits(p)
    ensures |Dec(Read(p))| <= |p| && PadStart(Dec(Read(p)), |p|) == p
    decreases |p|
  {
    var q, d := p[..|p| - 1], p[|p| - 1] as int - '0' as int;
    assert p == q + [Digit(d)];
    if q != "" {
      DecOfRead(q);
      if Read(q) == 0 {
        assert PadStart(Dec(0), |q|) == Zeros(|q|);
      }
    }
  }

  /** It is its number as printed to a width exactly if it is no longer than that, or begins with no zero. */
  lemma PaddedIff(p: string, width: nat)
    requires AllDigits(p) && 0 < width <= |p|
    ensures PadStart(Dec(Read(p)), width) == p <==> |p| == width || p[0] != '0'
  {
    DecOfRead(p);
  }

  function Pow10(k: nat): (p: nat)
    ensures p > 0
  {
    if k == 0 then 1 else 10 * Pow10(k - 1)
  }

  /** A number fits in k digits exactly when it is below the k-th power of ten. */
  lemma {:induction false} DecLength(n: nat, k: nat)
    requires k > 0
    ensures |Dec(n)| <= k <==> n < Pow10(k)
  {
    if n < 10 {
      assert Pow10(k) >= 10;
    } else if k > 1 {
      DecLength(n / 10, k - 1);
    } else {
      assert |Dec(n / 10)| >= 1;
      assert Pow10(1) == 10 * Pow10(0);
    }
  }
}
