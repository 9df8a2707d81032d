/** Facts about division the solver does not find by itself. */
module Arithmetic {
  lemma MultipleIsFar(den: int, d: int)
    requires den > 0
    ensures d >= 1 ==> den <= den * d
    ensures d <= -1 ==> den * d <= -den
  {
    assert d >= 1 ==> 0 <= den * (d - 1) == den * d - den;
    assert d <= -1 ==> 0 <= den * (-1 - d) == -den - den * d;
  }

  lemma QuotientAtMost(x: nat, den: int, most: nat)
    requires den > 0 && x <= den * most
    ensures 0 <= x / den <= most
    ensures den * (x / den) <= x < den * (x / den) + den
  {
    var q := x / den;
    assert den * (q - most) == den * q - den * most;
    MultipleIsFar(den, q - most);
  }

  lemma MultipleDivides(b: int, w: int)
    requires w > 0
    ensures (b * w) / w == b
  {
    var x := b * w;
    var q := x / w;
    assert 0 <= x - w * q < w;
    assert w * (b - q) == w * b - w * q;
    MultipleIsFar(w, b - q);
  }
}
