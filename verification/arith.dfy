/** Arithmetic facts shared by the oscillator and the frame layout. */
module Arith {

  /** A nonzero multiple of a positive `m` is at least `m` away from zero. */
  lemma MulAwayFromZero(d: int, m: int)
    requires m > 0
    ensures d >= 1 ==> d * m >= m
    ensures d <= -1 ==> d * m <= -m
  {
  }

  /** `x % m` is the remainder of any decomposition `x == q * m + r` with `0 <= r < m`. */
  lemma ModUnique(x: int, m: int, q: int, r: int)
    requires m > 0 && 0 <= r < m && x == q * m + r
    ensures x % m == r
  {
    var d := x / m - q;
    assert d * m == r - x % m;
    MulAwayFromZero(d, m);
  }

  /** Multiplying by a positive number keeps a strict order. */
  lemma ScaleOrder(a: real, b: real, c: real)
    requires c > 0.0
    ensures a < b <==> a * c < b * c
  {
    assert (b - a) * c == b * c - a * c;
  }
}
