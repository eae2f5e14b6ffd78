/** Euclidean division. */
module Division {
  /** A remainder is determined by its quotient. */
  lemma Remainder(x: int, m: nat, q: int, r: nat)
    requires x == q * m + r && r < m
    ensures x % m == r
  {
    var d := x / m - q;
    assert d * m == r - x % m;
    assert d > 0 ==> d * m >= m;
    assert d < 0 ==> d * m <= -1 * m;
  }
}
