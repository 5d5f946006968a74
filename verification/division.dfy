/** Division by a variable. */
module Division {

  lemma Multiple(d: int, k: int)
    requires d >= 0
    ensures k >= 1 ==> d * k >= d
    ensures k <= -1 ==> d * k <= -d
  {
    if k >= 1 {
      assert d * k == d + d * (k - 1);
    }
  }

  /** Quotient and remainder are unique. */
  lemma Divides(w: int, d: int, q: int, r: int)
    requires w == d * q + r && 0 <= r < d
    ensures w / d == q && w % d == r
  {
    var k: int := w / d - q;
    assert w == d * (w / d) + w % d;
    assert d * k == r - w % d;
    Multiple(d, k);
  }
}
