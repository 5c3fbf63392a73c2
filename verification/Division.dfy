/** Integer division with a known quotient and remainder. */
module Division {

  lemma Quotient(a: int, b: int, q: int, r: int)
    requires b > 0 && 0 <= r < b && a == q * b + r
    ensures a / b == q && a % b == r
  {
    var d := a / b - q;
    assert d * b == r - a % b;
    assert d >= 1 ==> d * b >= b;
    assert d <= -1 ==> d * b <= -1 * b;
  }

  lemma DivideStep(a: int, b: int)
    requires b > 1
    ensures a / b - (a - 1) / b == if a % b == 0 then 1 else 0
  {
    var q, r := a / b, a % b;
    if r == 0 {
      assert a - 1 == (q - 1) * b + (b - 1);
      Quotient(a - 1, b, q - 1, b - 1);
    } else {
      Quotient(a - 1, b, q, r - 1);
    }
  }

  lemma DivideIncreases(a: int, b: int, n: int)
    requires a <= b && n > 0
    ensures a / n <= b / n
  {
    var d := a / n - b / n;
    assert d * n == (a - a % n) - (b - b % n);
    assert d >= 1 ==> d * n >= n;
  }

  lemma OneMore(a: int, b: int)
    requires b >= 1
    ensures (a + b) / b == a / b + 1
  {
    var q := a / b;
    assert a == q * b + a % b;
    assert a + b == (q + 1) * b + a % b;
    Quotient(a + b, b, q + 1, a % b);
  }
}
