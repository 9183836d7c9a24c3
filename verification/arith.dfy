/** Facts about flooring division and multiplication that the solver does not find unaided. */
module Arith {

  /** Multiplying by a non-negative factor keeps the order. */
  lemma {:induction false} MulMono(a: int, b: int, c: nat)
    requires a <= b
    ensures a * c <= b * c
    decreases c
  {
    if c > 0 {
      MulMono(a, b, c - 1);
      assert a * c == a * (c - 1) + a;
      assert b * c == b * (c - 1) + b;
    }
  }

  /** Division is determined by its defining equation. */
  lemma DivUnique(x: int, d: nat, q: int, r: int)
    requires d > 0 && 0 <= r < d && x == q * d + r
    ensures x / d == q && x % d == r
  {
    var q' := x / d;
    var r' := x % d;
    assert x == q' * d + r';
    if q' < q {
      MulMono(q' + 1, q, d);
    } else if q' > q {
      MulMono(q + 1, q', d);
    }
  }

  /** Dividing twice is dividing by the product. */
  lemma DivDiv(x: int, a: nat, b: nat)
    requires a > 0 && b > 0
    ensures x / a / b == x / (a * b)
  {
    var q := x / a / b;
    var r1 := x % a;
    var r2 := (x / a) % b;
    assert x / a == q * b + r2;
    assert x == (q * b + r2) * a + r1;
    assert x == q * (a * b) + (r2 * a + r1);
    assert 0 <= r2 * a + r1 < a * b by {
      MulMono(r2, b - 1, a);
      assert (b - 1) * a == a * b - a;
    }
    DivUnique(x, a * b, q, r2 * a + r1);
  }
}
