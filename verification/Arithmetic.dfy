/** Facts about products and quotients that the verifier wants named. */
module Arithmetic {

  lemma {:induction false} MulMonotone(a: int, b: int, d: nat)
    requires a <= b
    ensures a * d <= b * d
  {
  }

  lemma {:induction false} Distribute(a: int, b: int, n: int)
    ensures (a - b) * n == a * n - b * n
  {
  }

  lemma {:induction false} Cancel(a: int, b: int, n: nat)
    requires n > 0 && a * n < b * n
    ensures a < b
  {
    if a >= b { MulMonotone(b, a, n); }
  }

  lemma {:induction false} FloorBounds(x: nat, n: nat)
    requires n > 0
    ensures x / n * n <= x < x / n * n + n
  {
  }

  lemma {:induction false} DivUnique(n: nat, d: nat, q: nat, r: nat)
    requires r < d && n == q * d + r
    ensures n / d == q && n % d == r
  {
    var q', r' := n / d, n % d;
    assert n == q' * d + r' && 0 <= r' < d;
    if q' < q { MulMonotone(q' + 1, q, d); } else { MulMonotone(q + 1, q' + 1, d); }
    if q < q' { MulMonotone(q + 1, q', d); }
  }
}
