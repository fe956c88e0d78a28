/**
 Quotients and remainders, for the epoch formula, the round-robin counter and the beat counts.
 */
module Modular {
  lemma Distributes(a: int, b: int, m: int)
    ensures (a - b) * m == a * m - b * m
  {
  }

  /** Multiples of `m` that differ are at least `m` apart. */
  lemma MultiplesApart(a: int, b: int, m: int)
    requires m > 0 && a < b
    ensures b * m - a * m >= m
  {
    var k := b - a;
    Distributes(b, a, m);
    assert k * m == (k - 1) * m + m && (k - 1) * m >= 0;
  }

  /** Quotient and remainder are determined. */
  lemma MultipleMod(q: int, m: int, r: int)
    requires m > 0 && 0 <= r < m
    ensures (q * m + r) / m == q && (q * m + r) % m == r
  {
    var x := q * m + r;
    var q1, r1 := x / m, x % m;
    assert x == q1 * m + r1;
    if q1 < q {
      MultiplesApart(q1, q, m);
    } else if q1 > q {
      MultiplesApart(q, q1, m);
    }
  }

  lemma ModSuccessor(x: int, m: int)
    requires m > 1
    ensures (x + 1) % m == if x % m == m - 1 then 0 else x % m + 1
  {
    var q, r := x / m, x % m;
    assert x == q * m + r;
    if r == m - 1 {
      assert x + 1 == (q + 1) * m;
      MultipleMod(q + 1, m, 0);
    } else {
      MultipleMod(q, m, r + 1);
    }
  }

  /** Taking one `m` away takes one from the quotient. */
  lemma DivideLess(x: int, m: int)
    requires m > 0
    ensures (x - m) / m == x / m - 1
  {
    var q, r := x / m, x % m;
    assert x == q * m + r;
    assert x - m == (q - 1) * m + r;
    MultipleMod(q - 1, m, r);
  }
}
