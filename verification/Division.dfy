/** Quotients and remainders of products, which the solver does not find by itself. */
module Division {

  lemma Scale(a: int, b: int, n: int)
    requires a <= b && n >= 1
    ensures a * n <= b * n
  {
  }

  lemma DivisionIsUnique(x: int, n: int, q: int, r: int)
    requires n >= 1 && 0 <= r < n && x == q * n + r
    ensures x / n == q && x % n == r
  {
    var k := x / n;
    if k < q {
      Scale(k + 1, q, n);
    } else if q < k {
      Scale(q + 1, k, n);
    }
  }

  lemma QuotientAtLeast(k: int, n: int, x: int)
    requires n >= 1 && x >= k * n
    ensures x / n >= k
  {
    if x / n < k {
      Scale(x / n + 1, k, n);
    }
  }

  lemma SameResidue(x: int, y: int, n: int)
    requires n >= 1 && y % n == 0
    ensures (x - y) % n == 0 <==> x % n == 0
  {
    DivisionIsUnique(x - y, n, x / n - y / n, x % n);
  }
}
