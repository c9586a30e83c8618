/** Facts about products and integer division, in steps small enough for the solver. */
module Arithmetic {
  lemma Distribute(x: int, y: int, b: int)
    ensures (x + y) * b == x * b + y * b
  {
  }

  lemma Swap(x: int, y: int, z: int)
    ensures (x * y) * z == (x * z) * y
  {
  }

  lemma NonNegative(x: int, b: int)
    ensures x >= 0 && b >= 0 ==> x * b >= 0
  {
  }

  /** Multiplying by a number that is not negative keeps order, and a gap of one becomes a gap of `b`. */
  lemma MultiplesApart(q: int, r: int, b: int)
    requires b >= 0
    ensures q <= r ==> q * b <= r * b
    ensures q < r ==> q * b + b <= r * b
  {
    Distribute(q, r - q, b);
    NonNegative(r - q, b);
    Distribute(q, 1, b);
    Distribute(q + 1, r - q - 1, b);
    NonNegative(r - q - 1, b);
  }

  /** `q` is the quotient of `a` by `b > 0` exactly when `a` lies between `q` and `q + 1` times `b`. */
  lemma QuotientIs(a: int, b: int, q: int)
    requires b > 0
    ensures a / b == q <==> q * b <= a < q * b + b
  {
    var r := a / b;
    assert r * b <= a < r * b + b;
    MultiplesApart(q, r, b);
    MultiplesApart(r, q, b);
  }

  /** Counting up by one moves the quotient exactly when the remainder wraps to zero. */
  lemma DivideNext(i: int, m: int)
    requires m > 0
    ensures (i + 1) % m == if i % m + 1 == m then 0 else i % m + 1
    ensures (i + 1) / m == i / m + if (i + 1) % m == 0 then 1 else 0
  {
    var q := i / m;
    DivMod(i, m);
    DivMod(i + 1, m);
    Distribute(q, 1, m);
    QuotientIs(i + 1, m, if i % m + 1 == m then q + 1 else q);
  }

  lemma DivMod(a: int, m: int)
    requires m > 0
    ensures a == (a / m) * m + a % m && 0 <= a % m < m
  {
  }

  /** Nested flooring: dividing a floored multiple of `k` by `k` is flooring once. */
  lemma NestedFloor(a: int, b: int, k: int)
    requires b >= 1 && k >= 1
    ensures ((a * k) / b) / k == a / b
  {
    var q, r := a / b, (a * k) / b;
    QuotientIs(a, b, q);
    QuotientIs(a * k, b, r);
    ScaledBounds(a, b, k, q);
    MultiplesApart(r + 1, q * k, b);
    Distribute(r, 1, b);
    MultiplesApart(q * k + k, r, b);
    QuotientIs(r, k, q);
  }

  /** Scaling a division's interval. */
  lemma ScaledBounds(a: int, b: int, k: int, q: int)
    requires b >= 1 && k >= 1
    requires q * b <= a < q * b + b
    ensures (q * k) * b <= a * k < (q * k + k) * b
  {
    MultiplesApart(q * b, a, k);
    MultiplesApart(a, q * b + b, k);
    Distribute(q * b, b, k);
    Distribute(q * k, k, b);
    Swap(q, b, k);
  }

  /** A common factor cancels. */
  lemma CancelFactor(a: int, m: int, k: int)
    requires m >= 1 && k >= 1
    ensures m * k >= 1 && (a * m) / (m * k) == a / k
  {
    var q := a / k;
    MultiplesApart(1, m, k);
    QuotientIs(a, k, q);
    ScaledBounds(a, k, m, q);
    Swap(q, m, k);
    Distribute(q * m, m, k);
    Regroup(q, m, k);
    QuotientIs(a * m, m * k, q);
  }

  lemma Regroup(q: int, m: int, k: int)
    ensures (q * m) * k == q * (m * k)
  {
  }
}
