/** The few facts about products and quotients that the proofs rest on. */
module Arithmetic {
  lemma Distribute(m: int, n: int)
    ensures m * (1 + n) == m + m * n
  {}

  lemma CommuteProduct(a: int, b: int)
    ensures a * b == b * a
  {}

  lemma ProductOrder(a: int, b: int, m: nat)
    requires a <= b
    ensures m * a <= m * b
  {}

  lemma Quotient(w: nat, unit: nat)
    requires unit > 0
    ensures unit * (w / unit) <= w < unit * (w / unit) + unit
  {}

  lemma FactorOrder(unit: nat, j: int, k: int)
    requires unit > 0 && unit * j < unit * k + unit
    ensures j <= k
  {
    assert unit * (k + 1) == unit * k + unit;
    assert j >= k + 1 ==> unit * j >= unit * (k + 1);
  }

  lemma QuotientIs(w: nat, unit: nat, k: int)
    requires unit > 0 && unit * k <= w < unit * k + unit
    ensures w / unit == k
  {
    Quotient(w, unit);
    FactorOrder(unit, w / unit, k);
    FactorOrder(unit, k, w / unit);
  }

  lemma OneFewer(w: nat, unit: nat)
    requires unit > 0 && w >= unit
    ensures w / unit == 1 + (w - unit) / unit
  {
    var k := (w - unit) / unit;
    Distribute(unit, k);
    QuotientIs(w, unit, 1 + k);
  }

  lemma QuotientOrder(a: nat, b: nat, unit: nat)
    requires unit > 0 && a <= b
    ensures a / unit <= b / unit
  {
    var j, k := a / unit, b / unit;
    Quotient(a, unit);
    Quotient(b, unit);
    FactorOrder(unit, j, k);
  }

  lemma PerUnit(m: nat, count: nat, free: nat, w: nat)
    requires m > 0 && m * count <= w + m * free
    ensures count <= free + w / m
  {
    Quotient(w, m);
    assert m * (free + w / m) == m * free + m * (w / m);
    FactorOrder(m, count, free + w / m);
  }

  lemma DivideSum(a: real, b: real, c: real)
    requires c > 0.0
    ensures (a - b) / c == a / c - b / c
    ensures (a + b) / c == a / c + b / c
  {}

  lemma DivideOrder(a: real, b: real, c: real)
    requires c > 0.0 && a <= b
    ensures a / c <= b / c
  {}

  lemma ReciprocalOrder(x: real, y: real)
    requires 0.0 < x <= y
    ensures 1.0 / y <= 1.0 / x
  {
    var a, b := 1.0 / x, 1.0 / y;
    assert a * x == 1.0 && b * y == 1.0;
    if b > a {
      assert b * x > a * x;
      assert b * y >= b * x;
    }
  }

  lemma ReciprocalBound(x: real, n: real)
    requires x > 0.0 && x * n <= 1.0
    ensures n <= 1.0 / x
  {
    var a := 1.0 / x;
    assert a * x == 1.0;
    if n > a {
      assert n * x > a * x;
    }
  }

  lemma ReciprocalUpper(x: real, n: real)
    requires x > 0.0 && x * n >= 1.0
    ensures 1.0 / x <= n
  {
    var a := 1.0 / x;
    assert a * x == 1.0;
    if n < a {
      assert n * x < a * x;
    }
  }

  lemma StretchGrows(r: real, i: real, j: real)
    requires r >= 0.0 && 0.0 < i <= j
    ensures r / i * j >= r
  {
    var q := r / i;
    assert q * i == r;
    assert q * j >= q * i;
  }

  /** Measured in larger units, then counted in smaller ones. */
  lemma ScaledDown(x: real, i: real, m: real)
    requires x >= 0.0 && 0.0 < m <= i
    ensures m * (x / i) <= x
  {
    var q := x / i;
    assert q * i == x;
    assert m * q <= i * q;
    assert q * i == i * q;
  }

  lemma MultiplyDivide(q: real, j: real)
    requires j > 0.0
    ensures q * j / j == q
  {}

  lemma QuotientNear(q: real, i: real, d: real, e: real)
    requires i > 0.0 && q * i - e <= d <= q * i + e
    ensures q - e / i <= d / i <= q + e / i
  {
    MultiplyDivide(q, i);
    DivideSum(q * i, e, i);
    DivideOrder(q * i - e, d, i);
    DivideOrder(d, q * i + e, i);
  }

  lemma MultiplyOrder(a: real, b: real, c: real)
    requires c >= 0.0 && a <= b
    ensures a * c <= b * c
  {}

  lemma SplitProduct(unit: real, n: real, m: real)
    ensures unit * m == unit * n + unit * (m - n)
  {}

  /** Growing by at most one unit is paid for by using up one unit. */
  lemma UnitsOrder(unit: real, n: nat, m: nat, a: real, b: real)
    requires unit >= 0.0 && n <= m
    requires a <= b || (n < m && a <= b + unit)
    ensures a + unit * n as real <= b + unit * m as real
  {
    SplitProduct(unit, n as real, m as real);
    MultiplyOrder(0.0, (m - n) as real, unit);
    if n < m {
      MultiplyOrder(1.0, (m - n) as real, unit);
    }
  }

  lemma NonNegativeProduct(a: real, b: real)
    requires a >= 0.0 && b >= 0.0
    ensures a * b >= 0.0
  {}

  /** A share `r` of a quantity lies between zero and the quantity. */
  lemma ShareOf(d: real, r: real)
    requires 0.0 <= r <= 1.0 && 0.0 <= d
    ensures 0.0 <= r * d <= d
  {
    NonNegativeProduct(r, d);
    NonNegativeProduct(1.0 - r, d);
    assert d == r * d + (1.0 - r) * d;
  }

  lemma ConvexBounds(a: real, b: real, r: real, low: real, high: real)
    requires 0.0 <= r <= 1.0 && low <= a <= high && low <= b <= high
    ensures low <= (1.0 - r) * a + r * b <= high
  {
    NonNegativeProduct(1.0 - r, a - low);
    NonNegativeProduct(1.0 - r, high - a);
    NonNegativeProduct(r, b - low);
    NonNegativeProduct(r, high - b);
    assert (1.0 - r) * a + r * b == low + (1.0 - r) * (a - low) + r * (b - low);
    assert (1.0 - r) * a + r * b == high - (1.0 - r) * (high - a) - r * (high - b);
  }

  lemma ProductAtMostOne(a: real, b: real)
    requires 0.0 <= a <= 1.0 && 0.0 <= b <= 1.0
    ensures a * b <= 1.0
  {
    ShareOf(b, a);
  }

  lemma Regroup(a: real, b: real, c: real, d: real)
    ensures a * b * (c * d) == (a * c) * (b * d)
  {}

  lemma PositiveProduct(a: real, b: real)
    requires a > 0.0 && b > 0.0
    ensures a * b > 0.0
  {}

  function Power(q: real, n: nat): real {
    if n == 0 then 1.0 else q * Power(q, n - 1)
  }

  lemma FractionOf(q: real, p: real, r: real)
    requires 0.0 <= q <= 1.0 && 0.0 <= p <= 1.0 && r == q * p
    ensures 0.0 <= r <= 1.0
  {
    ShareOf(p, q);
  }

  lemma PowerStep(q: real, n: nat)
    requires 0.0 <= q <= 1.0 && n > 0 && 0.0 <= Power(q, n - 1) <= 1.0
    ensures 0.0 <= Power(q, n) <= 1.0
  {
    FractionOf(q, Power(q, n - 1), Power(q, n));
  }

  /** A fraction's powers stay fractions. */
  lemma {:induction false} PowerOfFraction(q: real, n: nat)
    requires 0.0 <= q <= 1.0
    ensures 0.0 <= Power(q, n) <= 1.0
  {
    if n == 0 {
    } else {
      PowerOfFraction(q, n - 1);
      PowerStep(q, n);
    }
  }

  /** This share of the distance from `v` is left. */
  predicate Keeps(before: real, after: real, v: real, share: real) {
    after - v == share * (before - v)
  }

  lemma ProductOfShares(q: real, p: real, d: real)
    ensures q * (p * d) == q * p * d
  {}

  lemma KeepsPower(start: real, before: real, after: real, v: real, q: real, n: nat)
    requires Keeps(start, before, v, Power(q, n)) && Keeps(before, after, v, q)
    ensures Keeps(start, after, v, Power(q, n + 1))
  {
    var p := Power(q, n);
    assert Power(q, n + 1) == q * p;
    ProductOfShares(q, p, start - v);
  }

  lemma KeepsFirst(start: real, once: real, after: real, v: real, q: real, n: nat)
    requires Keeps(start, once, v, q) && Keeps(once, after, v, Power(q, n))
    ensures Keeps(start, after, v, Power(q, n + 1))
  {
    var p := Power(q, n);
    assert Power(q, n + 1) == q * p;
    ProductOfShares(p, q, start - v);
    assert p * q == q * p;
  }

  lemma KeepsNothing(start: real, v: real, q: real)
    ensures Keeps(start, start, v, Power(q, 0))
  {}
}
