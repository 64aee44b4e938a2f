/** Squares and quotients of reals. */
module Reals {
  /** The conversion of a double to int, toward zero. */
  function Trunc(x: real): int {
    if x >= 0.0 then x.Floor else -(-x).Floor
  }

  lemma FloorOfRatio(x: real, y: real)
    requires y > 0.0
    ensures Times((x / y).Floor, y) <= x < Times((x / y).Floor + 1, y)
  {
    FloorBounds(x, y, x / y, (x / y).Floor);
  }

  lemma FloorBounds(x: real, y: real, q: real, n: int)
    requires y > 0.0 && x == q * y && n as real <= q < n as real + 1.0
    ensures Times(n, y) <= x < Times(n + 1, y)
  {
    Scaled(n as real, q, y);
    PositiveProduct(n as real + 1.0 - q, y, (n as real + 1.0 - q) * y);
  }

  lemma Signs(x: real, y: real)
    ensures x > 0.0 && y > 0.0 ==> x * y > 0.0
    ensures (x <= 0.0 && y >= 0.0) || (x >= 0.0 && y <= 0.0) ==> x * y <= 0.0
  {}

  lemma Nonzero(x: real, y: real)
    requires x != 0.0 && y != 0.0
    ensures x * y != 0.0
  {}

  lemma QuotientOfNegatives(y: real, x: real)
    requires x != 0.0
    ensures -y / -x == y / x
  {}

  lemma Quotient(x: real, y: real)
    requires y > 0.0
    ensures x > 0.0 <==> x / y > 0.0
  {
    assert x / y * y == x;
  }

  lemma UnitPositive(x: real)
    requires x > 0.0 && x * x == 1.0
    ensures x == 1.0
  {
    assert (x - 1.0) * (x + 1.0) == 0.0;
    if x != 1.0 {
      Nonzero(x - 1.0, x + 1.0);
    }
  }

  function Times(n: int, x: real): real {
    n as real * x
  }

  function Sqr(x: real): real {
    x * x
  }

  lemma SqrPositive(x: real)
    requires x != 0.0
    ensures Sqr(x) > 0.0
  {
    if x < 0.0 {
      SqrNegated(x);
      SqrOfPositive(-x);
    } else {
      SqrOfPositive(x);
    }
  }

  lemma SqrOfPositive(x: real)
    requires x > 0.0
    ensures Sqr(x) > 0.0
  {
    PositiveProduct(x, x, Sqr(x));
  }

  lemma PositiveProduct(x: real, y: real, z: real)
    requires x > 0.0 && y > 0.0 && z == x * y
    ensures z > 0.0
  {}

  lemma SqrNegated(x: real)
    ensures Sqr(-x) == Sqr(x)
  {}

  lemma SqrProduct(x: real, y: real)
    ensures Sqr(x * y) == Sqr(x) * Sqr(y)
  {}

  lemma SqrDifference(x: real, y: real, d: real, s: real)
    requires d == x - y && s == x + y
    ensures Sqr(x) - Sqr(y) == d * s
  {}

  lemma SqrRatio(x: real, h: real)
    requires h != 0.0
    ensures Sqr(h) != 0.0 && Sqr(x / h) == Sqr(x) / Sqr(h)
  {
    hide Sqr;
    var p := x / h;
    assert x == p * h;
    SqrPositive(h);
    SqrProduct(p, h);
    Undivided(Sqr(p), Sqr(h));
  }

  lemma Undivided(x: real, k: real)
    requires k != 0.0
    ensures x * k / k == x
  {}

  lemma Shares(x: real, y: real, k: real)
    requires k != 0.0
    ensures x / k + y / k == (x + y) / k
    ensures k / k == 1.0
  {}

  lemma UnitPair(x: real, y: real, h: real)
    requires h > 0.0 && Sqr(h) == Sqr(x) + Sqr(y)
    ensures Sqr(x / h) + Sqr(y / h) == 1.0
  {
    hide Sqr;
    SqrRatio(x, h);
    SqrRatio(y, h);
    Shares(Sqr(x), Sqr(y), Sqr(h));
  }

  lemma SqrNotNegative(x: real)
    ensures Sqr(x) >= 0.0
  {
    if x != 0.0 {
      SqrPositive(x);
    }
  }

  lemma Restored(x: real, k: real)
    requires k != 0.0
    ensures x / k * k == x
  {}

  lemma Unscaled(x: real, y: real, w: real)
    requires w != 0.0 && x == y * w
    ensures x / w == y
  {}

  lemma PositiveRatio(x: real, h: real)
    requires x > 0.0 && h > 0.0
    ensures x / h > 0.0
  {}

  lemma NegatedRatio(x: real, h: real)
    requires h != 0.0
    ensures -x / h == -(x / h)
  {}

  lemma Scaled(x: real, y: real, k: real)
    requires x <= y && k > 0.0
    ensures x * k <= y * k
  {}
}
