/** Minima, and remainders by a variable divisor. */
module Integers {
  function Min(a: int, b: int): int {
    if a < b then a else b
  }

  function Laps(q: int, cap: nat): int {
    q * cap
  }

  lemma LapsAdd(p: int, k: int, cap: nat)
    ensures Laps(p + k, cap) == Laps(p, cap) + Laps(k, cap)
  {}

  lemma LapsGrow(k: int, cap: nat)
    ensures k >= 1 ==> Laps(k, cap) >= cap
  {}

  lemma LapsApart(p: int, q: int, cap: nat)
    ensures p < q ==> Laps(q, cap) - Laps(p, cap) >= cap
  {
    hide Laps;
    LapsAdd(p, q - p, cap);
    LapsGrow(q - p, cap);
  }

  lemma Euclid(n: nat, cap: nat)
    requires cap > 0
    ensures n == Laps(n / cap, cap) + n % cap && 0 <= n % cap < cap
  {}

  lemma NextLap(q: int, cap: nat)
    ensures Laps(q + 1, cap) == Laps(q, cap) + cap
  {}

  lemma Remainder(n: nat, q: int, r: nat, cap: nat)
    requires r < cap && n == Laps(q, cap) + r
    ensures n % cap == r
  {
    hide Laps;
    Euclid(n, cap);
    LapsApart(q, n / cap, cap);
    LapsApart(n / cap, q, cap);
  }

  lemma NoLaps(q: int, cap: nat)
    requires cap > 0
    ensures q <= 0 ==> Laps(q, cap) <= 0
    ensures Laps(0, cap) == 0
  {}
}
