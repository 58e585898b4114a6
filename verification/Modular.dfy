/** Sequence numbers: arithmetic modulo m on a circle of m numbers. */
module Modular {
  /** The remainder, 0 where the modulus has not been chosen yet.  Written with differences only, so
      that reasoning about sequence numbers stays linear; RemainderOf says that it is the remainder. */
  function Mod(x: int, m: int): (r: int)
    ensures m > 0 ==> 0 <= r < m
    decreases if x < 0 then m - x else x
  {
    if m <= 0 then 0
    else if x < 0 then Mod(x + m, m)
    else if x < m then x
    else Mod(x - m, m)
  }

  /** How many steps forward lead from a to b. */
  function Dist(a: int, b: int, m: int): (d: int)
    ensures m > 0 ==> 0 <= d < m
  {
    Mod(b - a, m)
  }

  lemma {:induction false} ModTurns(x: int, m: int, q: int)
    requires m > 0
    ensures Mod(x + q * m, m) == Mod(x, m)
    decreases if q < 0 then -q else q
  {
    if q > 0 {
      assert x + q * m == x + (q - 1) * m + m;
      ModTurns(x, m, q - 1);
      ModTurn(x + (q - 1) * m, m);
    } else if q < 0 {
      assert x + (q + 1) * m == x + q * m + m;
      ModTurns(x, m, q + 1);
      ModTurn(x + q * m, m);
    }
  }

  lemma ModTurn(x: int, m: int)
    requires m > 0
    ensures Mod(x + m, m) == Mod(x, m)
  {}

  /** Mod is the remainder of the program's % operator. */
  lemma RemainderOf(x: int, m: int)
    requires m > 0
    ensures Mod(x, m) == x % m
  {
    assert x == x % m + x / m * m;
    ModTurns(x % m, m, x / m);
  }

  lemma ModNear(x: int, m: int)
    requires 0 < m && -m <= x < 2 * m
    ensures Mod(x, m) == if x < 0 then x + m else if x < m then x else x - m
  {}

  lemma DistNear(a: int, b: int, m: int)
    requires 0 <= a < m && 0 <= b < m
    ensures Dist(a, b, m) == if a <= b then b - a else b - a + m
    ensures Dist(a, b, m) == 0 <==> a == b
  {
    ModNear(b - a, m);
  }

  /** Going d steps forward. */
  lemma DistAdd(a: int, d: int, m: int)
    requires 0 <= a < m && 0 <= d < m
    ensures Dist(a, Mod(a + d, m), m) == d
  {
    ModNear(a + d, m);
    DistNear(a, Mod(a + d, m), m);
  }

  lemma {:induction false} ModModAdd(x: int, d: int, m: int)
    requires m > 0
    ensures Mod(Mod(x, m) + d, m) == Mod(x + d, m)
    decreases if x < 0 then m - x else x
  {
    if x < 0 {
      ModModAdd(x + m, d, m);
      ModTurn(x + d, m);
    } else if x >= m {
      ModModAdd(x - m, d, m);
      ModTurn(x - m + d, m);
    }
  }

  /** Two numbers less than a full turn apart, seen modulo m. */
  lemma DistOfAbsolute(a: int, b: int, m: int)
    requires m > 0 && a <= b < a + m
    ensures Dist(Mod(a, m), Mod(b, m), m) == b - a
  {
    hide Mod;
    ModModAdd(a, b - a, m);
    assert a + (b - a) == b;
    DistAdd(Mod(a, m), b - a, m);
  }

  lemma SameResidue(a: int, b: int, m: int)
    requires m > 0 && -m < b - a < m && Mod(a, m) == Mod(b, m)
    ensures a == b
  {
    hide Mod, Dist;
    if a <= b {
      DistOfAbsolute(a, b, m);
      DistNear(Mod(a, m), Mod(a, m), m);
    } else {
      DistOfAbsolute(b, a, m);
      DistNear(Mod(a, m), Mod(a, m), m);
    }
  }
}
