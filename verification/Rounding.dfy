/** JavaScript's `Math.round`, on exact reals: to the nearest integer, halves upward. */
module Rounding {

  function Round(x: real): int { (x + 0.5).Floor }

  lemma NearestInteger(x: real)
    ensures x - 0.5 < Round(x) as real <= x + 0.5
  {
  }

  lemma RoundOfInteger(n: int)
    ensures Round(n as real) == n
  {
  }

  lemma RoundIsMonotone(x: real, y: real)
    requires x <= y
    ensures Round(x) <= Round(y)
  {
  }

  /** Rounding commutes with adding an integer. */
  lemma RoundShifts(n: int, x: real)
    ensures Round(n as real + x) == n + Round(x)
  {
    NearestInteger(x);
    NearestInteger(n as real + x);
  }

  lemma FloorIs(x: real, n: int)
    requires n as real <= x < n as real + 1.0
    ensures x.Floor == n
  {
  }

  /** Halves go upward on both sides of 0, so the size of a rounded fall never exceeds the rounded size. */
  lemma RoundOfOpposite(x: real)
    requires x >= 0.0
    ensures 0 <= -Round(-x) <= Round(x) <= -Round(-x) + 1
    ensures Round(x) != -Round(-x) <==> x - x.Floor as real == 0.5
  {
    var n := x.Floor;
    var f := x - n as real;
    FloorIs(x + 0.5, if f < 0.5 then n else n + 1);
    FloorIs(-x + 0.5, if f <= 0.5 then -n else -n - 1);
  }
}
