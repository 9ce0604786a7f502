/** Angles in degrees, as real numbers.  The dial keeps its rotation
    unwrapped (any real value, several turns allowed) and folds it into
    [0, 360) wherever it needs a direction.  The source writes that fold as
    `((angle % 360) + 360) % 360`; on exact reals it equals
    `angle - 360 * floor(angle / 360)`, which is what `Normalize` computes. */
module Angles {

  /** Absolute value (`Math.abs`). */
  function Abs(x: real): (r: real)
    ensures r >= 0.0 && (r == x || r == -x)
  {
    if x < 0.0 then -x else x
  }

  /** The number of whole turns below `a`: floor(a / 360). */
  function Turns(a: real): int {
    (a / 360.0).Floor
  }

  /** The direction of `a` folded into [0, 360). */
  function Normalize(a: real): (n: real)
    ensures 0.0 <= n < 360.0
    ensures a == 360.0 * (Turns(a) as real) + n
  {
    a - 360.0 * (Turns(a) as real)
  }

  /** Floor is determined by the unit interval its argument lies in. */
  lemma FloorIs(x: real, m: int)
    requires m as real <= x < (m as real) + 1.0
    ensures x.Floor == m
  {
  }

  /** Adding whole turns adds to the turn count and leaves the direction alone. */
  lemma {:induction false} TurnsShift(a: real, k: int)
    ensures Turns(a + 360.0 * (k as real)) == Turns(a) + k
    ensures Normalize(a + 360.0 * (k as real)) == Normalize(a)
  {
    var t := Turns(a);
    assert (t as real) <= a / 360.0 < (t as real) + 1.0;
    var b := a + 360.0 * (k as real);
    assert b / 360.0 == a / 360.0 + (k as real);
    FloorIs(b / 360.0, t + k);
  }

  /** A value already in [0, 360) is its own direction. */
  lemma NormalizeInRange(a: real)
    requires 0.0 <= a < 360.0
    ensures Normalize(a) == a
    ensures Turns(a) == 0
  {
    FloorIs(a / 360.0, 0);
  }

  /** The direction of `a` is the only value in [0, 360) that differs from
      `a` by whole turns. */
  lemma {:induction false} NormalizeUnique(a: real, n: real, k: int)
    requires 0.0 <= n < 360.0
    requires a == n + 360.0 * (k as real)
    ensures Normalize(a) == n
    ensures Turns(a) == k
  {
    NormalizeInRange(n);
    TurnsShift(n, k);
  }
}
