/** Decimal quantities as reals, with the rounding used everywhere in risk scoring:
    half away from zero, to two or four places. */
module Decimals {
  /** The nearest integer, ties away from zero. */
  function HalfUp(x: real): int {
    if x >= 0.0 then (x + 0.5).Floor else -((-x + 0.5).Floor)
  }

  function Round2(x: real): real { HalfUp(x * 100.0) as real / 100.0 }

  function Round4(x: real): real { HalfUp(x * 10000.0) as real / 10000.0 }

  /** x has at most two decimal places. */
  ghost predicate IsHundredths(x: real) { x * 100.0 == (x * 100.0).Floor as real }

  lemma HalfUpMonotone(x: real, y: real)
    requires x <= y
    ensures HalfUp(x) <= HalfUp(y)
  {
  }

  lemma HalfUpNear(x: real)
    ensures -0.5 <= HalfUp(x) as real - x <= 0.5
    ensures x >= 0.0 ==> HalfUp(x) >= 0
  {
  }

  lemma HalfUpWhole(n: int)
    ensures HalfUp(n as real) == n
  {
  }

  lemma Round2Monotone(x: real, y: real)
    requires x <= y
    ensures Round2(x) <= Round2(y)
  {
    HalfUpMonotone(x * 100.0, y * 100.0);
  }

  lemma Round4Monotone(x: real, y: real)
    requires x <= y
    ensures Round4(x) <= Round4(y)
  {
    HalfUpMonotone(x * 10000.0, y * 10000.0);
  }

  /** Rounding to cents moves a value by at most half a cent and keeps its sign. */
  lemma Round2Near(x: real)
    ensures -0.005 <= Round2(x) - x <= 0.005
    ensures x >= 0.0 ==> Round2(x) >= 0.0
    ensures IsHundredths(Round2(x))
  {
    HalfUpNear(x * 100.0);
    assert Round2(x) * 100.0 == HalfUp(x * 100.0) as real;
  }

  lemma Round4Range(x: real, hi: int)
    requires 0.0 <= x <= hi as real
    ensures 0.0 <= Round4(x) <= hi as real
  {
    HalfUpMonotone(x * 10000.0, (hi * 10000) as real);
    HalfUpWhole(hi * 10000);
    HalfUpNear(x * 10000.0);
  }

  /** Rounding is idempotent. */
  lemma Round2Whole(x: real)
    requires IsHundredths(x)
    ensures Round2(x) == x
  {
    HalfUpWhole((x * 100.0).Floor);
  }

  lemma HundredthsAdd(x: real, y: real)
    requires IsHundredths(x) && IsHundredths(y)
    ensures IsHundredths(x + y)
  {
    assert (x + y) * 100.0 == ((x * 100.0).Floor + (y * 100.0).Floor) as real;
  }
}
