/** Rounding of money amounts to the nearest five cents, as `round_numbers`
    in src/lib.rs does it: scale by 20, round to an integer with Rust's
    `f64::round` (nearest, ties away from zero), scale back.
    Amounts are exact `real`s; IEEE-754 effects are not modelled. */
module Rounding {

  function Abs(x: real): real { if x < 0.0 then -x else x }

  /** Rust's `f64::round`: the nearest integer; a value exactly half-way
      between two integers goes to the one farther from zero. */
  function RoundHalfAway(y: real): (n: int)
    ensures Abs(n as real - y) <= 0.5
    ensures n as real - y == 0.5 ==> y > 0.0
    ensures y - n as real == 0.5 ==> y < 0.0
  {
    if y >= 0.0 then (y + 0.5).Floor else -((-y + 0.5).Floor)
  }

  /** The three properties above pin the integer down: nothing else has them. */
  lemma RoundHalfAwayUnique(y: real, m: int)
    requires Abs(m as real - y) <= 0.5
    requires m as real - y == 0.5 ==> y > 0.0
    requires y - m as real == 0.5 ==> y < 0.0
    ensures m == RoundHalfAway(y)
  {
    var n := RoundHalfAway(y);
    assert -1 <= m - n <= 1;
  }

  /** A whole number of five-cent steps: v is k / 20 for some integer k. */
  predicate IsTick(v: real) { (v * 20.0).Floor as real == v * 20.0 }

  /** `round_numbers`: the multiple of 0.05 nearest to x, ties away from zero. */
  function RoundNumbers(x: real): (r: real)
    ensures IsTick(r)
    ensures Abs(r - x) <= 0.025
    ensures r - x == 0.025 ==> x > 0.0
    ensures x - r == 0.025 ==> x < 0.0
    ensures x >= 0.0 ==> r >= 0.0
  {
    RoundHalfAway(x * 20.0) as real / 20.0
  }

  /** RoundNumbers is characterised by its contract: a multiple of 0.05 within
      0.025 of x, and on a tie the one away from zero, is RoundNumbers(x). */
  lemma RoundNumbersUnique(x: real, r: real)
    requires IsTick(r)
    requires Abs(r - x) <= 0.025
    requires r - x == 0.025 ==> x > 0.0
    requires x - r == 0.025 ==> x < 0.0
    ensures r == RoundNumbers(x)
  {
    var m := (r * 20.0).Floor;
    RoundHalfAwayUnique(x * 20.0, m);
  }

  /** No multiple of 0.05 is closer to x than RoundNumbers(x). */
  lemma RoundNumbersNearest(x: real, k: int)
    ensures Abs(RoundNumbers(x) - x) <= Abs(k as real / 20.0 - x)
  {
    var n := RoundHalfAway(x * 20.0);
    if k != n {
      assert Abs(k as real - x * 20.0) >= 0.5;
    }
  }

  /** `f64::round` never maps a larger value to a smaller integer. */
  lemma RoundHalfAwayMonotone(a: real, b: real)
    requires a <= b
    ensures RoundHalfAway(a) <= RoundHalfAway(b)
  {
    if 0.0 <= a {
      FloorMonotone(a + 0.5, b + 0.5);
    } else if b < 0.0 {
      FloorMonotone(-b + 0.5, -a + 0.5);
    }
  }

  lemma FloorMonotone(a: real, b: real)
    requires a <= b
    ensures a.Floor <= b.Floor
  {
    assert a.Floor as real <= a;
  }

  /** A larger amount never rounds to a smaller one. */
  lemma RoundNumbersMonotone(x: real, y: real)
    requires x <= y
    ensures RoundNumbers(x) <= RoundNumbers(y)
  {
    RoundHalfAwayMonotone(x * 20.0, y * 20.0);
  }

  /** Amounts already on the five-cent grid are left unchanged. */
  lemma RoundNumbersOfTick(v: real)
    requires IsTick(v)
    ensures RoundNumbers(v) == v
  {
    RoundNumbersUnique(v, v);
  }

  /** Rounding twice is rounding once. */
  lemma RoundNumbersIdempotent(x: real)
    ensures RoundNumbers(RoundNumbers(x)) == RoundNumbers(x)
  {
    RoundNumbersOfTick(RoundNumbers(x));
  }

  /** Half away from zero treats x and -x alike. */
  lemma RoundNumbersOdd(x: real)
    ensures RoundNumbers(-x) == -RoundNumbers(x)
  {
  }

  /** Sums of five-cent amounts stay on the grid (receipt totals). */
  lemma TickSum(a: real, b: real)
    requires IsTick(a) && IsTick(b)
    ensures IsTick(a + b)
  {
    var m, n := (a * 20.0).Floor, (b * 20.0).Floor;
    assert (a + b) * 20.0 == (m + n) as real;
  }
}
