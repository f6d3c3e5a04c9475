/** Python's `round`: ties go to the even neighbour.  Floats are modelled as exact reals. */
module Rounding {

  /** Python's `max` and `min` of two floats. */
  function Larger(x: real, y: real): real { if x < y then y else x }
  function Smaller(x: real, y: real): real { if y < x then y else x }

  /** The integer nearest to `x`; of two equally near ones, the even one.  The contract
      determines the result (see `HalfEvenUnique`). */
  function HalfEven(x: real): (n: int)
    ensures x - 0.5 <= n as real <= x + 0.5
    ensures x - 0.5 == n as real || n as real == x + 0.5 ==> n % 2 == 0
  {
    var below := x.Floor;
    var rest := x - below as real;
    if rest < 0.5 then below
    else if rest > 0.5 then below + 1
    else if below % 2 == 0 then below else below + 1
  }

  /** Two decimals, as in `round(value, 2)`. */
  function Round2(x: real): (r: real)
    ensures x - 0.005 <= r <= x + 0.005
    ensures OnGrid(r)
  {
    var n := HalfEven(x * 100.0);
    HundredthsOnGrid(n);
    n as real / 100.0
  }

  lemma HundredthsOnGrid(n: int)
    ensures OnGrid(n as real / 100.0)
  {
    assert n as real / 100.0 * 100.0 == n as real;
  }

  /** Three decimals, as in `round(value, 3)`. */
  function Round3(x: real): (r: real)
    ensures x - 0.0005 <= r <= x + 0.0005
  {
    HalfEven(x * 1000.0) as real / 1000.0
  }

  /** A value with at most two decimals. */
  predicate OnGrid(x: real) {
    x * 100.0 == (x * 100.0).Floor as real
  }

  /** The half-even rule has exactly one answer. */
  lemma HalfEvenUnique(x: real, n: int)
    requires x - 0.5 <= n as real <= x + 0.5
    requires x - 0.5 == n as real || n as real == x + 0.5 ==> n % 2 == 0
    ensures n == HalfEven(x)
  {
  }

  /** Rounding never swaps two values. */
  lemma HalfEvenMonotone(x: real, y: real)
    requires x <= y
    ensures HalfEven(x) <= HalfEven(y)
  {
  }

  lemma Round2Monotone(x: real, y: real)
    requires x <= y
    ensures Round2(x) <= Round2(y)
  {
    HalfEvenMonotone(x * 100.0, y * 100.0);
  }

  /** A value already on the grid is left alone. */
  lemma Round2OnGrid(x: real)
    requires OnGrid(x)
    ensures Round2(x) == x
  {
    HalfEvenUnique(x * 100.0, (x * 100.0).Floor);
  }

  /** Rounding stays between grid bounds. */
  lemma Round2Between(lo: real, x: real, hi: real)
    requires OnGrid(lo) && OnGrid(hi) && lo <= x <= hi
    ensures lo <= Round2(x) <= hi
  {
    Round2OnGrid(lo);
    Round2OnGrid(hi);
    Round2Monotone(lo, x);
    Round2Monotone(x, hi);
  }

  lemma GridSum(x: real, y: real)
    requires OnGrid(x) && OnGrid(y)
    ensures OnGrid(x + y) && OnGrid(x - y)
  {
    var a, b := (x * 100.0).Floor, (y * 100.0).Floor;
    WholeOnGrid(x + y, a + b);
    WholeOnGrid(x - y, a - b);
  }

  lemma WholeOnGrid(x: real, n: int)
    requires x * 100.0 == n as real
    ensures OnGrid(x)
  {
  }

  lemma IntOnGrid(n: int)
    ensures OnGrid(n as real)
  {
    assert n as real * 100.0 == (100 * n) as real;
    WholeOnGrid(n as real, 100 * n);
  }

  /** Rounding never passes a whole number. */
  lemma RoundedAtMost(x: real, n: int)
    ensures x <= n as real ==> Round2(x) <= n as real
    ensures x >= n as real ==> Round2(x) >= n as real
  {
    IntOnGrid(n);
    Round2OnGrid(n as real);
    if x <= n as real { Round2Monotone(x, n as real); } else { Round2Monotone(n as real, x); }
  }
}
