/** The optional value used for Python's `None`-able fields. */
module Wrappers {
  datatype Option<+T> = None | Some(value: T)
}

/**
 * Real-number helpers that stand for the Python built-ins the source uses:
 * `min`, `max`, the `[0, 1]` clamp and `int()` on a float. The transcendental
 * functions `math.log2` and `math.pow(2.0, x)` have no Dafny counterpart; every
 * member that needs them takes them as function parameters (`log2`, `exp2`), and
 * the two laws below state the only facts about them that the proofs use.
 */
module Numerics {

  function Min(a: real, b: real): (r: real)
    ensures r <= a && r <= b
    ensures r == a || r == b
  {
    if a <= b then a else b
  }

  function Max(a: real, b: real): (r: real)
    ensures a <= r && b <= r
    ensures r == a || r == b
  {
    if a >= b then a else b
  }

  /** `max(0.0, min(1.0, x))`, the clamp every fatigue value goes through. */
  function Clamp01(x: real): (r: real)
    ensures 0.0 <= r <= 1.0
    ensures 0.0 <= x <= 1.0 ==> r == x
    ensures x < 0.0 ==> r == 0.0
    ensures x > 1.0 ==> r == 1.0
  {
    Max(0.0, Min(1.0, x))
  }

  /** Python's `int(x)` on a float: truncation toward zero. */
  function Trunc(x: real): (r: int)
    ensures 0.0 <= x ==> 0 <= r && r as real <= x < r as real + 1.0
    ensures x < 0.0 ==> r <= 0 && r as real - 1.0 < x <= r as real
  {
    if x >= 0.0 then x.Floor else -((-x).Floor)
  }

  /** What the proofs assume of `math.log2`: zero at 1, non-positive on (0, 1], positive above 1. */
  ghost predicate Log2Law(log2: real -> real)
  {
    && log2(1.0) == 0.0
    && (forall p: real :: 0.0 < p <= 1.0 ==> log2(p) <= 0.0)
    && (forall x: real :: 1.0 < x ==> 0.0 < log2(x))
  }

  /** What the proofs assume of `x => math.pow(2.0, x)`: strictly between 0 and 1 for negative x. */
  ghost predicate Exp2Law(exp2: real -> real)
  {
    forall x: real :: x < 0.0 ==> 0.0 < exp2(x) < 1.0
  }

  /** A product of a positive and a non-positive real is non-positive. */
  lemma MulPosNonpos(a: real, b: real)
    requires a > 0.0 && b <= 0.0
    ensures a * b <= 0.0
  {
  }

  lemma MulPos(x: real, y: real)
    requires x > 0.0 && y > 0.0
    ensures x * y > 0.0
  {
  }

  lemma MulNonneg(x: real, y: real)
    requires x >= 0.0 && y >= 0.0
    ensures x * y >= 0.0
  {
  }

  /** One weighted term of a fatigue formula: a non-negative weight times a value in [0, 1] lies between 0 and the weight. */
  function Weighted(w: real, c: real): (r: real)
    ensures w >= 0.0 && 0.0 <= c <= 1.0 ==> 0.0 <= r <= w
  {
    assert w >= 0.0 && 0.0 <= c <= 1.0 ==> 0.0 <= w * c <= w by {
      if w >= 0.0 && 0.0 <= c <= 1.0 {
        MulNonneg(w, c);
        MulNonneg(w, 1.0 - c);
      }
    }
    w * c
  }

  lemma SquareNonneg(x: real)
    ensures x * x >= 0.0
  {
    if x < 0.0 {
      MulNonneg(-x, -x);
    } else {
      MulNonneg(x, x);
    }
  }

  lemma DivSelf(m: real)
    requires m != 0.0
    ensures m / m == 1.0
  {
  }

  lemma DivSub(a: real, b: real, c: real)
    requires c != 0.0
    ensures (a - b) / c == a / c - b / c
  {
  }

  /** Where a quotient by a positive real falls relative to 0 and 1. */
  lemma RatioBounds(a: real, b: real)
    requires b > 0.0
    ensures a > 0.0 ==> a / b > 0.0
    ensures a >= 0.0 ==> a / b >= 0.0
    ensures a < b ==> a / b < 1.0
    ensures a >= b ==> a / b >= 1.0
  {
    var q := a / b;
    assert q * b == a;
    if q >= 1.0 {
      MulNonneg(q - 1.0, b);
      assert (q - 1.0) * b == q * b - b;
    } else {
      MulPos(1.0 - q, b);
      assert (1.0 - q) * b == b - q * b;
    }
  }
}
