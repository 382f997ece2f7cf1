/**
 * Real-number helpers shared by the geometry kernel and the capture engine.
 * Kotlin `Float` is modelled as `real`; `sqrt` is an injected function value
 * whose defining property is `IsSqrt`.
 */
module RealMath {

  /** `sqrt` returns the non-negative square root of every non-negative real. */
  ghost predicate IsSqrt(sqrt: real -> real) {
    forall x :: IsRootAt(sqrt, x)
  }

  /**
   * The property of `sqrt` at one point. Kept as a separate predicate so that
   * proofs use it only where they name it, which keeps non-linear facts about
   * every `sqrt` application out of unrelated proofs.
   */
  ghost predicate IsRootAt(sqrt: real -> real, x: real) {
    0.0 <= x ==> 0.0 <= sqrt(x) && sqrt(x) * sqrt(x) == x
  }

  /**
   * Real multiplication as a named function. Facts about products are proved
   * once, below, over two distinct variables, and reach their uses through
   * ordinary function-call matching rather than non-linear arithmetic.
   */
  function Mul(a: real, b: real): real {
    a * b
  }

  lemma MulPositive(a: real, b: real)
    requires 0.0 < a && 0.0 < b
    ensures 0.0 < Mul(a, b)
  {
  }

  lemma MulNegatives(a: real, b: real)
    requires a < 0.0 && b < 0.0
    ensures 0.0 < Mul(a, b)
  {
  }

  function Square(x: real): real {
    Mul(x, x)
  }

  /** A non-zero real has a positive square. */
  lemma SquarePositive(x: real)
    requires x != 0.0
    ensures 0.0 < Square(x)
  {
    if x < 0.0 {
      MulNegatives(x, x);
    } else {
      MulPositive(x, x);
    }
  }

  lemma SquareNonNegative(x: real)
    ensures 0.0 <= Square(x)
  {
    if x != 0.0 {
      SquarePositive(x);
    }
  }

  function Abs(x: real): real {
    if x < 0.0 then -x else x
  }

  /** A non-negative real whose square is `x` is `sqrt(x)`. */
  lemma SqrtUnique(sqrt: real -> real, x: real, r: real)
    requires IsSqrt(sqrt)
    requires 0.0 <= r && r * r == x
    ensures sqrt(x) == r
  {
    var s := sqrt(x);
    assert IsRootAt(sqrt, x);
    assert 0.0 <= s && s * s == x;
    assert (s - r) * (s + r) == 0.0;
    if s + r == 0.0 {
      assert s == 0.0 && r == 0.0;
    } else {
      assert s - r == 0.0;
    }
  }

  /** Sum of a sequence of reals, left to right. */
  function Sum(xs: seq<real>): real {
    if xs == [] then 0.0 else Sum(xs[..|xs| - 1]) + xs[|xs| - 1]
  }

  /** Kotlin's `Iterable<Float>.average()` on a non-empty list. */
  function Mean(xs: seq<real>): real
    requires xs != []
  {
    Sum(xs) / (|xs| as real)
  }

  /** Bounds on the elements bound the sum. */
  lemma {:induction false} SumBounds(xs: seq<real>, lo: real, hi: real)
    requires forall i :: 0 <= i < |xs| ==> lo <= xs[i] <= hi
    ensures lo * (|xs| as real) <= Sum(xs) <= hi * (|xs| as real)
  {
    if xs != [] {
      SumBounds(xs[..|xs| - 1], lo, hi);
    }
  }

  /** The mean of a non-empty sequence lies between any lower and upper bound of its elements. */
  lemma MeanBounds(xs: seq<real>, lo: real, hi: real)
    requires xs != []
    requires forall i :: 0 <= i < |xs| ==> lo <= xs[i] <= hi
    ensures lo <= Mean(xs) <= hi
  {
    SumBounds(xs, lo, hi);
    var n := |xs| as real;
    assert lo * n <= Sum(xs) <= hi * n;
    assert Sum(xs) / n >= lo by {
      assert Sum(xs) / n * n == Sum(xs);
    }
    assert Sum(xs) / n <= hi by {
      assert Sum(xs) / n * n == Sum(xs);
    }
  }
}
