/**
  Exact real arithmetic shared by the tensor estimator and the anisotropy
  pass: fixed-size vectors, sums, dot products and the rounding rule of
  JavaScript's Math.round.
 */
module Maths {

  /** A 3-component vector (gradient direction, eigenvalues, eigenvector). */
  type Vec3 = v: seq<real> | |v| == 3 witness [0.0, 0.0, 0.0]

  /** A 3x3 matrix stored row by row. */
  type Mat3 = m: seq<Vec3> | |m| == 3 witness ZeroMat3()

  function ZeroVec3(): Vec3 { [0.0, 0.0, 0.0] }

  function ZeroMat3(): seq<Vec3> { [ZeroVec3(), ZeroVec3(), ZeroVec3()] }

  /** The six unique coefficients of a symmetric tensor. */
  type Coefs = c: seq<real> | |c| == 6 witness [0.0, 0.0, 0.0, 0.0, 0.0, 0.0]

  /** Math.round: halves round towards positive infinity. */
  function Round(r: real): int
  {
    (r + 0.5).Floor
  }

  lemma RoundMonotone(r: real, s: real)
    requires r <= s
    ensures Round(r) <= Round(s)
  {
  }

  /** Sum of a vector (numeric.sum, and the accumulation loops of the source). */
  function Sum(s: seq<real>): real
  {
    if |s| == 0 then 0.0 else s[0] + Sum(s[1..])
  }

  /** The sum of a three-component vector, unrolled. */
  lemma SumOfThree(v: Vec3)
    ensures Sum(v) == v[0] + v[1] + v[2]
  {
    var t := v[1..];
    var u := t[1..];
    assert u[1..] == [];
    assert Sum(u) == v[2];
    assert Sum(t) == v[1] + Sum(u);
  }

  lemma MulNonNegative(a: real, b: real)
    requires 0.0 <= a && 0.0 <= b
    ensures 0.0 <= a * b
  {
  }

  /** Scaling by a factor in [0, 1] does not increase a non-negative value. */
  lemma MulAtMost(a: real, b: real)
    requires 0.0 <= a && 0.0 <= b <= 1.0
    ensures 0.0 <= a * b <= a
  {
    MulNonNegative(a, b);
    MulNonNegative(a, 1.0 - b);
    assert a * (1.0 - b) == a - a * b;
  }

  lemma NonNegativeFactor(x: real, d: real)
    requires 0.0 < d && 0.0 <= x * d
    ensures 0.0 <= x
  {
  }

  /** Division by a positive number preserves order. */
  lemma DivMonotone(a: real, b: real, d: real)
    requires a <= b && 0.0 < d
    ensures a / d <= b / d
  {
    var q, r := a / d, b / d;
    assert q * d == a && r * d == b;
    assert (r - q) * d == b - a;
    NonNegativeFactor(r - q, d);
  }

  lemma DivSelf(d: real)
    requires 0.0 < d
    ensures d / d == 1.0
  {
  }

  lemma SquareNonNegative(x: real)
    ensures 0.0 <= x * x
  {
    if x < 0.0 {
      MulNonNegative(-x, -x);
      assert (-x) * (-x) == x * x;
    } else {
      MulNonNegative(x, x);
    }
  }

  function SumSquares(s: seq<real>): real
  {
    if |s| == 0 then 0.0 else s[0] * s[0] + SumSquares(s[1..])
  }

  /** Replacing one entry changes the sum by exactly the difference. */
  lemma {:induction false} SumUpdate(s: seq<real>, i: int, v: real)
    requires 0 <= i < |s|
    ensures Sum(s[i := v]) == Sum(s) - s[i] + v
  {
    if i > 0 {
      assert s[i := v][1..] == s[1..][i - 1 := v];
      SumUpdate(s[1..], i - 1, v);
    } else {
      assert s[i := v][1..] == s[1..];
    }
  }

  /** A sum of entries that each lie in [lo, hi] lies in [|s| lo, |s| hi]. */
  lemma {:induction false} SumBounds(s: seq<real>, lo: real, hi: real)
    requires forall i :: 0 <= i < |s| ==> lo <= s[i] <= hi
    ensures |s| as real * lo <= Sum(s) <= |s| as real * hi
  {
    if |s| > 0 {
      SumBounds(s[1..], lo, hi);
    }
  }
}
