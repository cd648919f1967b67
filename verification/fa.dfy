/**
  The fractional-anisotropy pass (FASeq and FAColourSeq in fa.js): FA from
  the three eigenvalues of every voxel, clamped to 1, with the minimum and
  maximum stored value, and the colour variant FA * |v_i| on the principal
  direction. Math.sqrt is a parameter; numeric.norm2 is sqrt of the sum of
  squares.
 */
module Anisotropy {
  import opened Wrappers
  import opened Maths
  import opened Volumes
  import opened TensorLS
  import opened TensorSeq

  /** What the properties below assume of Math.sqrt, when they assume anything. */
  ghost predicate NonNegSqrt(sqrt: real -> real)
  {
    forall x :: 0.0 <= x ==> 0.0 <= sqrt(x)
  }

  // ---------------------------------------------------------------------
  // Per-voxel FA

  /** avgEigen: the mean of the eigenvalues. */
  function AvgEigen(lambda: seq<real>): (avg: real)
    requires |lambda| > 0
    ensures avg * |lambda| as real == Sum(lambda)
  {
    Sum(lambda) / |lambda| as real
  }

  /** varEigen: the squared deviation of each eigenvalue from the mean, in order. */
  function VarEigen(lambda: seq<real>): (v: seq<real>)
    requires |lambda| > 0
    ensures |v| == |lambda|
    ensures forall i :: 0 <= i < |v| ==>
      v[i] == (lambda[i] - AvgEigen(lambda)) * (lambda[i] - AvgEigen(lambda)) && 0.0 <= v[i]
  {
    var avg := AvgEigen(lambda);
    DeviationsNonNegative(lambda, avg);
    seq(|lambda|, i requires 0 <= i < |lambda| => (lambda[i] - avg) * (lambda[i] - avg))
  }

  lemma DeviationsNonNegative(lambda: seq<real>, avg: real)
    ensures forall i :: 0 <= i < |lambda| ==> 0.0 <= (lambda[i] - avg) * (lambda[i] - avg)
  {
    forall i | 0 <= i < |lambda|
      ensures 0.0 <= (lambda[i] - avg) * (lambda[i] - avg)
    {
      SquareNonNegative(lambda[i] - avg);
    }
  }

  /** numeric.norm2: the Euclidean norm. */
  function Norm2(sqrt: real -> real, lambda: seq<real>): real
  {
    sqrt(SumSquares(lambda))
  }

  /**
    getFAFromEigenValues: sqrt(3/2 * sum of squared deviations) / norm, or
    exactly 0 when the norm is not positive.
   */
  function GetFAFromEigenValues(sqrt: real -> real, lambda: Vec3): (fa: real)
    ensures Norm2(sqrt, lambda) <= 0.0 ==> fa == 0.0
    ensures 0.0 < Norm2(sqrt, lambda) ==> fa * Norm2(sqrt, lambda) == sqrt(1.5 * Sum(VarEigen(lambda)))
    ensures NonNegSqrt(sqrt) ==> 0.0 <= fa
  {
    var norm := Norm2(sqrt, lambda);
    if norm > 0.0 then
      NonNegativeSum(VarEigen(lambda));
      sqrt(1.5 * Sum(VarEigen(lambda))) / norm
    else
      0.0
  }

  lemma {:induction false} NonNegativeSum(s: seq<real>)
    requires forall i :: 0 <= i < |s| ==> 0.0 <= s[i]
    ensures 0.0 <= Sum(s)
  {
    if |s| > 0 {
      NonNegativeSum(s[1..]);
    }
  }

  /** Math.min(1, fa). */
  function Clamp(fa: real): (r: real)
    ensures r <= 1.0
    ensures r == fa || r == 1.0
    ensures fa <= 1.0 ==> r == fa
  {
    if fa < 1.0 then fa else 1.0
  }

  /** The value computeFA stores for one voxel. */
  function FAValue(sqrt: real -> real, lambda: Vec3): (r: real)
    ensures r <= 1.0
    ensures NonNegSqrt(sqrt) ==> 0.0 <= r
  {
    Clamp(GetFAFromEigenValues(sqrt, lambda))
  }

  /** Equal eigenvalues have no deviation from their mean. */
  lemma IsotropicNoVariance(lambda: Vec3)
    requires lambda[0] == lambda[1] == lambda[2]
    ensures Sum(VarEigen(lambda)) == 0.0
  {
    SumOfThree(lambda);
    var v := VarEigen(lambda);
    assert v[0] == 0.0 && v[1] == 0.0 && v[2] == 0.0;
    SumOfThree(v);
  }

  /**
    An isotropic voxel (all eigenvalues equal, including all zero) has FA 0,
    given only that sqrt(0) = 0.
   */
  lemma IsotropicHasZeroFA(sqrt: real -> real, lambda: Vec3)
    requires sqrt(0.0) == 0.0
    requires lambda[0] == lambda[1] == lambda[2]
    ensures FAValue(sqrt, lambda) == 0.0
  {
    IsotropicNoVariance(lambda);
    assert 1.5 * Sum(VarEigen(lambda)) == 0.0;
  }

  /** Math.sqrt taken as exact: the non-negative square root. */
  ghost predicate ExactSqrt(sqrt: real -> real)
  {
    forall x :: 0.0 <= x ==> 0.0 <= sqrt(x) && sqrt(x) * sqrt(x) == x
  }

  /** Non-negative values keep their order when squared. */
  lemma SquareMonotone(a: real, b: real)
    requires 0.0 <= a <= b
    ensures a * a <= b * b
  {
    MulNonNegative(b - a, b + a);
    assert (b - a) * (b + a) == b * b - a * a;
  }

  /**
    Without the clamp the ratio can exceed 1: eigenvalues (1, -1, 0) give
    sqrt(3) / sqrt(2). This is why computeFA stores min(1, FA).
   */
  lemma MixedSignsExceedOne(sqrt: real -> real)
    requires ExactSqrt(sqrt)
    ensures 1.0 < GetFAFromEigenValues(sqrt, [1.0, -1.0, 0.0])
    ensures FAValue(sqrt, [1.0, -1.0, 0.0]) == 1.0
  {
    var lambda: Vec3 := [1.0, -1.0, 0.0];
    SumOfThree(lambda);
    var v := VarEigen(lambda);
    assert v[0] == 1.0 && v[1] == 1.0 && v[2] == 0.0;
    SumOfThree(v);
    assert lambda[1..][1..][1..] == [];
    assert SumSquares(lambda) == 2.0;
    var a, b := sqrt(3.0), sqrt(2.0);
    assert a * a == 3.0 && b * b == 2.0 && 0.0 <= a && 0.0 < b;
    SquareOrder(a, b);
    var fa := GetFAFromEigenValues(sqrt, lambda);
    assert fa * b == a;
    assert (fa - 1.0) * b == a - b;
    PositiveFactor(fa - 1.0, b);
  }

  /** Of two non-negative values, the one with the larger square is larger. */
  lemma SquareOrder(a: real, b: real)
    requires 0.0 <= a && 0.0 <= b && b * b < a * a
    ensures b < a
  {
    if a <= b {
      SquareMonotone(a, b);
    }
  }

  lemma PositiveFactor(x: real, d: real)
    requires 0.0 < d && 0.0 < x * d
    ensures 0.0 < x
  {
    NonNegativeFactor(x, d);
  }

  // ---------------------------------------------------------------------
  // The pass over the volume

  /** Math.min / Math.max running values, starting from Infinity / -Infinity. */
  datatype Extended = NegInfinity | Finite(value: real) | PosInfinity

  /** min = Math.min(faValue, min). */
  function MinWith(a: real, m: Extended): (r: Extended)
    ensures r.Finite? ==> r.value <= a
    ensures m.Finite? ==> r.Finite? && r.value <= m.value
    ensures m.PosInfinity? ==> r == Finite(a)
    ensures r == Finite(a) || r == m
  {
    match m
    case PosInfinity => Finite(a)
    case NegInfinity => NegInfinity
    case Finite(v) => if a < v then Finite(a) else Finite(v)
  }

  /** max = Math.max(faValue, max). */
  function MaxWith(a: real, m: Extended): (r: Extended)
    ensures r.Finite? ==> a <= r.value
    ensures m.Finite? ==> r.Finite? && m.value <= r.value
    ensures m.NegInfinity? ==> r == Finite(a)
    ensures r == Finite(a) || r == m
  {
    match m
    case NegInfinity => Finite(a)
    case PosInfinity => PosInfinity
    case Finite(v) => if a > v then Finite(a) else Finite(v)
  }

  /** The result object of computeFA (and of FAColourSeq.run, with colour values). */
  datatype FAResult<V> = FAResult(FA: Volume<V>, min: Extended, max: Extended, eigenValues: Volume<Vec3>)

  /** The FA volume the pass stores: FAValue at every voxel of the grid. */
  function FAVolume(sqrt: real -> real, ev: Volume<Vec3>): (r: Volume<real>)
    ensures r.dims == ev.dims && Filled(r) && Confined(r)
    ensures forall p :: InRange(ev.dims, p) ==> r.cells[p] == FAValue(sqrt, ValueAt(ev, p, ZeroVec3()))
  {
    Volume(ev.dims, map p | p in Range(ev.dims) :: FAValue(sqrt, ValueAt(ev, p, ZeroVec3())))
  }

  /**
    min and max are the least and greatest stored values; for an empty grid
    they keep their initial Infinity and -Infinity.
   */
  ghost predicate IsExtrema(v: Volume<real>, min: Extended, max: Extended)
    requires Filled(v)
  {
    if IsEmptyGrid(v.dims) then min == PosInfinity && max == NegInfinity
    else
      && min.Finite? && max.Finite?
      && (exists p :: InRange(v.dims, p) && v.cells[p] == min.value)
      && (exists p :: InRange(v.dims, p) && v.cells[p] == max.value)
      && (forall p :: InRange(v.dims, p) ==> min.value <= v.cells[p] <= max.value)
  }

  /** The extrema of a volume are determined by it, and min <= max when it is not empty. */
  lemma ExtremaUnique(v: Volume<real>, min: Extended, max: Extended, min': Extended, max': Extended)
    requires Filled(v) && IsExtrema(v, min, max) && IsExtrema(v, min', max')
    ensures min == min' && max == max'
    ensures !IsEmptyGrid(v.dims) ==> min.value <= max.value
  {
    if !IsEmptyGrid(v.dims) {
      var p :| InRange(v.dims, p) && v.cells[p] == min.value;
      var p' :| InRange(v.dims, p') && v.cells[p'] == min'.value;
      var q :| InRange(v.dims, q) && v.cells[q] == max.value;
      var q' :| InRange(v.dims, q') && v.cells[q'] == max'.value;
      assert min.value <= v.cells[p'] && min'.value <= v.cells[p];
      assert v.cells[q'] <= max.value && v.cells[q] <= max'.value;
    }
  }

  /** The loop state of computeFA. */
  datatype Scan = Scan(FA: Volume<real>, min: Extended, max: Extended)

  /** Voxels before the cursor hold their FA value; the others are not written yet. */
  ghost predicate Stored(sqrt: real -> real, ev: Volume<Vec3>, F: Volume<real>, x: int, y: int, z: int)
  {
    && F.dims == ev.dims && Confined(F)
    && (forall p :: InRange(ev.dims, p) && Visited(p, x, y, z) ==>
          p in F.cells && F.cells[p] == FAValue(sqrt, ValueAt(ev, p, ZeroVec3())))
    && (forall p :: InRange(ev.dims, p) && !Visited(p, x, y, z) ==> p !in F.cells)
  }

  /**
    min and max are Infinity and -Infinity while nothing is written, and
    afterwards written values that bound every written value.
   */
  ghost predicate Bounded(F: Volume<real>, min: Extended, max: Extended)
  {
    if F.cells == map[] then min == PosInfinity && max == NegInfinity
    else
      && min.Finite? && max.Finite?
      && (forall p :: p in F.cells ==> min.value <= F.cells[p] <= max.value)
      && (exists p :: p in F.cells && F.cells[p] == min.value)
      && (exists p :: p in F.cells && F.cells[p] == max.value)
  }

  ghost predicate ScannedBefore(sqrt: real -> real, ev: Volume<Vec3>, s: Scan, x: int, y: int, z: int)
  {
    Stored(sqrt, ev, s.FA, x, y, z) && Bounded(s.FA, s.min, s.max)
  }

  /** One voxel of computeFA: store the clamped value and update min and max. */
  function VisitVoxel(sqrt: real -> real, ev: Volume<Vec3>, s: Scan, p: Voxel): Scan
  {
    var fa := FAValue(sqrt, ValueAt(ev, p, ZeroVec3()));
    Scan(Set(s.FA, p, fa), MinWith(fa, s.min), MaxWith(fa, s.max))
  }

  /** Writing a fresh voxel and folding its value into min and max keeps them the extrema. */
  lemma BoundedStep(F: Volume<real>, min: Extended, max: Extended, p: Voxel, fa: real)
    requires Bounded(F, min, max) && p !in F.cells
    ensures Bounded(Set(F, p, fa), MinWith(fa, min), MaxWith(fa, max))
  {
    var F' := Set(F, p, fa);
    assert p in F'.cells;
    var min', max' := MinWith(fa, min), MaxWith(fa, max);
    if F.cells == map[] {
      assert min' == Finite(fa) && max' == Finite(fa);
      assert F'.cells[p] == fa;
    } else {
      var q :| q in F.cells && F.cells[q] == min.value;
      var r :| r in F.cells && F.cells[r] == max.value;
      assert F'.cells[p] == fa && F'.cells[q] == min.value && F'.cells[r] == max.value;
      assert min' == Finite(fa) || min' == min;
      assert max' == Finite(fa) || max' == max;
    }
  }

  lemma StoredStep(sqrt: real -> real, ev: Volume<Vec3>, F: Volume<real>, x: int, y: int, z: int)
    requires InRange(ev.dims, Voxel(x, y, z))
    requires Stored(sqrt, ev, F, x, y, z)
    ensures Voxel(x, y, z) !in F.cells
    ensures Stored(sqrt, ev, Set(F, Voxel(x, y, z), FAValue(sqrt, ValueAt(ev, Voxel(x, y, z), ZeroVec3()))), x, y, z + 1)
  {
    assert !Visited(Voxel(x, y, z), x, y, z);
  }

  lemma StepFA(sqrt: real -> real, ev: Volume<Vec3>, s: Scan, x: int, y: int, z: int)
    requires InRange(ev.dims, Voxel(x, y, z))
    requires ScannedBefore(sqrt, ev, s, x, y, z)
    ensures ScannedBefore(sqrt, ev, VisitVoxel(sqrt, ev, s, Voxel(x, y, z)), x, y, z + 1)
  {
    var p := Voxel(x, y, z);
    StoredStep(sqrt, ev, s.FA, x, y, z);
    BoundedStep(s.FA, s.min, s.max, p, FAValue(sqrt, ValueAt(ev, p, ZeroVec3())));
  }

  lemma EndOfRowFA(sqrt: real -> real, ev: Volume<Vec3>, s: Scan, x: int, y: int)
    requires ScannedBefore(sqrt, ev, s, x, y, ev.dims.dimZ)
    ensures ScannedBefore(sqrt, ev, s, x, y + 1, 0)
  {
    forall q | InRange(ev.dims, q)
      ensures Visited(q, x, y, ev.dims.dimZ) == Visited(q, x, y + 1, 0)
    {
    }
  }

  lemma EndOfSliceFA(sqrt: real -> real, ev: Volume<Vec3>, s: Scan, x: int)
    requires ScannedBefore(sqrt, ev, s, x, ev.dims.dimY, 0)
    ensures ScannedBefore(sqrt, ev, s, x + 1, 0, 0)
  {
    forall q | InRange(ev.dims, q)
      ensures Visited(q, x, ev.dims.dimY, 0) == Visited(q, x + 1, 0, 0)
    {
    }
  }

  /** A finished scan has stored the FA volume and its extrema. */
  lemma ScanComplete(sqrt: real -> real, ev: Volume<Vec3>, s: Scan)
    requires ScannedBefore(sqrt, ev, s, ev.dims.dimX, 0, 0)
    ensures s.FA == FAVolume(sqrt, ev)
    ensures IsExtrema(FAVolume(sqrt, ev), s.min, s.max)
  {
    var v := FAVolume(sqrt, ev);
    assert forall p :: InRange(ev.dims, p) ==> Visited(p, ev.dims.dimX, 0, 0);
    assert s.FA.cells.Keys == v.cells.Keys;
    assert s.FA.cells == v.cells;
    if !IsEmptyGrid(ev.dims) {
      assert Voxel(0, 0, 0) in v.cells;
    } else {
      assert v.cells.Keys == {};
    }
  }

  method ComputeFARow(sqrt: real -> real, ev: Volume<Vec3>, s0: Scan, x: int, y: int) returns (s: Scan)
    requires 0 <= x < ev.dims.dimX && 0 <= y < ev.dims.dimY
    requires ScannedBefore(sqrt, ev, s0, x, y, 0)
    ensures ScannedBefore(sqrt, ev, s, x, y + 1, 0)
  {
    s := s0;
    var z := 0;
    while z < ev.dims.dimZ
      invariant 0 <= z <= ev.dims.dimZ
      invariant ScannedBefore(sqrt, ev, s, x, y, z)
    {
      StepFA(sqrt, ev, s, x, y, z);
      s := VisitVoxel(sqrt, ev, s, Voxel(x, y, z));
      z := z + 1;
    }
    EndOfRowFA(sqrt, ev, s, x, y);
  }

  method ComputeFASlice(sqrt: real -> real, ev: Volume<Vec3>, s0: Scan, x: int) returns (s: Scan)
    requires 0 <= x < ev.dims.dimX
    requires ScannedBefore(sqrt, ev, s0, x, 0, 0)
    ensures ScannedBefore(sqrt, ev, s, x + 1, 0, 0)
  {
    s := s0;
    var y := 0;
    while y < ev.dims.dimY
      invariant 0 <= y <= ev.dims.dimY
      invariant ScannedBefore(sqrt, ev, s, x, y, 0)
    {
      s := ComputeFARow(sqrt, ev, s, x, y);
      y := y + 1;
    }
    EndOfSliceFA(sqrt, ev, s, x);
  }

  /**
    computeFA: every voxel holds min(1, FA of its eigenvalues), min and max
    are the extrema of the stored values, the eigenvalue volume is returned
    as given, and one progress value is emitted per slice.
   */
  method ComputeFA(sqrt: real -> real, ev: Volume<Vec3>) returns (res: FAResult<real>, progress: seq<int>)
    ensures res.FA == FAVolume(sqrt, ev)
    ensures forall p :: InRange(ev.dims, p) ==> res.FA.cells[p] <= 1.0
    ensures IsExtrema(res.FA, res.min, res.max)
    ensures res.eigenValues == ev
    ensures IsSliceProgress(progress, ev.dims.dimX)
    ensures forall i, j :: 0 <= i <= j < |progress| ==> progress[i] <= progress[j]
    ensures ev.dims.dimX > 0 ==> progress[|progress| - 1] == 100
  {
    var s := Scan(Create(ev.dims), PosInfinity, NegInfinity);
    progress := [];
    var x := 0;
    while x < ev.dims.dimX
      invariant 0 <= x <= ev.dims.dimX
      invariant ScannedBefore(sqrt, ev, s, x, 0, 0)
      invariant |progress| == x
      invariant forall i :: 0 <= i < x ==> progress[i] == SliceProgress(i, ev.dims.dimX)
    {
      s := ComputeFASlice(sqrt, ev, s, x);
      progress := progress + [SliceProgress(x, ev.dims.dimX)];
      x := x + 1;
    }
    ScanComplete(sqrt, ev, s);
    SliceProgressMonotone(progress, ev.dims.dimX);
    res := FAResult(s.FA, s.min, s.max, ev);
  }

  /** Every stored FA value lies in [0, 1] when sqrt is never negative. */
  lemma FAInUnitInterval(sqrt: real -> real, ev: Volume<Vec3>)
    requires NonNegSqrt(sqrt)
    ensures forall p :: InRange(ev.dims, p) ==> 0.0 <= FAVolume(sqrt, ev).cells[p] <= 1.0
  {
  }

  /**
    A voxel with no stored eigenvalues reads [0, 0, 0]: its norm is 0 and its
    FA is exactly 0, given only that sqrt(0) = 0.
   */
  lemma UnwrittenVoxelHasZeroFA(sqrt: real -> real, ev: Volume<Vec3>, p: Voxel)
    requires sqrt(0.0) == 0.0
    requires InRange(ev.dims, p) && p !in ev.cells
    ensures FAVolume(sqrt, ev).cells[p] == 0.0
  {
    IsotropicHasZeroFA(sqrt, ZeroVec3());
  }

  /**
    FA of the estimator's output: every voxel the estimator does not fit
    (masked out, below the threshold, a zero signal) has FA 0.
   */
  lemma UnfittedVoxelHasZeroFA(sqrt: real -> real, k: Numeric, input: Input, out: Estimation, p: Voxel)
    requires sqrt(0.0) == 0.0
    requires input.Valid() && Shaped(out, input.Dims())
    requires forall q :: InRange(input.Dims(), q) ==> Reflects(k, input, out, q)
    requires InRange(input.Dims(), p) && !Passes(input, p)
    ensures FAVolume(sqrt, out.eigenValues).cells[p] == 0.0
  {
    assert Reflects(k, input, out, p);
    assert EstimateVoxel(k, input, DesignMatrix(input.bVectors), p).None?;
    UnwrittenVoxelHasZeroFA(sqrt, out.eigenValues, p);
  }

  // ---------------------------------------------------------------------
  // Colour variant

  /** [FA |v0|, FA |v1|, FA |v2|]. */
  function Colour(fa: real, v: Vec3): (c: Vec3)
    ensures forall i :: 0 <= i < 3 ==> c[i] == fa * Abs(v[i])
  {
    [fa * Abs(v[0]), fa * Abs(v[1]), fa * Abs(v[2])]
  }

  function Abs(a: real): (r: real)
    ensures 0.0 <= r && (r == a || r == -a)
  {
    if a < 0.0 then -a else a
  }

  /**
    computeFAColour: a colour volume on the grid of FA, holding at every
    voxel FA times the absolute components of the principal direction there.
   */
  function ComputeFAColour(FA: Volume<real>, maxVectors: Volume<Vec3>): (r: Volume<Vec3>)
    ensures r.dims == FA.dims && Filled(r) && Confined(r)
    ensures forall p :: InRange(FA.dims, p) ==>
      r.cells[p] == Colour(ValueAt(FA, p, 0.0), ValueAt(maxVectors, p, ZeroVec3()))
  {
    Volume(FA.dims, map p | p in Range(FA.dims) :: Colour(ValueAt(FA, p, 0.0), ValueAt(maxVectors, p, ZeroVec3())))
  }

  /** A channel is at most the FA value when the direction's components are at most 1 in size. */
  lemma ColourWithinFA(fa: real, v: Vec3)
    requires 0.0 <= fa
    requires forall i :: 0 <= i < 3 ==> -1.0 <= v[i] <= 1.0
    ensures forall i :: 0 <= i < 3 ==> 0.0 <= Colour(fa, v)[i] <= fa
  {
    forall i | 0 <= i < 3 ensures 0.0 <= Colour(fa, v)[i] <= fa {
      var a := Abs(v[i]);
      assert Colour(fa, v)[i] == fa * a;
      MulAtMost(fa, a);
    }
  }

  /**
    FAColourSeq.run: computeFA, then the FA field replaced by the colour
    volume; min, max and eigenValues are those of computeFA.
   */
  method FAColourRun(sqrt: real -> real, ev: Volume<Vec3>, maxVectors: Volume<Vec3>)
    returns (res: FAResult<Vec3>, progress: seq<int>)
    ensures res.FA == ComputeFAColour(FAVolume(sqrt, ev), maxVectors)
    ensures IsExtrema(FAVolume(sqrt, ev), res.min, res.max)
    ensures res.eigenValues == ev
    ensures IsSliceProgress(progress, ev.dims.dimX)
  {
    var resultFA;
    resultFA, progress := ComputeFA(sqrt, ev);
    var colour := ComputeFAColour(resultFA.FA, maxVectors);
    res := FAResult(colour, resultFA.min, resultFA.max, resultFA.eigenValues);
  }
}
