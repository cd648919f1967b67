/**
  Per-voxel log-linear least-squares estimation of the diffusion tensor
  (TensorEstimationSeqLS in tensor_estimation_ls.js): the design matrix,
  signal extraction, the coefficient-to-tensor layout, the voxel gating rule
  and the choice of the principal eigenvector.

  The numerical kernels of the numeric library are parameters of the model
  (datatype Numeric): nothing is assumed about them beyond their types.
 */
module TensorLS {
  import opened Wrappers
  import opened Maths
  import opened Volumes

  type Matrix = seq<seq<real>>

  /** Result of numeric.eig on a 3x3 tensor (real parts: lambda.x and E.x). */
  datatype Eigen = Eigen(lambda: Vec3, E: Mat3)

  /**
    The numeric kernels the estimator calls.
    - log: numeric.log, applied entry by entry;
    - div: floating-point division (numeric.div, and the scalar -1 / b1);
    - solve: the least-squares product inv(Bt B) Bt Y, built from
      numeric.transpose, numeric.dot and numeric.inv, giving six coefficients;
    - eig: numeric.eig, None when it throws.
   */
  datatype Numeric = Numeric(
    log: real -> real,
    div: (real, real) -> real,
    solve: (Matrix, seq<real>) -> Coefs,
    eig: Mat3 -> Option<Eigen>)

  /**
    The data a sequential estimator is built with: the diffusion-weighted
    volumes (volume 0 is the b0 reference), the optional mask, the b-values,
    the gradient directions and the intensity threshold.
   */
  datatype Input = Input(
    volumes: seq<Volume<real>>,
    mask: Option<Volume<bool>>,
    bValues: seq<real>,
    bVectors: seq<Vec3>,
    threshold: real)
  {
    /** Volumes share the dimensions of volume 0 and hold a value at every voxel. */
    ghost predicate Valid()
    {
      && |volumes| >= 1
      && |bValues| >= 2
      && (forall i :: 0 <= i < |volumes| ==> volumes[i].dims == volumes[0].dims && Filled(volumes[i]))
      && (mask.Some? ==> mask.value.dims == volumes[0].dims && Filled(mask.value))
    }

    function Dims(): Dims
      requires |volumes| >= 1
    {
      volumes[0].dims
    }
  }

  // ---------------------------------------------------------------------
  // Design matrix

  /** Row of B for gradient g: [g0^2, g1^2, g2^2, 2 g0 g1, 2 g0 g2, 2 g1 g2]. */
  function DesignRow(g: Vec3): Coefs
  {
    [g[0] * g[0], g[1] * g[1], g[2] * g[2], 2.0 * g[0] * g[1], 2.0 * g[0] * g[2], 2.0 * g[1] * g[2]]
  }

  /** B(bVectors): one row per weighted direction, i.e. for bVectors[1..]. */
  function DesignMatrix(bVectors: seq<Vec3>): (B: seq<Coefs>)
    ensures |B| == if |bVectors| == 0 then 0 else |bVectors| - 1
    ensures forall i :: 0 <= i < |B| ==> B[i] == DesignRow(bVectors[i + 1])
    ensures forall i :: 0 <= i < |B| ==> 0.0 <= B[i][0] && 0.0 <= B[i][1] && 0.0 <= B[i][2]
  {
    if |bVectors| == 0 then []
    else seq(|bVectors| - 1, i requires 0 <= i < |bVectors| - 1 => DesignRow(bVectors[i + 1]))
  }

  // ---------------------------------------------------------------------
  // Coefficients and tensors

  ghost predicate Symmetric(D: Mat3)
  {
    forall i, j :: 0 <= i < 3 && 0 <= j < 3 ==> D[i][j] == D[j][i]
  }

  /** A row of B times a coefficient vector (numeric.dot of a row with X). */
  function RowDot(r: Coefs, c: Coefs): real
  {
    r[0] * c[0] + r[1] * c[1] + r[2] * c[2] + r[3] * c[3] + r[4] * c[4] + r[5] * c[5]
  }

  /** The quadratic form g^T D g: the diffusion D measures along direction g. */
  function QuadraticForm(g: Vec3, D: Mat3): real
  {
    g[0] * (D[0][0] * g[0] + D[0][1] * g[1] + D[0][2] * g[2])
    + g[1] * (D[1][0] * g[0] + D[1][1] * g[1] + D[1][2] * g[2])
    + g[2] * (D[2][0] * g[0] + D[2][1] * g[1] + D[2][2] * g[2])
  }

  /**
    coefToTensor as written: diagonal entries direct, off-diagonal entries
    halved. Paired with the doubled off-diagonal columns of B this halves the
    off-diagonal part of the fitted tensor (see HalvedLayoutMismatch).
   */
  function CoefToTensor(c: Coefs): (D: Mat3)
    ensures Symmetric(D)
    ensures D[0][0] == c[0] && D[1][1] == c[1] && D[2][2] == c[2]
    ensures 2.0 * D[0][1] == c[3] && 2.0 * D[0][2] == c[4] && 2.0 * D[1][2] == c[5]
  {
    [[c[0], c[3] / 2.0, c[4] / 2.0],
     [c[3] / 2.0, c[1], c[5] / 2.0],
     [c[4] / 2.0, c[5] / 2.0, c[2]]]
  }

  /**
    With the halving, a row of B applied to the coefficients is not the
    diffusion along that row's gradient: for g = (1, 1, 0) and a pure xy
    coefficient the design row predicts 2 while the tensor gives 1.
   */
  lemma HalvedLayoutMismatch()
    ensures var g: Vec3 := [1.0, 1.0, 0.0];
            var c: Coefs := [0.0, 0.0, 0.0, 1.0, 0.0, 0.0];
            RowDot(DesignRow(g), c) == 2.0 && QuadraticForm(g, CoefToTensor(c)) == 1.0
  {
  }

  /**
    The tensor layout that matches the rows of B: the off-diagonal entries are
    the fitted coefficients themselves. This is the layout the estimator in
    this model uses.
   */
  function CoefToTensorCorrected(c: Coefs): (D: Mat3)
    ensures Symmetric(D)
  {
    [[c[0], c[3], c[4]],
     [c[3], c[1], c[5]],
     [c[4], c[5], c[2]]]
  }

  /** The six unique entries of a symmetric tensor, in the column order of B. */
  function TensorToCoef(D: Mat3): Coefs
  {
    [D[0][0], D[1][1], D[2][2], D[0][1], D[0][2], D[1][2]]
  }

  lemma CoefTensorRoundTrip(c: Coefs)
    ensures TensorToCoef(CoefToTensorCorrected(c)) == c
  {
  }

  /** Every symmetric tensor is the image of its own unique entries. */
  lemma TensorCoefRoundTrip(D: Mat3)
    requires Symmetric(D)
    ensures CoefToTensorCorrected(TensorToCoef(D)) == D
  {
    var R := CoefToTensorCorrected(TensorToCoef(D));
    assert D[1][0] == D[0][1] && D[2][0] == D[0][2] && D[2][1] == D[1][2];
    assert R[0] == D[0] && R[1] == D[1] && R[2] == D[2];
  }

  lemma QuadraticIdentity(x: real, y: real, z: real, c0: real, c1: real, c2: real, c3: real, c4: real, c5: real)
    ensures x * x * c0 + y * y * c1 + z * z * c2 + 2.0 * x * y * c3 + 2.0 * x * z * c4 + 2.0 * y * z * c5
         == x * (c0 * x + c3 * y + c4 * z) + y * (c3 * x + c1 * y + c5 * z) + z * (c4 * x + c5 * y + c2 * z)
  {
  }

  /**
    The two layouts agree: a row of B applied to coefficients c is the
    diffusion g^T D g along that row's gradient, for the corrected D.
   */
  lemma RowIsQuadraticForm(g: Vec3, c: Coefs)
    ensures RowDot(DesignRow(g), c) == QuadraticForm(g, CoefToTensorCorrected(c))
  {
    QuadraticIdentity(g[0], g[1], g[2], c[0], c[1], c[2], c[3], c[4], c[5]);
  }

  /** Row i of the design matrix measures the diffusion along gradient i + 1. */
  lemma DesignMatrixQuadraticForm(bVectors: seq<Vec3>, c: Coefs, i: nat)
    requires i + 1 < |bVectors|
    ensures RowDot(DesignMatrix(bVectors)[i], c) == QuadraticForm(bVectors[i + 1], CoefToTensorCorrected(c))
  {
    RowIsQuadraticForm(bVectors[i + 1], c);
  }

  // ---------------------------------------------------------------------
  // Principal direction

  /** Math.max.apply(Math, s): the largest entry. */
  function MaxOf(s: seq<real>): (m: real)
    requires |s| > 0
    ensures exists i :: 0 <= i < |s| && s[i] == m
    ensures forall i :: 0 <= i < |s| ==> s[i] <= m
  {
    if |s| == 1 then s[0]
    else
      var rest := MaxOf(s[1..]);
      assert forall i :: 1 <= i < |s| ==> s[i] == s[1..][i - 1];
      if s[0] >= rest then s[0] else rest
  }

  /** Array.prototype.indexOf: the first index holding v, or -1. */
  function IndexOf(s: seq<real>, v: real): (k: int)
    ensures -1 <= k < |s|
    ensures k == -1 <==> forall i :: 0 <= i < |s| ==> s[i] != v
    ensures 0 <= k ==> s[k] == v && forall i :: 0 <= i < k ==> s[i] != v
  {
    if |s| == 0 then -1
    else if s[0] == v then 0
    else
      var k := IndexOf(s[1..], v);
      assert forall i :: 1 <= i < |s| ==> s[i] == s[1..][i - 1];
      if k == -1 then -1 else k + 1
  }

  /** k is the smallest index whose entry is at least every other entry. */
  ghost predicate IsFirstArgMax(s: seq<real>, k: int)
  {
    && 0 <= k < |s|
    && (forall j :: 0 <= j < |s| ==> s[j] <= s[k])
    && (forall j :: 0 <= j < k ==> s[j] < s[k])
  }

  lemma FirstArgMaxUnique(s: seq<real>, k: int, k': int)
    requires IsFirstArgMax(s, k) && IsFirstArgMax(s, k')
    ensures k == k'
  {
    assert s[k] == s[k'];
  }

  /** eigenValues.indexOf(Math.max.apply(Math, eigenValues)). */
  function MaxIndex(s: seq<real>): (k: int)
    requires |s| > 0
    ensures IsFirstArgMax(s, k)
  {
    IndexOf(s, MaxOf(s))
  }

  /**
    getMaxEigenVector: the eigenvector stored at the first index of a largest
    eigenvalue. It picks row k of E as the array is laid out.
   */
  function GetMaxEigenVector(E: Mat3, lambda: Vec3): (v: Vec3)
    ensures forall k :: IsFirstArgMax(lambda, k) ==> v == E[k]
  {
    var k := MaxIndex(lambda);
    assert forall k' :: IsFirstArgMax(lambda, k') ==> k' == k by {
      forall k' | IsFirstArgMax(lambda, k') ensures k' == k {
        FirstArgMaxUnique(lambda, k, k');
      }
    }
    E[k]
  }

  // ---------------------------------------------------------------------
  // Signals

  /** The signal of every volume at p, in volume order. */
  function SignalsOf(volumes: seq<Volume<real>>, p: Voxel): (s: seq<real>)
    requires forall i :: 0 <= i < |volumes| ==> p in volumes[i].cells
  {
    seq(|volumes|, i requires 0 <= i < |volumes| => volumes[i].cells[p])
  }

  /**
    getS0: the reference signal, volume 0 at p. Together with getS it splits
    the voxel's signals without losing or reordering any: S0 followed by S is
    the signal of every volume at p.
   */
  function GetS0(volumes: seq<Volume<real>>, p: Voxel): (S0: real)
    requires |volumes| >= 1 && p in volumes[0].cells
    ensures (forall i :: 0 <= i < |volumes| ==> p in volumes[i].cells) ==>
      [S0] + GetS(volumes, p) == SignalsOf(volumes, p)
  {
    volumes[0].cells[p]
  }

  /** getS: the weighted signals, volumes 1 .. n-1 at p, in volume order. */
  function GetS(volumes: seq<Volume<real>>, p: Voxel): (S: seq<real>)
    requires forall i :: 0 <= i < |volumes| ==> p in volumes[i].cells
    ensures |S| == if |volumes| == 0 then 0 else |volumes| - 1
    ensures forall i :: 0 <= i < |S| ==> S[i] == volumes[i + 1].cells[p]
  {
    if |volumes| == 0 then []
    else seq(|volumes| - 1, i requires 0 <= i < |volumes| - 1 => volumes[i + 1].cells[p])
  }

  lemma SignalsAtVoxel(input: Input, p: Voxel)
    requires input.Valid() && InRange(input.Dims(), p)
    ensures forall i :: 0 <= i < |input.volumes| ==> p in input.volumes[i].cells
    ensures input.mask.Some? ==> p in input.mask.value.cells
  {
  }

  // ---------------------------------------------------------------------
  // Voxel fit

  /** No mask, or the mask is set at p. */
  function Included(mask: Option<Volume<bool>>, p: Voxel): bool
    requires mask.Some? ==> p in mask.value.cells
  {
    mask.None? || mask.value.cells[p]
  }

  /** numeric.all(S): no weighted signal is zero. */
  predicate AllNonZero(S: seq<real>)
  {
    forall i :: 0 <= i < |S| ==> S[i] != 0.0
  }

  /** Y = log(S / S0), entry by entry. */
  function LogRatios(k: Numeric, S: seq<real>, S0: real): (Y: seq<real>)
    ensures |Y| == |S|
    ensures forall i :: 0 <= i < |S| ==> Y[i] == k.log(k.div(S[i], S0))
  {
    seq(|S|, i requires 0 <= i < |S| => k.log(k.div(S[i], S0)))
  }

  /** numeric.dot(a, X) for a scalar a. */
  function Scale(a: real, X: Coefs): (r: Coefs)
    ensures forall i :: 0 <= i < 6 ==> r[i] == a * X[i]
  {
    [a * X[0], a * X[1], a * X[2], a * X[3], a * X[4], a * X[5]]
  }

  /** X = -1 / b1 * inv(Bt B) Bt Y: the unique coefficients of the fitted tensor. */
  function FitCoefs(k: Numeric, B: Matrix, bValues: seq<real>, S: seq<real>, S0: real): Coefs
    requires |bValues| >= 2
  {
    Scale(k.div(-1.0, bValues[1]), k.solve(B, LogRatios(k, S, S0)))
  }

  /** The gating rule of getDForVoxel: included, S0 at least the threshold, no zero signal. */
  predicate Passes(input: Input, p: Voxel)
    requires input.Valid() && InRange(input.Dims(), p)
  {
    SignalsAtVoxel(input, p);
    && Included(input.mask, p)
    && GetS0(input.volumes, p) >= input.threshold
    && AllNonZero(GetS(input.volumes, p))
  }

  /**
    getDForVoxel as written: the fitted tensor at p, laid out by coefToTensor
    (off-diagonal coefficients halved), or None ("not computed") when the
    voxel is masked out, its reference signal is below the threshold, or one
    of its weighted signals is zero.
   */
  function GetDForVoxel(k: Numeric, input: Input, B: Matrix, p: Voxel): (D: Option<Mat3>)
    requires input.Valid() && InRange(input.Dims(), p)
    ensures D.Some? <==> Passes(input, p)
    ensures D.Some? ==> Symmetric(D.value)
    ensures D.Some? ==>
      D.value == CoefToTensor(FitCoefs(k, B, input.bValues, GetS(input.volumes, p), GetS0(input.volumes, p)))
  {
    SignalsAtVoxel(input, p);
    var S0 := GetS0(input.volumes, p);
    var S := GetS(input.volumes, p);
    if Included(input.mask, p) && S0 >= input.threshold && AllNonZero(S) then
      Some(CoefToTensor(FitCoefs(k, B, input.bValues, S, S0)))
    else
      None
  }

  /**
    getDForVoxel with the corrected layout. It fits the same voxels as the
    code as written; its diagonal agrees and its off-diagonal entries are
    twice as large; and it is the tensor whose diffusion g^T D g along every
    weighted gradient is what the matching row of B predicts from the fitted
    coefficients.
   */
  function GetDForVoxelCorrected(k: Numeric, input: Input, p: Voxel): (D: Option<Mat3>)
    requires input.Valid() && InRange(input.Dims(), p)
    ensures D.Some? <==> GetDForVoxel(k, input, DesignMatrix(input.bVectors), p).Some?
    ensures D.Some? ==>
      var W := GetDForVoxel(k, input, DesignMatrix(input.bVectors), p).value;
      && (forall i :: 0 <= i < 3 ==> D.value[i][i] == W[i][i])
      && (forall i, j :: 0 <= i < 3 && 0 <= j < 3 && i != j ==> D.value[i][j] == 2.0 * W[i][j])
    ensures D.Some? ==> forall i :: 0 <= i < |input.bVectors| - 1 ==>
      RowDot(DesignMatrix(input.bVectors)[i], TensorToCoef(D.value)) == QuadraticForm(input.bVectors[i + 1], D.value)
  {
    SignalsAtVoxel(input, p);
    var B := DesignMatrix(input.bVectors);
    if Passes(input, p) then
      var X := FitCoefs(k, B, input.bValues, GetS(input.volumes, p), GetS0(input.volumes, p));
      var D := CoefToTensorCorrected(X);
      CoefTensorRoundTrip(X);
      forall i | 0 <= i < |input.bVectors| - 1
        ensures RowDot(B[i], TensorToCoef(D)) == QuadraticForm(input.bVectors[i + 1], D)
      {
        DesignMatrixQuadraticForm(input.bVectors, X, i);
      }
      Some(D)
    else
      None
  }

  /** A voxel outside the mask or below the threshold is never fitted, whatever its signals. */
  lemma ExcludedVoxelNotFitted(k: Numeric, input: Input, B: Matrix, p: Voxel)
    requires input.Valid() && InRange(input.Dims(), p)
    requires (input.mask.Some? && !input.mask.value.cells[p]) || input.volumes[0].cells[p] < input.threshold
    ensures GetDForVoxel(k, input, B, p).None?
  {
  }

  /** Everything the sequential pass writes at one voxel. */
  datatype VoxelFit = VoxelFit(D: Mat3, eigenValues: Vec3, eigenVectors: Mat3, maxVector: Vec3)

  /**
    One iteration of the voxel loop of estimateTensor: the tensor, its eigen
    decomposition and the principal direction, or None when the voxel is not
    fitted or numeric.eig throws.
   */
  function EstimateVoxel(k: Numeric, input: Input, B: Matrix, p: Voxel): (r: Option<VoxelFit>)
    requires input.Valid() && InRange(input.Dims(), p)
    ensures r.Some? <==> Passes(input, p) && k.eig(GetDForVoxel(k, input, B, p).value).Some?
    ensures r.Some? ==>
      && r.value.D == GetDForVoxel(k, input, B, p).value
      && Some(Eigen(r.value.eigenValues, r.value.eigenVectors)) == k.eig(r.value.D)
      && forall j :: IsFirstArgMax(r.value.eigenValues, j) ==> r.value.maxVector == r.value.eigenVectors[j]
  {
    match GetDForVoxel(k, input, B, p)
    case None => None
    case Some(D) =>
      match k.eig(D)
      case None => None
      case Some(e) => Some(VoxelFit(D, e.lambda, e.E, GetMaxEigenVector(e.E, e.lambda)))
  }
}
