# Diffusion tensor estimation and fractional anisotropy

This project models the computational core of a browser diffusion-MRI
toolkit in Dafny. It covers two source files.

- `tensor_estimation_ls.js`: least-squares estimation of the diffusion tensor.
  - The sequential estimator `TensorEstimationSeqLS` builds the design matrix
    `B` from the gradient directions. For each voxel of the grid it reads the
    b0 signal `S0` and the weighted signals `S`. It gates the voxel on the
    mask, the threshold and non-zero signals. It fits the six unique tensor
    coefficients, lays them out as a symmetric 3x3 tensor, decomposes the
    tensor, and writes four output volumes (`D`, `eigenValues`,
    `eigenVectors`, `maxVectors`). Progress is reported after each slice.
  - The parallel driver `TensorEstimationParaLS` is modelled only in its pure
    parts:
    - the progress arithmetic of its split, estimate and join stages;
    - the transposition of per-volume splits into per-partition inputs;
    - the extraction of the four result families before the joins.
- `fa.js`: fractional anisotropy (FA).
  - FA per voxel from the eigenvalues, clamped to 1, with the running minimum
    and maximum.
  - The colour variant, which multiplies FA by the absolute components of the
    principal eigenvector.

Volumes are `Volume<T>(dims, cells)`, where `cells` is a map over voxels. A
freshly created output volume has no entries; in the source the same voxel
holds the zero that `Float64Array` starts with. The numerical kernels of the
`numeric` library are parameters of the model and nothing is assumed of them:
`log`, division, the least-squares solve `inv(BᵀB)·Bᵀ·Y`, and `eig`. So is
`Math.sqrt`, on which some FA lemmas assume non-negativity or exactness.
Arithmetic is exact (`real`). `Math.round` is `Round(r) = ⌊r + 0.5⌋`.

Modules: `Wrappers` (Option), `Maths`, `Volumes`, `TensorLS` (per-voxel
estimation), `TensorSeq` (the sequential pass), `TensorPara` (the parallel
driver's pure parts) and `Anisotropy` (FA).

## Model

| member | source | states |
|---|---|---|
| `TensorLS.DesignMatrix` | tensor_estimation_ls.js:51-74 | one row per weighted direction `bVectors[1..]`, row i is `[g0², g1², g2², 2g0g1, 2g0g2, 2g1g2]` of `bVectors[i+1]`, squared columns non-negative |
| `TensorLS.DesignMatrixQuadraticForm` | tensor_estimation_ls.js:62-66 | row i of B applied to coefficients c is the diffusion `gᵀDg` along gradient i+1 of the tensor D built from c (corrected layout) |
| `TensorLS.RowIsQuadraticForm` | tensor_estimation_ls.js:62-66 | a design row dotted with c equals `gᵀ·D(c)·g` for the corrected layout, for every g and c |
| `TensorLS.GetS` | tensor_estimation_ls.js:78-88 | the weighted signals are volumes 1..n-1 at the voxel, in volume order, one per volume after the first |
| `TensorLS.GetS0` | tensor_estimation_ls.js:91-93 | the reference signal followed by the weighted signals is the signal of every volume at the voxel, none lost or reordered |
| `TensorLS.CoefToTensor` | tensor_estimation_ls.js:96-102 | the tensor as written: symmetric, diagonal = c0..c2, each off-diagonal entry is half its coefficient |
| `TensorLS.HalvedLayoutMismatch` | tensor_estimation_ls.js:96-102 | with the halving, g = (1,1,0) and a pure xy coefficient give design-row prediction 2 but `gᵀDg` = 1 (see Findings) |
| `TensorLS.CoefToTensorCorrected` | tensor_estimation_ls.js:96-102 | the corrected layout is a symmetric tensor |
| `TensorLS.CoefTensorRoundTrip` | tensor_estimation_ls.js:96-102 | reading the six unique entries back from the corrected tensor returns the coefficients |
| `TensorLS.TensorCoefRoundTrip` | tensor_estimation_ls.js:96-102 | every symmetric tensor is the corrected layout of its own six unique entries |
| `TensorLS.MaxOf` | tensor_estimation_ls.js:106 | `Math.max.apply`: the result is an entry and no entry exceeds it |
| `TensorLS.IndexOf` | tensor_estimation_ls.js:107 | `indexOf`: -1 exactly when the value is absent, otherwise the first index holding it |
| `TensorLS.MaxIndex` | tensor_estimation_ls.js:105-107 | the index chosen is the first index of a largest eigenvalue |
| `TensorLS.FirstArgMaxUnique` | tensor_estimation_ls.js:105-107 | the first index of a largest entry is unique, so the choice is determined |
| `TensorLS.GetMaxEigenVector` | tensor_estimation_ls.js:105-109 | the principal vector is row k of E for the first argmax k of the eigenvalues |
| `TensorLS.GetDForVoxel` | tensor_estimation_ls.js:111-135 | as written: a tensor is returned exactly when the voxel is in the mask (or there is none), `S0 >= threshold` and no weighted signal is 0; it is symmetric and is the halved `coefToTensor` layout of `-1/b1 · solve(B, log(S/S0))` |
| `TensorLS.GetDForVoxelCorrected` | tensor_estimation_ls.js:111-135 | with the corrected layout: fits the same voxels, same diagonal, off-diagonal entries twice those of the code as written, and each row of B applied to the fitted coefficients is `gᵀDg` along that row's gradient |
| `TensorLS.ExcludedVoxelNotFitted` | tensor_estimation_ls.js:116-119 | a masked-out voxel or one below the threshold is never fitted, whatever its signals |
| `TensorLS.EstimateVoxel` | tensor_estimation_ls.js:163-188 | a voxel yields a fit exactly when it passes the gate and `eig` succeeds; the fit holds D, eig's values and vectors, and the vector of the first largest eigenvalue |
| `TensorSeq.Write` | tensor_estimation_ls.js:174-185 | the four outputs receive the voxel's D, eigenvalues, eigenvectors and principal vector, and each of the four volumes keeps its grid and every other voxel's entry (present or absent, and its value) |
| `TensorSeq.EstimateRow` | tensor_estimation_ls.js:162-188 | after the z loop of one row, every voxel up to the end of that row reflects the voxel step and later voxels are untouched |
| `TensorSeq.EstimateSlice` | tensor_estimation_ls.js:161-190 | after the y loop of one slice, every voxel up to the end of that slice reflects the voxel step |
| `TensorSeq.EstimateTensor` | tensor_estimation_ls.js:138-209 | the four outputs have the input's grid; every voxel holds the voxel step's results (or nothing when none); one progress value per slice, `Math.round((x+1)/dimX·100)`, non-decreasing and ending at 100 |
| `TensorSeq.AllOrNothing` | tensor_estimation_ls.js:168-188 | the four outputs are written at exactly the same voxels, namely those that pass the gate and whose tensor `eig` decomposes |
| `Volumes.SliceProgress` | tensor_estimation_ls.js:194 | each per-slice progress value is between 0 and 100 |
| `Volumes.SliceProgressMonotone` | tensor_estimation_ls.js:192-196 | the per-slice progress values never decrease and the last is exactly 100 |
| `Maths.RoundMonotone` | tensor_estimation_ls.js:194 | `Math.round` preserves order |
| `TensorPara.SplitProgressBounds` | tensor_estimation_ls.js:286-306 | split-stage progress `round(count/((n+1)·3)·100)` lies in [0, 33] and does not decrease as splits complete |
| `TensorPara.PartitionInputs` | tensor_estimation_ls.js:326-334 | partition i receives `volumesSplits[j][i]` for every volume j, and `maskSplits[i]` exactly when there is a mask |
| `TensorPara.PartitionInputsInvertible` | tensor_estimation_ls.js:326-334 | transposing the partition inputs back yields every volume's list of splits |
| `TensorPara.InitialProgress` | tensor_estimation_ls.js:322-324 | every partition's progress share starts at 0 |
| `TensorPara.OnEstimationProgress` | tensor_estimation_ls.js:345-360 | a zero notification is ignored; otherwise only this partition's share changes, to `progress/splitNumber`, and `round(sum/3 + 33)` is notified |
| `TensorPara.EstimationProgressKeepsRange` | tensor_estimation_ls.js:352 | partition progress in [0, 100] keeps every share in [0, 100/splitNumber] |
| `TensorPara.EstimationProgressBounds` | tensor_estimation_ls.js:349-357 | every aggregated estimation progress lies in [33, 66] |
| `TensorPara.InitialProgressInRange` | tensor_estimation_ls.js:322-324 | the all-zero starting shares are in range, so the [33, 66] bound holds from the first notification |
| `TensorPara.EstimationProgressMonotone` | tensor_estimation_ls.js:349-357 | from any state, whatever other partitions reported before, a notification whose partition share does not go back notifies at least the aggregate of the state it updates |
| `TensorPara.JoinProgressBounds` | tensor_estimation_ls.js:379 | join progress `(k/12)·100 + 66` rises strictly with k, stays in (66, 100) and tops out at 99⅓ |
| `TensorPara.StagesOrdered` | tensor_estimation_ls.js:286-379 | every split-stage value is at most every estimation value, which is below every join value |
| `TensorPara.ExtractSplits` | tensor_estimation_ls.js:446-452 | the four families list each partition's D, eigenvalues, eigenvectors and max vectors in partition order, and reassembling them gives back the estimations |
| `Anisotropy.AvgEigen` | fa.js:35-46 | the average times the count is the sum of the eigenvalues |
| `Anisotropy.VarEigen` | fa.js:48-60 | one entry per eigenvalue, in order, each the squared deviation from the mean and non-negative |
| `Anisotropy.GetFAFromEigenValues` | fa.js:63-74 | FA is 0 when the norm is not positive, otherwise FA·norm = `sqrt(3/2 · Σ var)`; non-negative when sqrt is |
| `Anisotropy.Clamp` | fa.js:97 | `Math.min(1, fa)`: at most 1, and fa itself whenever fa ≤ 1 |
| `Anisotropy.FAValue` | fa.js:93-97 | the stored value is at most 1, and at least 0 when sqrt is non-negative |
| `Anisotropy.IsotropicHasZeroFA` | fa.js:63-74 | equal eigenvalues (including all zero) give FA 0 given `sqrt(0) = 0` |
| `Anisotropy.MixedSignsExceedOne` | fa.js:96-97 | without the clamp eigenvalues (1, -1, 0) give FA > 1 for an exact sqrt, and the clamp stores 1 |
| `Anisotropy.MinWith` | fa.js:103 | `Math.min` with a running minimum that starts at +Infinity |
| `Anisotropy.MaxWith` | fa.js:104 | `Math.max` with a running maximum that starts at -Infinity |
| `Anisotropy.FAVolume` | fa.js:87-100 | the FA volume has the eigenvalue grid and holds the clamped FA of each voxel's eigenvalues, read as [0, 0, 0] where none was stored |
| `Anisotropy.UnwrittenVoxelHasZeroFA` | fa.js:64-72 | a voxel with no stored eigenvalues has norm 0 and FA exactly 0 |
| `Anisotropy.UnfittedVoxelHasZeroFA` | fa.js:93-100 | on the estimator's output, every voxel the estimator does not fit (masked out, below the threshold, a zero signal) gets FA 0 |
| `Anisotropy.ExtremaUnique` | fa.js:81-104 | min and max are determined by the FA volume, and min ≤ max on a non-empty grid |
| `Anisotropy.ComputeFARow` | fa.js:91-105 | after the z loop of one row, every voxel up to the end of that row holds its FA and later voxels are unwritten; min and max stay the extrema of the written values |
| `Anisotropy.ComputeFASlice` | fa.js:90-106 | after the y loop of one slice, every voxel up to the end of that slice holds its FA, with min and max the extrema of the written values |
| `Anisotropy.ComputeFA` | fa.js:77-125 | FA holds the clamped value at every voxel; min and max are attained values bounding all (±Infinity on an empty grid); eigenValues is passed through; one progress value per slice, non-decreasing and ending at 100 |
| `Anisotropy.FAInUnitInterval` | fa.js:96-97 | every stored FA value lies in [0, 1] when sqrt is non-negative |
| `Anisotropy.ComputeFAColour` | fa.js:153-173 | the colour volume has FA's grid and holds `FA·|v|` per voxel, with v the principal vector there; unwritten FA or vector entries read as 0 |
| `Anisotropy.ColourWithinFA` | fa.js:166-167 | for a direction with components in [-1, 1], each channel lies between 0 and FA |
| `Anisotropy.FAColourRun` | fa.js:175-187 | the result is computeFA's with FA replaced by the colour volume of the FA volume; min, max and eigenValues are those of the scalar FA |

## Left out

- Numerical kernels. `numeric.log`, division, `transpose`/`dot`/`inv` and
  `numeric.eig` are opaque parameters. The model proves nothing about the
  least-squares solve or the eigen decomposition themselves, and `eig`
  throwing is `None`.
- Imaginary parts. Only the real parts (`lambda.x`, `E.x`) of `eig`'s result
  are modelled.
- Floating point. Arithmetic is exact: NaN, Infinity from division by zero,
  and rounding errors are not modelled. In particular, b1 = 0 or S0 = 0 go
  through the `div` parameter.
- Threads, promises and messaging. Workers, `when` promises, `notify`
  delivery order, `setResult`/`terminate`, the `desc` strings, the resolve
  and catch in the parallel `estimateTensor`, and the `alert` on a join
  failure are left out.
- Splitting and joining volumes. `Volume.split` / `Volume33.join` are in
  another file that is not part of this model, so the equivalence of the
  parallel and sequential results is not stated. The mobile (sequential
  join) branch differs from the parallel branch only in the order of the
  join promises.
- Zero-initialised output voxels. A voxel the passes never write is absent
  from the model's map. In the source it holds 0. Readers of a volume
  (`Volumes.ValueAt`) return that zero for an absent voxel.
- Join progress. Only the value notified after the k-th join is modelled,
  not which family finishes k-th.
- Anisotropy.AvgEigen: requires a non-empty list. With an empty array the
  source returns NaN (0/0), which exact arithmetic cannot express, and
  getFAFromEigenValues only passes three eigenvalues.
- Anisotropy.GetFAFromEigenValues: `numeric.norm2` is taken as the
  parameter sqrt applied to the sum of squares. Nothing about `Math.sqrt` is
  assumed, except where a lemma says so.

## Findings

| source | as written | input that shows it | evidently intended | confidence | as-written member | corrected member |
|---|---|---|---|---|---|---|
| tensor_estimation_ls.js:96-102 | the fitted off-diagonal coefficients are divided by 2 when laid out as a tensor, though the design matrix rows already carry the factor 2 (`2·g0·g1`), so the fitted coefficient is the off-diagonal entry itself | g = (1, 1, 0) with coefficients (0, 0, 0, 1, 0, 0): the design row predicts 2, the halved tensor gives `gᵀDg` = 1 | off-diagonal entries equal to the coefficients, so each row of B applied to X is `gᵀDg` | not executed | `TensorLS.HalvedLayoutMismatch` | `TensorLS.RowIsQuadraticForm` |

The estimator (`TensorLS.GetDForVoxel` and the pass built on it) follows the
code as written. `TensorLS.GetDForVoxelCorrected` is the corrected
definition, with `TensorLS.CoefToTensorCorrected` as its layout. For every
voxel it is proved to match the design matrix's prediction, and to differ
from the code as written exactly by the doubled off-diagonal entries.

A second observation is not claimed as a defect. The join stage reports
`(k/12)·100 + 66`, unrounded, so the last join notifies 99⅓ rather than 100
(`TensorPara.JoinProgressBounds`).
