/**
  The sequential estimation pass (TensorEstimationSeqLS.estimateTensor):
  every voxel of the grid in slice/row/voxel order, four output volumes
  written together, one progress value after each slice.
 */
module TensorSeq {
  import opened Wrappers
  import opened Maths
  import opened Volumes
  import opened TensorLS

  /** The four output volumes of a pass. */
  datatype Estimation = Estimation(
    D: Volume<Mat3>,
    eigenValues: Volume<Vec3>,
    eigenVectors: Volume<Mat3>,
    maxVectors: Volume<Vec3>)

  /** All four outputs have grid d and hold nothing outside it. */
  ghost predicate Shaped(out: Estimation, d: Dims)
  {
    && out.D.dims == d && out.eigenValues.dims == d
    && out.eigenVectors.dims == d && out.maxVectors.dims == d
    && Confined(out.D) && Confined(out.eigenValues)
    && Confined(out.eigenVectors) && Confined(out.maxVectors)
  }

  /** None of the four outputs has been written at p. */
  ghost predicate Untouched(out: Estimation, p: Voxel)
  {
    && p !in out.D.cells && p !in out.eigenValues.cells
    && p !in out.eigenVectors.cells && p !in out.maxVectors.cells
  }

  /** All four outputs hold the corresponding part of f at p. */
  ghost predicate Holds(out: Estimation, p: Voxel, f: VoxelFit)
  {
    && p in out.D.cells && out.D.cells[p] == f.D
    && p in out.eigenValues.cells && out.eigenValues.cells[p] == f.eigenValues
    && p in out.eigenVectors.cells && out.eigenVectors.cells[p] == f.eigenVectors
    && p in out.maxVectors.cells && out.maxVectors.cells[p] == f.maxVector
  }

  /** The outputs at p are what the voxel step produces: all four values, or none. */
  ghost predicate Reflects(k: Numeric, input: Input, out: Estimation, p: Voxel)
    requires input.Valid() && InRange(input.Dims(), p)
  {
    match EstimateVoxel(k, input, DesignMatrix(input.bVectors), p)
    case None => Untouched(out, p)
    case Some(f) => Holds(out, p, f)
  }

  /** v' has the grid of v and agrees with it everywhere except possibly at p. */
  ghost predicate SameElsewhere<T>(v: Volume<T>, v': Volume<T>, p: Voxel)
  {
    && v'.dims == v.dims
    && forall q :: q != p ==> (q in v'.cells <==> q in v.cells) && (q in v.cells ==> v'.cells[q] == v.cells[q])
  }

  /** Write one voxel's fit into the four outputs. */
  function Write(out: Estimation, p: Voxel, f: VoxelFit): (r: Estimation)
    ensures Holds(r, p, f)
    ensures SameElsewhere(out.D, r.D, p) && SameElsewhere(out.eigenValues, r.eigenValues, p)
    ensures SameElsewhere(out.eigenVectors, r.eigenVectors, p) && SameElsewhere(out.maxVectors, r.maxVectors, p)
    ensures forall q :: q != p ==> Untouched(r, q) == Untouched(out, q)
    ensures forall q, g :: q != p ==> Holds(r, q, g) == Holds(out, q, g)
  {
    Estimation(
      Set(out.D, p, f.D),
      Set(out.eigenValues, p, f.eigenValues),
      Set(out.eigenVectors, p, f.eigenVectors),
      Set(out.maxVectors, p, f.maxVector))
  }

  /** Voxels before the cursor reflect the voxel step; the others are untouched. */
  ghost predicate DoneBefore(k: Numeric, input: Input, out: Estimation, x: int, y: int, z: int)
    requires input.Valid()
  {
    forall p :: InRange(input.Dims(), p) ==>
      if Visited(p, x, y, z) then Reflects(k, input, out, p) else Untouched(out, p)
  }

  /** Reflects at q depends only on what the outputs hold at q. */
  lemma ReflectsFrame(k: Numeric, input: Input, out: Estimation, out': Estimation, q: Voxel)
    requires input.Valid() && InRange(input.Dims(), q)
    requires Untouched(out', q) == Untouched(out, q)
    requires forall g :: Holds(out', q, g) == Holds(out, q, g)
    ensures Reflects(k, input, out', q) == Reflects(k, input, out, q)
  {
  }

  /** One voxel step moves the cursor from (x, y, z) to (x, y, z + 1). */
  lemma StepVoxel(k: Numeric, input: Input, out: Estimation, out': Estimation, x: int, y: int, z: int)
    requires input.Valid()
    requires InRange(input.Dims(), Voxel(x, y, z))
    requires DoneBefore(k, input, out, x, y, z)
    requires var fit := EstimateVoxel(k, input, DesignMatrix(input.bVectors), Voxel(x, y, z));
      out' == if fit.Some? then Write(out, Voxel(x, y, z), fit.value) else out
    ensures DoneBefore(k, input, out', x, y, z + 1)
  {
    var p := Voxel(x, y, z);
    forall q | InRange(input.Dims(), q)
      ensures if Visited(q, x, y, z + 1) then Reflects(k, input, out', q) else Untouched(out', q)
    {
      if q != p {
        ReflectsFrame(k, input, out, out', q);
      }
    }
  }

  /** A finished row moves the cursor to the start of the next row. */
  lemma EndOfRow(k: Numeric, input: Input, out: Estimation, x: int, y: int)
    requires input.Valid()
    requires DoneBefore(k, input, out, x, y, input.Dims().dimZ)
    ensures DoneBefore(k, input, out, x, y + 1, 0)
  {
    forall q | InRange(input.Dims(), q)
      ensures Visited(q, x, y, input.Dims().dimZ) == Visited(q, x, y + 1, 0)
    {
    }
  }

  /** A finished slice moves the cursor to the start of the next slice. */
  lemma EndOfSlice(k: Numeric, input: Input, out: Estimation, x: int)
    requires input.Valid()
    requires DoneBefore(k, input, out, x, input.Dims().dimY, 0)
    ensures DoneBefore(k, input, out, x + 1, 0, 0)
  {
    forall q | InRange(input.Dims(), q)
      ensures Visited(q, x, input.Dims().dimY, 0) == Visited(q, x + 1, 0, 0)
    {
    }
  }

  /** The innermost loop of estimateTensor: voxels (x, y, 0 .. dimZ - 1). */
  method EstimateRow(k: Numeric, input: Input, B: Matrix, out0: Estimation, x: int, y: int) returns (out: Estimation)
    requires input.Valid() && B == DesignMatrix(input.bVectors)
    requires 0 <= x < input.Dims().dimX && 0 <= y < input.Dims().dimY
    requires Shaped(out0, input.Dims()) && DoneBefore(k, input, out0, x, y, 0)
    ensures Shaped(out, input.Dims()) && DoneBefore(k, input, out, x, y + 1, 0)
  {
    var d := input.Dims();
    out := out0;
    var z := 0;
    while z < d.dimZ
      invariant 0 <= z <= d.dimZ
      invariant Shaped(out, d)
      invariant DoneBefore(k, input, out, x, y, z)
    {
      var p := Voxel(x, y, z);
      var fit := EstimateVoxel(k, input, B, p);
      var next := if fit.Some? then Write(out, p, fit.value) else out;
      StepVoxel(k, input, out, next, x, y, z);
      out := next;
      z := z + 1;
    }
    EndOfRow(k, input, out, x, y);
  }

  /** The two inner loops of estimateTensor: slice x. */
  method EstimateSlice(k: Numeric, input: Input, B: Matrix, out0: Estimation, x: int) returns (out: Estimation)
    requires input.Valid() && B == DesignMatrix(input.bVectors)
    requires 0 <= x < input.Dims().dimX
    requires Shaped(out0, input.Dims()) && DoneBefore(k, input, out0, x, 0, 0)
    ensures Shaped(out, input.Dims()) && DoneBefore(k, input, out, x + 1, 0, 0)
  {
    var d := input.Dims();
    out := out0;
    var y := 0;
    while y < d.dimY
      invariant 0 <= y <= d.dimY
      invariant Shaped(out, d)
      invariant DoneBefore(k, input, out, x, y, 0)
    {
      out := EstimateRow(k, input, B, out, x, y);
      y := y + 1;
    }
    EndOfSlice(k, input, out, x);
  }

  /**
    estimateTensor: the four outputs reflect the voxel step at every voxel of
    the grid (written together or not at all), and the progress values are
    Math.round((x + 1) / dimX * 100) for each slice x in order.
   */
  method EstimateTensor(k: Numeric, input: Input) returns (out: Estimation, progress: seq<int>)
    requires input.Valid()
    ensures Shaped(out, input.Dims())
    ensures forall p :: InRange(input.Dims(), p) ==> Reflects(k, input, out, p)
    ensures IsSliceProgress(progress, input.Dims().dimX)
    ensures forall i, j :: 0 <= i <= j < |progress| ==> progress[i] <= progress[j]
    ensures input.Dims().dimX > 0 ==> progress[|progress| - 1] == 100
  {
    var d := input.Dims();
    var B := DesignMatrix(input.bVectors);
    out := Estimation(Create(d), Create(d), Create(d), Create(d));
    progress := [];
    var x := 0;
    while x < d.dimX
      invariant 0 <= x <= d.dimX
      invariant Shaped(out, d)
      invariant DoneBefore(k, input, out, x, 0, 0)
      invariant |progress| == x
      invariant forall i :: 0 <= i < x ==> progress[i] == SliceProgress(i, d.dimX)
    {
      out := EstimateSlice(k, input, B, out, x);
      progress := progress + [SliceProgress(x, d.dimX)];
      x := x + 1;
    }
    SliceProgressMonotone(progress, d.dimX);
  }

  /** The four outputs are written at exactly the same voxels. */
  lemma AllOrNothing(k: Numeric, input: Input, out: Estimation)
    requires input.Valid()
    requires Shaped(out, input.Dims())
    requires forall p :: InRange(input.Dims(), p) ==> Reflects(k, input, out, p)
    ensures forall p ::
      && (p in out.D.cells <==> p in out.eigenValues.cells)
      && (p in out.D.cells <==> p in out.eigenVectors.cells)
      && (p in out.D.cells <==> p in out.maxVectors.cells)
    ensures forall p :: InRange(input.Dims(), p) ==>
      (p in out.D.cells <==> Passes(input, p) && k.eig(GetDForVoxel(k, input, DesignMatrix(input.bVectors), p).value).Some?)
  {
    forall p ensures
      && (p in out.D.cells <==> p in out.eigenValues.cells)
      && (p in out.D.cells <==> p in out.eigenVectors.cells)
      && (p in out.D.cells <==> p in out.maxVectors.cells)
    {
      if InRange(input.Dims(), p) {
        assert Reflects(k, input, out, p);
      }
    }
    forall p | InRange(input.Dims(), p) ensures
      p in out.D.cells <==> Passes(input, p) && k.eig(GetDForVoxel(k, input, DesignMatrix(input.bVectors), p).value).Some?
    {
      assert Reflects(k, input, out, p);
    }
  }
}
