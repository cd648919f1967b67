/**
  The volume container the estimator and the anisotropy pass work on, seen
  from the outside: a grid of dimensions dimX x dimY x dimZ and a value per
  voxel. How volumes are allocated, split into slabs and joined back is not
  part of this model. A volume freshly created by the source is a zeroed
  typed array; here it is an empty map, and a voxel absent from the map is
  one that still holds that initial value.
 */
module Volumes {
  import opened Maths

  datatype Voxel = Voxel(x: int, y: int, z: int)

  datatype Dims = Dims(dimX: nat, dimY: nat, dimZ: nat)

  datatype Volume<T> = Volume(dims: Dims, cells: map<Voxel, T>)

  predicate InRange(d: Dims, p: Voxel)
  {
    0 <= p.x < d.dimX && 0 <= p.y < d.dimY && 0 <= p.z < d.dimZ
  }

  predicate IsEmptyGrid(d: Dims)
  {
    d.dimX == 0 || d.dimY == 0 || d.dimZ == 0
  }

  /** The voxels of the grid. */
  function Range(d: Dims): (r: set<Voxel>)
    ensures forall p :: p in r <==> InRange(d, p)
  {
    set x, y, z | 0 <= x < d.dimX && 0 <= y < d.dimY && 0 <= z < d.dimZ :: Voxel(x, y, z)
  }

  /** Every voxel of the grid holds a value (an input volume). */
  ghost predicate Filled<T>(v: Volume<T>)
  {
    forall p :: InRange(v.dims, p) ==> p in v.cells
  }

  /** No value is stored outside the grid. */
  ghost predicate Confined<T>(v: Volume<T>)
  {
    forall p :: p in v.cells ==> InRange(v.dims, p)
  }

  /** Volume.create: a volume of the given dimensions where nothing has been written yet. */
  /**
    volume.get(x, y, z): the value stored at p, or zero (the value a freshly
    created typed array holds) where nothing was written.
   */
  function ValueAt<T>(v: Volume<T>, p: Voxel, zero: T): (r: T)
    ensures p in v.cells ==> r == v.cells[p]
    ensures p !in v.cells ==> r == zero
  {
    if p in v.cells then v.cells[p] else zero
  }

  function Create<T>(d: Dims): Volume<T>
  {
    Volume(d, map[])
  }

  /** Volume.set at one voxel. */
  function Set<T>(v: Volume<T>, p: Voxel, value: T): Volume<T>
  {
    v.(cells := v.cells[p := value])
  }

  /**
    The traversal order of both passes: slices x, then rows y, then voxels z.
    Visited(p, x, y, z) holds when p comes strictly before the cursor (x, y, z).
   */
  predicate Visited(p: Voxel, x: int, y: int, z: int)
  {
    p.x < x || (p.x == x && p.y < y) || (p.x == x && p.y == y && p.z < z)
  }

  /**
    The progress value notified after slice x of a pass over dimX slices:
    Math.round((x + 1) / dimX * 100).
   */
  function SliceProgress(x: nat, dimX: nat): (r: int)
    requires x < dimX
    ensures 0 <= r <= 100
  {
    var f := (x + 1) as real / dimX as real;
    assert 0.0 < f <= 1.0;
    Round(f * 100.0)
  }

  /** The sequence of progress values a pass over dimX slices emits, one per slice. */
  ghost predicate IsSliceProgress(progress: seq<int>, dimX: nat)
  {
    |progress| == dimX && forall x :: 0 <= x < dimX ==> progress[x] == SliceProgress(x, dimX)
  }

  /** Per-slice progress is non-decreasing and the last slice reports exactly 100. */
  lemma SliceProgressMonotone(progress: seq<int>, dimX: nat)
    requires IsSliceProgress(progress, dimX)
    ensures forall i, j :: 0 <= i <= j < |progress| ==> progress[i] <= progress[j]
    ensures dimX > 0 ==> progress[dimX - 1] == 100
  {
    forall i, j | 0 <= i <= j < |progress|
      ensures progress[i] <= progress[j]
    {
      var fi := (i + 1) as real / dimX as real;
      var fj := (j + 1) as real / dimX as real;
      DivMonotone((i + 1) as real, (j + 1) as real, dimX as real);
      RoundMonotone(fi * 100.0, fj * 100.0);
    }
    if dimX > 0 {
      DivSelf(dimX as real);
    }
  }
}
