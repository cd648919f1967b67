/**
  The pure parts of the parallel driver (TensorEstimationParaLS): the
  progress arithmetic of the split, estimate and join stages, the
  transposition of per-volume splits into per-partition inputs, and the
  extraction of the four result families in partition order.
 */
module TensorPara {
  import opened Wrappers
  import opened Maths
  import opened Volumes
  import opened TensorSeq

  // ---------------------------------------------------------------------
  // Splitting stage

  /**
    Progress notified when the count-th of the volumesNumber volumes (and the
    mask) has been split: Math.round(count / ((volumesNumber + 1) * 3) * 100).
   */
  function SplitProgress(count: nat, volumesNumber: nat): int
  {
    Round(count as real / ((volumesNumber + 1) * 3) as real * 100.0)
  }

  /** Splitting never reports more than a third of the run, and never goes back. */
  lemma SplitProgressBounds(count: nat, count': nat, volumesNumber: nat)
    requires count <= count' <= volumesNumber + 1
    ensures 0 <= SplitProgress(count, volumesNumber) <= SplitProgress(count', volumesNumber) <= 33
  {
    var m := (volumesNumber + 1) as real;
    var n := ((volumesNumber + 1) * 3) as real;
    assert n == 3.0 * m;
    var f := count as real / n;
    var f' := count' as real / n;
    assert f * n == count as real && f' * n == count' as real;
    NonNegativeFactor(f, n);
    DivMonotone(count as real, count' as real, n);
    assert (1.0 - 3.0 * f') * m == m - count' as real;
    NonNegativeFactor(1.0 - 3.0 * f', m);
    RoundMonotone(f * 100.0, f' * 100.0);
    RoundMonotone(f' * 100.0, 100.0 / 3.0);
    RoundMonotone(0.0, f * 100.0);
  }

  // ---------------------------------------------------------------------
  // Partition inputs

  /** What one sequential estimator receives: its slab of every volume, and of the mask. */
  datatype PartitionData<V, M> = PartitionData(volumes: seq<V>, mask: Option<M>)

  /**
    The loops of parallelEstimation that build each partition's input:
    partition i receives volumesSplits[j][i] for j = 0 .. volumesNumber - 1,
    and maskSplits[i] when there is a mask.
   */
  function PartitionInputs<V, M>(volumesSplits: seq<seq<V>>, maskSplits: Option<seq<M>>,
                                 splitNumber: nat, volumesNumber: nat): (r: seq<PartitionData<V, M>>)
    requires volumesNumber <= |volumesSplits|
    requires forall j :: 0 <= j < volumesNumber ==> splitNumber <= |volumesSplits[j]|
    requires maskSplits.Some? ==> splitNumber <= |maskSplits.value|
    ensures |r| == splitNumber
    ensures forall i :: 0 <= i < splitNumber ==> |r[i].volumes| == volumesNumber
    ensures forall i, j :: 0 <= i < splitNumber && 0 <= j < volumesNumber ==>
      r[i].volumes[j] == volumesSplits[j][i]
    ensures forall i :: 0 <= i < splitNumber ==>
      r[i].mask == if maskSplits.None? then None else Some(maskSplits.value[i])
  {
    seq(splitNumber, i requires 0 <= i < splitNumber =>
      PartitionData(
        seq(volumesNumber, j requires 0 <= j < volumesNumber => volumesSplits[j][i]),
        if maskSplits.None? then None else Some(maskSplits.value[i])))
  }

  /** Transposing the partition inputs back gives every volume's splits in order. */
  lemma PartitionInputsInvertible<V, M>(volumesSplits: seq<seq<V>>, maskSplits: Option<seq<M>>,
                                        splitNumber: nat, volumesNumber: nat)
    requires volumesNumber == |volumesSplits|
    requires forall j :: 0 <= j < volumesNumber ==> splitNumber == |volumesSplits[j]|
    requires maskSplits.Some? ==> splitNumber <= |maskSplits.value|
    ensures var parts := PartitionInputs(volumesSplits, maskSplits, splitNumber, volumesNumber);
      forall j :: 0 <= j < volumesNumber ==>
        seq(splitNumber, i requires 0 <= i < splitNumber => parts[i].volumes[j]) == volumesSplits[j]
  {
  }

  // ---------------------------------------------------------------------
  // Estimating stage

  /** estimationProgress before any partition has reported. */
  function InitialProgress(splitNumber: nat): (state: seq<real>)
    ensures |state| == splitNumber && forall i :: 0 <= i < splitNumber ==> state[i] == 0.0
  {
    seq(splitNumber, i => 0.0)
  }

  /**
    The progress handler of partition `index`: a notification of 0 is ignored;
    otherwise the partition's share progress / splitNumber replaces its entry
    and Math.round(sum / 3 + 33) is notified.
   */
  function OnEstimationProgress(state: seq<real>, splitNumber: nat, index: nat, progress: int): (r: (seq<real>, Option<int>))
    requires 0 < splitNumber && index < |state|
    ensures progress == 0 ==> r.0 == state && r.1 == None
    ensures progress != 0 ==>
      && |r.0| == |state|
      && r.0[index] == progress as real / splitNumber as real
      && (forall i :: 0 <= i < |state| && i != index ==> r.0[i] == state[i])
      && r.1 == Some(Round(Sum(r.0) / 3.0 + 33.0))
  {
    if progress == 0 then (state, None)
    else
      var state' := state[index := progress as real / splitNumber as real];
      (state', Some(Round(Sum(state') / 3.0 + 33.0)))
  }

  /** Each partition's entry is its last progress, in [0, 100], scaled by 1 / splitNumber. */
  ghost predicate ProgressInRange(state: seq<real>, splitNumber: nat)
    requires 0 < splitNumber
  {
    && |state| == splitNumber
    && forall i :: 0 <= i < |state| ==> 0.0 <= state[i] <= 100.0 / splitNumber as real
  }

  /** A partition progress in [0, 100] keeps every entry in range. */
  lemma EstimationProgressKeepsRange(state: seq<real>, splitNumber: nat, index: nat, progress: int)
    requires 0 < splitNumber && index < |state|
    requires ProgressInRange(state, splitNumber)
    requires 0 <= progress <= 100
    ensures ProgressInRange(OnEstimationProgress(state, splitNumber, index, progress).0, splitNumber)
  {
    var s := splitNumber as real;
    assert 0.0 <= progress as real / s <= 100.0 / s;
  }

  /** With every entry in range, the aggregate lies in the middle third [33, 66]. */
  lemma EstimationProgressBounds(state: seq<real>, splitNumber: nat, index: nat, progress: int)
    requires 0 < splitNumber && index < |state|
    requires ProgressInRange(state, splitNumber)
    requires 0 <= progress <= 100
    ensures var r := OnEstimationProgress(state, splitNumber, index, progress);
      r.1.Some? ==> 33 <= r.1.value <= 66
  {
    var r := OnEstimationProgress(state, splitNumber, index, progress);
    if r.1.Some? {
      EstimationProgressKeepsRange(state, splitNumber, index, progress);
      SumBounds(r.0, 0.0, 100.0 / splitNumber as real);
      assert splitNumber as real * (100.0 / splitNumber as real) == 100.0;
      RoundMonotone(33.0, Sum(r.0) / 3.0 + 33.0);
      RoundMonotone(Sum(r.0) / 3.0 + 33.0, 100.0 / 3.0 + 33.0);
    }
  }

  /** Before any notification every share is 0, which is in range. */
  lemma InitialProgressInRange(splitNumber: nat)
    requires 0 < splitNumber
    ensures ProgressInRange(InitialProgress(splitNumber), splitNumber)
  {
    assert 0.0 <= 100.0 / splitNumber as real;
  }

  /**
    Whatever the other partitions have reported, and in whatever order the
    notifications interleave: a notification whose partition share does not
    go back notifies at least the aggregate of the state it updates, i.e. at
    least the previous notified value.
   */
  lemma EstimationProgressMonotone(state: seq<real>, splitNumber: nat, index: nat, progress: int)
    requires 0 < splitNumber && index < |state|
    requires 0 < progress && state[index] <= progress as real / splitNumber as real
    ensures Round(Sum(state) / 3.0 + 33.0) <= OnEstimationProgress(state, splitNumber, index, progress).1.value
  {
    var share := progress as real / splitNumber as real;
    var state' := state[index := share];
    SumGrows(state, index, share);
    AggregateMonotone(Sum(state), Sum(state'));
  }

  /** Raising one entry does not lower the sum. */
  lemma SumGrows(s: seq<real>, i: nat, v: real)
    requires i < |s| && s[i] <= v
    ensures Sum(s) <= Sum(s[i := v])
  {
    SumUpdate(s, i, v);
  }

  lemma AggregateMonotone(a: real, b: real)
    requires a <= b
    ensures Round(a / 3.0 + 33.0) <= Round(b / 3.0 + 33.0)
  {
    RoundMonotone(a / 3.0 + 33.0, b / 3.0 + 33.0);
  }

  // ---------------------------------------------------------------------
  // Joining stage

  /** Progress after the count-th of the four joins: (count / (4 * 3)) * 100 + 66, not rounded. */
  function JoinProgress(count: nat): real
  {
    (count as real / (4 * 3) as real) * 100.0 + 66.0
  }

  /** The join notifications rise strictly, stay above 66 and never reach 100. */
  lemma JoinProgressBounds(count: nat, count': nat)
    requires 1 <= count < count' <= 4
    ensures 66.0 < JoinProgress(count) < JoinProgress(count') < 100.0
    ensures JoinProgress(4) == 99.0 + 1.0 / 3.0
  {
  }

  /** The three stages occupy consecutive, ordered ranges of the progress scale. */
  lemma StagesOrdered(splitCount: nat, volumesNumber: nat,
                      state: seq<real>, splitNumber: nat, index: nat, progress: int, joinCount: nat)
    requires splitCount <= volumesNumber + 1
    requires 0 < splitNumber && index < |state| && ProgressInRange(state, splitNumber)
    requires 0 < progress <= 100
    requires 1 <= joinCount <= 4
    ensures var est := OnEstimationProgress(state, splitNumber, index, progress).1.value;
      SplitProgress(splitCount, volumesNumber) <= est && (est as real) < JoinProgress(joinCount)
  {
    SplitProgressBounds(splitCount, splitCount, volumesNumber);
    EstimationProgressBounds(state, splitNumber, index, progress);
  }

  /** The four per-partition result lists handed to the four joins. */
  datatype Families = Families(
    D: seq<Volume<Mat3>>,
    eigenValues: seq<Volume<Vec3>>,
    eigenVectors: seq<Volume<Mat3>>,
    maxVectors: seq<Volume<Vec3>>)

  /** The partition results again, from the four lists. */
  function Reassemble(f: Families): seq<Estimation>
    requires |f.eigenValues| == |f.D| && |f.eigenVectors| == |f.D| && |f.maxVectors| == |f.D|
  {
    seq(|f.D|, i requires 0 <= i < |f.D| => Estimation(f.D[i], f.eigenValues[i], f.eigenVectors[i], f.maxVectors[i]))
  }

  /**
    The extraction loop of joinResults: each family lists the partitions'
    results in partition order, and nothing is lost.
   */
  method ExtractSplits(estimations: seq<Estimation>) returns (f: Families)
    ensures |f.D| == |estimations| && |f.eigenValues| == |estimations|
    ensures |f.eigenVectors| == |estimations| && |f.maxVectors| == |estimations|
    ensures Reassemble(f) == estimations
  {
    f := Families([], [], [], []);
    var i := 0;
    while i < |estimations|
      invariant 0 <= i <= |estimations|
      invariant |f.D| == i && |f.eigenValues| == i && |f.eigenVectors| == i && |f.maxVectors| == i
      invariant Reassemble(f) == estimations[..i]
    {
      var e := estimations[i];
      f := Families(f.D + [e.D], f.eigenValues + [e.eigenValues],
                    f.eigenVectors + [e.eigenVectors], f.maxVectors + [e.maxVectors]);
      i := i + 1;
    }
  }
}
