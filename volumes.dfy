/** Sub-cubes of a 3D volume and the statistics the engine computes on them.
    Voxel values are exact reals: `np.mean`, `np.max` and the comparisons on
    them are modelled without floating-point rounding. */
module Volumes {

  /** The voxels of one channel of a sub-cube, flattened; a sub-cube is never empty. */
  type Voxels = s: seq<real> | |s| > 0 witness [0.0]

  /** The channels of a sub-cube: one per modality for an image, one for a label
      (its leading channel axis), `n_labels` for a one-hot label. */
  type Channels = c: seq<Voxels> | |c| > 0 witness [SingleZero]

  const SingleZero: Voxels := [0.0]

  /** The three spatial extents of a volume or sub-cube (its last three axes). */
  datatype Dims = Dims(d0: int, d1: int, d2: int)

  /** A patch coordinate: the start corner of a sub-cube inside a volume. */
  datatype Coord = Coord(x: int, y: int, z: int)

  datatype Cube = Cube(dims: Dims, channels: Channels)

  function Sum(s: seq<real>): real
  {
    if |s| == 0 then 0.0 else s[0] + Sum(s[1..])
  }

  /** All channels one after the other, as `np.ravel` sees them. */
  function Flatten(cs: seq<Voxels>): (r: seq<real>)
    ensures |cs| > 0 ==> |r| >= |cs[0]| > 0
  {
    if |cs| == 0 then [] else cs[0] + Flatten(cs[1..])
  }

  function AllVoxels(c: Cube): Voxels
  {
    Flatten(c.channels)
  }

  /** `np.mean` */
  function Mean(s: Voxels): real
  {
    Sum(s) / (|s| as real)
  }

  /** `np.max` */
  function Max(s: Voxels): (m: real)
    ensures m in s
    ensures forall i :: 0 <= i < |s| ==> s[i] <= m
  {
    if |s| == 1 then s[0]
    else
      var rest := Max(s[1..]);
      assert forall i :: 1 <= i < |s| ==> s[i] == s[1..][i - 1];
      if s[0] >= rest then s[0] else rest
  }

  /** `np.mean(c)` over every channel */
  function CubeMean(c: Cube): real
  {
    Mean(AllVoxels(c))
  }

  /** `np.max(c[0])`: the maximum of the first channel */
  function Channel0Max(c: Cube): real
  {
    Max(c.channels[0])
  }

  /** `np.any(c != 0)` */
  predicate AnyNonzero(c: Cube)
  {
    exists i :: 0 <= i < |AllVoxels(c)| && AllVoxels(c)[i] != 0.0
  }

  /** `np.mean(c == 0)` is truthy: at least one voxel is zero. */
  predicate HasZero(c: Cube)
  {
    exists i :: 0 <= i < |AllVoxels(c)| && AllVoxels(c)[i] == 0.0
  }

  /** All three spatial extents are equal. */
  predicate IsCubic(c: Cube)
  {
    c.dims.d0 == c.dims.d1 && c.dims.d1 == c.dims.d2
  }

  predicate NonNegative(c: Cube)
  {
    forall i :: 0 <= i < |AllVoxels(c)| ==> AllVoxels(c)[i] >= 0.0
  }

  lemma {:induction false} SumOfNonNegative(s: seq<real>)
    requires forall i :: 0 <= i < |s| ==> s[i] >= 0.0
    ensures Sum(s) >= 0.0
    ensures Sum(s) == 0.0 <==> forall i :: 0 <= i < |s| ==> s[i] == 0.0
  {
    if |s| > 0 {
      assert forall i :: 1 <= i < |s| ==> s[i] == s[1..][i - 1];
      SumOfNonNegative(s[1..]);
    }
  }

  /** For a label with no negative voxel, "the mean is nonzero" and "the mean is
      positive" both mean "some voxel is foreground"; this is what lets the
      ground-truth filter test `np.mean(truth) != 0` stand for lesion presence. */
  lemma MeanNonzeroIffForeground(c: Cube)
    requires NonNegative(c)
    ensures CubeMean(c) != 0.0 <==> AnyNonzero(c)
    ensures CubeMean(c) > 0.0 <==> AnyNonzero(c)
  {
    var s := AllVoxels(c);
    SumOfNonNegative(s);
    var n := |s| as real;
    assert CubeMean(c) * n == Sum(s);
  }
}
