/** Label post-processing of an assembled batch: `convert_data` binarises a
    single label, `get_multi_class_labels` turns a label map into one binary
    channel per label value. */
module Labels {
  import opened Py
  import opened Volumes

  /** An assembled batch: image sub-cubes and label sub-cubes, entry by entry. */
  datatype Batch = Batch(x: seq<Cube>, y: seq<Cube>)

  function BinarizeVoxels(v: Voxels): (r: Voxels)
    ensures |r| == |v|
    ensures forall i :: 0 <= i < |v| ==> r[i] == if v[i] > 0.0 then 1.0 else v[i]
  {
    seq(|v|, i requires 0 <= i < |v| => if v[i] > 0.0 then 1.0 else v[i])
  }

  /** `y[y > 0] = 1` on one label cube: only positive voxels are rewritten. */
  function Binarize(c: Cube): (r: Cube)
    ensures r.dims == c.dims && |r.channels| == |c.channels|
    ensures forall k :: 0 <= k < |c.channels| ==> r.channels[k] == BinarizeVoxels(c.channels[k])
  {
    Cube(c.dims, seq(|c.channels|, k requires 0 <= k < |c.channels| => BinarizeVoxels(c.channels[k])))
  }

  /** Binarising keeps every voxel's foreground status, maps every positive voxel
      to exactly 1, and doing it twice is doing it once. */
  lemma BinarizeKeepsForeground(c: Cube, k: nat, i: nat)
    requires k < |c.channels| && i < |c.channels[k]|
    ensures Binarize(c).channels[k][i] != 0.0 <==> c.channels[k][i] != 0.0
    ensures c.channels[k][i] > 0.0 ==> Binarize(c).channels[k][i] == 1.0
    ensures c.channels[k][i] <= 0.0 ==> Binarize(c).channels[k][i] == c.channels[k][i]
    ensures Binarize(Binarize(c)).channels[k][i] == Binarize(c).channels[k][i]
  {
  }

  lemma BinarizeIdempotent(c: Cube)
    ensures Binarize(Binarize(c)) == Binarize(c)
  {
    var b := Binarize(c);
    forall k | 0 <= k < |c.channels|
      ensures Binarize(b).channels[k] == b.channels[k]
    {
      assert BinarizeVoxels(b.channels[k]) == b.channels[k];
    }
    assert Binarize(b).channels == b.channels;
  }

  /** The value label channel k stands for: `labels[k]`, or k + 1 without labels. */
  function Target(labels: Option<seq<real>>, k: nat): real
    requires labels.Some? ==> k < |labels.value|
  {
    if labels.Some? then labels.value[k] else (k + 1) as real
  }

  /** 1 where the voxel equals t, 0 elsewhere. */
  function Indicator(v: Voxels, t: real): (r: Voxels)
    ensures |r| == |v|
  {
    seq(|v|, i requires 0 <= i < |v| => if v[i] == t then 1.0 else 0.0)
  }

  /** The one-hot label cube of one batch entry, from its first channel. */
  function OneHot(c: Cube, n: nat, labels: Option<seq<real>>): (r: Cube)
    requires n >= 1
    requires labels.Some? ==> n <= |labels.value|
  {
    Cube(c.dims, seq(n, k requires 0 <= k < n => Indicator(c.channels[0], Target(labels, k))))
  }

  /** What `get_multi_class_labels` computes. An empty batch reaches it as a
      one-dimensional array of length 0, on which `data[:, 0]` raises
      IndexError; otherwise `labels[k]` raises IndexError when there are fewer
      label values than labels. */
  function MultiClassLabels(data: seq<Cube>, n: nat, labels: Option<seq<real>>): Result<seq<Cube>>
    requires n >= 1
  {
    if |data| == 0 || (labels.Some? && |labels.value| < n) then Err(IndexError)
    else Ok(seq(|data|, s requires 0 <= s < |data| => OneHot(data[s], n, labels)))
  }

  /** `get_multi_class_labels`: a zero array of shape (samples, n_labels, ...),
      filled label by label. */
  method GetMultiClassLabels(data: seq<Cube>, nLabels: int, labels: Option<seq<real>>)
    returns (r: Result<seq<Cube>>)
    requires nLabels >= 1
    ensures r == MultiClassLabels(data, nLabels, labels)
    ensures r.Err? <==> |data| == 0 || (labels.Some? && |labels.value| < nLabels)
    ensures r.Err? ==> r.error == IndexError
    ensures r.Ok? ==> |r.value| == |data|
    ensures r.Ok? ==> forall s, k, i :: 0 <= s < |data| && 0 <= k < nLabels && 0 <= i < |data[s].channels[0]| ==>
      |r.value[s].channels| == nLabels && |r.value[s].channels[k]| == |data[s].channels[0]| &&
      (r.value[s].channels[k][i] == 1.0 <==> data[s].channels[0][i] == Target(labels, k)) &&
      (r.value[s].channels[k][i] == 0.0 <==> data[s].channels[0][i] != Target(labels, k))
  {
    var y: seq<seq<Voxels>> := seq(|data|, s => []);
    for k := 0 to nLabels
      invariant |y| == |data|
      invariant labels.Some? ==> k <= |labels.value|
      invariant k > 0 ==> |data| > 0
      invariant forall s :: 0 <= s < |data| ==>
        y[s] == seq(k, j requires 0 <= j < k => Indicator(data[s].channels[0], Target(labels, j)))
    {
      if |data| == 0 || (labels.Some? && k >= |labels.value|) {
        return Err(IndexError);
      }
      var t := Target(labels, k);
      for s := 0 to |data|
        invariant |y| == |data|
        invariant forall s' :: 0 <= s' < s ==>
          y[s'] == seq(k + 1, j requires 0 <= j < k + 1 => Indicator(data[s'].channels[0], Target(labels, j)))
        invariant forall s' :: s <= s' < |data| ==>
          y[s'] == seq(k, j requires 0 <= j < k => Indicator(data[s'].channels[0], Target(labels, j)))
      {
        y := y[s := y[s] + [Indicator(data[s].channels[0], t)]];
      }
    }
    r := Ok(seq(|data|, s requires 0 <= s < |data| => Cube(data[s].dims, y[s])));
    assert r.value == MultiClassLabels(data, nLabels, labels).value;
  }

  /** With distinct label values, a voxel is set in at most one channel. */
  lemma OneHotExclusive(c: Cube, n: nat, labels: Option<seq<real>>, k1: nat, k2: nat, i: nat)
    requires n >= 1 && (labels.Some? ==> n <= |labels.value|)
    requires k1 < n && k2 < n && k1 != k2 && i < |c.channels[0]|
    requires labels.Some? ==> labels.value[k1] != labels.value[k2]
    ensures !(OneHot(c, n, labels).channels[k1][i] == 1.0 && OneHot(c, n, labels).channels[k2][i] == 1.0)
  {
  }

  /** `convert_data`: one label is binarised, several are one-hot encoded (which
      fails on an empty batch), the images are kept as they are. */
  function ConvertData(xs: seq<Cube>, ys: seq<Cube>, nLabels: int, labels: Option<seq<real>>): (r: Result<Batch>)
    ensures nLabels < 1 ==> r == Ok(Batch(xs, ys))
    ensures r.Ok? ==> r.value.x == xs && |r.value.y| == |ys|
    ensures nLabels == 1 ==> r.Ok? && forall s :: 0 <= s < |ys| ==> r.value.y[s] == Binarize(ys[s])
    ensures nLabels > 1 ==> (r.Err? <==> |ys| == 0 || (labels.Some? && |labels.value| < nLabels))
    ensures nLabels > 1 && r.Ok? ==> MultiClassLabels(ys, nLabels, labels) == Ok(r.value.y)
    ensures r.Err? ==> r.error == IndexError
  {
    if nLabels == 1 then Ok(Batch(xs, seq(|ys|, s requires 0 <= s < |ys| => Binarize(ys[s]))))
    else if nLabels > 1 then
      match MultiClassLabels(ys, nLabels, labels)
      case Err(e) => Err(e)
      case Ok(y) => Ok(Batch(xs, y))
    else Ok(Batch(xs, ys))
  }
}
