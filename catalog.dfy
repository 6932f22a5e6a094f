/** The work-item catalog: the cross product of samples with patch corners
    (`create_patch_index_list`), the train/validation split of sample ids
    (`split_a_list`, `get_validation_split`) and the step count of an epoch
    (`get_number_of_steps`). */
module Catalog {
  import opened Py
  import opened Volumes
  import opened RandomSource
  import opened PatchData

  /** The patch geometry of a call: image shape, patch shape, overlap, the
      optional bound of the random start offset, and `compute_patch_indices`
      (image shape, patch shape, overlap, start) as an external function. */
  datatype Geometry = Geometry(
    imageShape: Dims,
    patchShape: Dims,
    overlap: real,
    startOffset: Option<Coord>,
    computePatchIndices: (Dims, Dims, real, Option<Coord>) -> seq<Coord>)

  function Negate(c: Coord): Coord
  {
    Coord(-c.x, -c.y, -c.z)
  }

  /** `itertools.product([index], patches)` */
  function Product(sample: int, patches: seq<Coord>): (r: seq<PatchRef>)
    ensures |r| == |patches|
    ensures forall j :: 0 <= j < |patches| ==> r[j] == PatchRef(sample, patches[j])
  {
    seq(|patches|, j requires 0 <= j < |patches| => PatchRef(sample, patches[j]))
  }

  /** The patch corners of one sample: without an offset bound the helper's
      grid is used unshifted; with one, a fresh random offset is drawn and
      negated. */
  function SamplePatches(geo: Geometry, rng: Rng): Result<Drawn<seq<Coord>>>
  {
    match geo.startOffset
    case None => Ok(Drawn(geo.computePatchIndices(geo.imageShape, geo.patchShape, geo.overlap, None), rng))
    case Some(_) =>
      match RandomNdIndex(rng)
      case Err(e) => Err(e)
      case Ok(d) =>
        Ok(Drawn(geo.computePatchIndices(geo.imageShape, geo.patchShape, geo.overlap, Some(Negate(d.value))), d.rest))
  }

  /** What `create_patch_index_list` builds from `acc` on: the refs of every
      sample in order, each sample's block drawn in turn. */
  function CatalogFrom(acc: seq<PatchRef>, samples: seq<int>, geo: Geometry, rng: Rng): Result<Drawn<seq<PatchRef>>>
    decreases |samples|
  {
    if |samples| == 0 then Ok(Drawn(acc, rng))
    else
      match SamplePatches(geo, rng)
      case Err(e) => Err(e)
      case Ok(d) => CatalogFrom(acc + Product(samples[0], d.value), samples[1..], geo, d.rest)
  }

  function PatchCatalog(samples: seq<int>, geo: Geometry, rng: Rng): Result<Drawn<seq<PatchRef>>>
  {
    CatalogFrom([], samples, geo, rng)
  }

  /** `create_patch_index_list`: extends the list sample by sample. */
  method CreatePatchIndexList(samples: seq<int>, geo: Geometry, rng: Rng) returns (r: Result<Drawn<seq<PatchRef>>>)
    ensures r == PatchCatalog(samples, geo, rng)
  {
    var patchIndex: seq<PatchRef> := [];
    var stream := rng;
    for i := 0 to |samples|
      invariant CatalogFrom(patchIndex, samples[i..], geo, stream) == PatchCatalog(samples, geo, rng)
    {
      assert samples[i..][1..] == samples[i + 1..];
      var patches := SamplePatches(geo, stream);
      if patches.Err? {
        return Err(patches.error);
      }
      patchIndex := patchIndex + Product(samples[i], patches.value.value);
      stream := patches.value.rest;
    }
    r := Ok(Drawn(patchIndex, stream));
  }

  lemma MulSucc(a: nat, b: nat)
    requires a >= 1
    ensures a * b == b + (a - 1) * b
  {
  }

  /** Without an offset bound every sample gets the same grid G: the catalog
      is |samples| blocks of |G| refs and no draw is used. */
  lemma {:induction false} CatalogWithoutOffsetShape(acc: seq<PatchRef>, samples: seq<int>, geo: Geometry, rng: Rng)
    requires geo.startOffset.None?
    ensures var g := geo.computePatchIndices(geo.imageShape, geo.patchShape, geo.overlap, None);
      var r := CatalogFrom(acc, samples, geo, rng);
      r.Ok? && r.value.rest == rng &&
      |r.value.value| == |acc| + |samples| * |g| &&
      r.value.value[..|acc|] == acc
    decreases |samples|
  {
    var g := geo.computePatchIndices(geo.imageShape, geo.patchShape, geo.overlap, None);
    if |samples| > 0 {
      var acc' := acc + Product(samples[0], g);
      CatalogWithoutOffsetShape(acc', samples[1..], geo, rng);
      var r := CatalogFrom(acc', samples[1..], geo, rng).value.value;
      MulSucc(|samples|, |g|);
      assert r[..|acc|] == r[..|acc'|][..|acc|];
    }
  }

  /** Without an offset bound, ref j of sample i sits at `i * |G| + j`. */
  lemma {:induction false} CatalogWithoutOffsetAt(
    acc: seq<PatchRef>, samples: seq<int>, geo: Geometry, rng: Rng, i: nat, j: nat)
    requires geo.startOffset.None?
    requires var g := geo.computePatchIndices(geo.imageShape, geo.patchShape, geo.overlap, None);
      i < |samples| && j < |g|
    ensures var g := geo.computePatchIndices(geo.imageShape, geo.patchShape, geo.overlap, None);
      var r := CatalogFrom(acc, samples, geo, rng);
      r.Ok? && |acc| + i * |g| + j < |r.value.value| &&
      r.value.value[|acc| + i * |g| + j] == PatchRef(samples[i], g[j])
    decreases i
  {
    var g := geo.computePatchIndices(geo.imageShape, geo.patchShape, geo.overlap, None);
    CatalogWithoutOffsetShape(acc, samples, geo, rng);
    var acc' := acc + Product(samples[0], g);
    CatalogWithoutOffsetShape(acc', samples[1..], geo, rng);
    var r := CatalogFrom(acc', samples[1..], geo, rng).value.value;
    if i == 0 {
      assert r[|acc| + j] == r[..|acc'|][|acc| + j];
    } else {
      CatalogWithoutOffsetAt(acc', samples[1..], geo, rng, i - 1, j);
      MulSucc(i, |g|);
      assert samples[1..][i - 1] == samples[i];
    }
  }

  /** Without an offset bound a ref is in the catalog exactly when its sample
      is one of the samples and its corner is on the grid. */
  lemma {:induction false} CatalogWithoutOffsetMembers(acc: seq<PatchRef>, samples: seq<int>, geo: Geometry, rng: Rng)
    requires geo.startOffset.None?
    ensures var g := geo.computePatchIndices(geo.imageShape, geo.patchShape, geo.overlap, None);
      var r := CatalogFrom(acc, samples, geo, rng);
      r.Ok? && forall x :: x in r.value.value <==> x in acc || (x.sample in samples && x.coord in g)
    decreases |samples|
  {
    var g := geo.computePatchIndices(geo.imageShape, geo.patchShape, geo.overlap, None);
    if |samples| > 0 {
      var block := Product(samples[0], g);
      CatalogWithoutOffsetMembers(acc + block, samples[1..], geo, rng);
      assert forall x: PatchRef :: x in block <==> x.sample == samples[0] && x.coord in g by {
        forall x: PatchRef | x.sample == samples[0] && x.coord in g
          ensures x in block
        {
          var j :| 0 <= j < |g| && g[j] == x.coord;
          assert block[j] == x;
        }
      }
      assert forall s :: s in samples <==> s == samples[0] || s in samples[1..] by {
        assert samples == [samples[0]] + samples[1..];
      }
    }
  }

  /** With an offset bound, one numpy draw is used per sample (the catalog is
      built exactly when there are enough), and every ref belongs to one of
      the given samples. */
  lemma {:induction false} CatalogWithOffset(acc: seq<PatchRef>, samples: seq<int>, geo: Geometry, rng: Rng)
    requires geo.startOffset.Some?
    ensures var r := CatalogFrom(acc, samples, geo, rng);
      (r.Ok? <==> |rng.ndIndices| >= |samples|) &&
      (r.Ok? ==>
        r.value.rest == rng.(ndIndices := rng.ndIndices[|samples|..]) &&
        |acc| <= |r.value.value| && r.value.value[..|acc|] == acc &&
        forall k :: |acc| <= k < |r.value.value| ==> r.value.value[k].sample in samples)
    decreases |samples|
  {
    if |samples| > 0 && |rng.ndIndices| > 0 {
      var d := RandomNdIndex(rng).value;
      var block := geo.computePatchIndices(geo.imageShape, geo.patchShape, geo.overlap, Some(Negate(d.value)));
      var acc' := acc + Product(samples[0], block);
      CatalogWithOffset(acc', samples[1..], geo, d.rest);
      var r := CatalogFrom(acc', samples[1..], geo, d.rest);
      if r.Ok? {
        var v := r.value.value;
        assert rng.ndIndices[1..][|samples| - 1..] == rng.ndIndices[|samples|..];
        assert v[..|acc|] == v[..|acc'|][..|acc|];
        forall k | |acc| <= k < |v|
          ensures v[k].sample in samples
        {
          if k < |acc'| {
            assert v[k] == v[..|acc'|][k];
          } else {
            assert v[k].sample in samples[1..];
          }
        }
      }
    }
  }

  /** `int(x)` on a float: truncation toward zero. */
  function Trunc(x: real): (t: int)
    ensures x >= 0.0 ==> t as real <= x < t as real + 1.0
    ensures x < 0.0 ==> t as real - 1.0 < x <= t as real
  {
    if x >= 0.0 then x.Floor else -((-x).Floor)
  }

  /** Where a Python slice bound n falls in a list of length len: a negative
      bound counts from the end, and both are clamped to the list. */
  function SliceBound(len: nat, n: int): (b: nat)
    ensures b <= len
    ensures 0 <= n <= len ==> b == n
  {
    if n < 0 then (if len + n < 0 then 0 else len + n) else if n > len then len else n
  }

  /** Where `split_a_list` cuts a list of length len: `int(len * split)` as
      a slice bound. */
  function CutPoint(len: nat, split: real): (c: nat)
    ensures c <= len
    ensures 0.0 <= split <= 1.0 ==> c == (len as real * split).Floor
  {
    if 0.0 <= split <= 1.0 then FractionFloor(len, split); SliceBound(len, Trunc(len as real * split))
    else SliceBound(len, Trunc(len as real * split))
  }

  /** The pair `split_a_list` returns. */
  datatype Split = Split(training: seq<int>, testing: seq<int>)

  /** `split_a_list`: optionally shuffles, then cuts at `int(len * split)`
      with Python's slice rules. */
  function SplitAList(input: seq<int>, split: real, shuffleList: bool, rng: Rng): Result<Drawn<Split>>
  {
    var shuffled := if shuffleList then Shuffle(input, rng) else Ok(Drawn(input, rng));
    match shuffled
    case Err(e) => Err(e)
    case Ok(d) =>
      var cut := CutPoint(|d.value|, split);
      Ok(Drawn(Split(d.value[..cut], d.value[cut..]), d.rest))
  }

  lemma FractionFloor(len: nat, split: real)
    requires 0.0 <= split <= 1.0
    ensures 0 <= (len as real * split).Floor <= len
  {
    var l := len as real;
    assert l * split + l * (1.0 - split) == l;
    assert l * (1.0 - split) >= 0.0;
    assert l * split >= 0.0;
  }

  /** The two parts of a split are a partition of the (shuffled) input, and
      without shuffling the order is kept. */
  lemma SplitAListPartition(input: seq<int>, split: real, shuffleList: bool, rng: Rng)
    ensures var r := SplitAList(input, split, shuffleList, rng);
      (r.Ok? <==> !shuffleList || |rng.draws| >= |input|) &&
      (r.Ok? ==>
        multiset(r.value.value.training + r.value.value.testing) == multiset(input) &&
        (!shuffleList ==> r.value.value.training + r.value.value.testing == input))
  {
    var r := SplitAList(input, split, shuffleList, rng);
    if r.Ok? {
      var d := if shuffleList then Shuffle(input, rng).value else Drawn(input, rng);
      var cut := CutPoint(|d.value|, split);
      assert d.value[..cut] + d.value[cut..] == d.value;
    }
  }

  /** For a fraction in [0, 1] the training part holds `int(len * split)`
      elements. */
  lemma SplitAListSize(input: seq<int>, split: real, shuffleList: bool, rng: Rng)
    requires 0.0 <= split <= 1.0
    ensures var r := SplitAList(input, split, shuffleList, rng);
      r.Ok? ==> |r.value.value.training| == (|input| as real * split).Floor
  {
    var r := SplitAList(input, split, shuffleList, rng);
    if r.Ok? {
      var d := if shuffleList then Shuffle(input, rng).value else Drawn(input, rng);
      assert |d.value| == |input|;
      var cut := CutPoint(|input|, split);
      assert r.value.value.training == d.value[..cut];
    }
  }

  /** `get_validation_split` on the pickle files: its outcome and the files
      after the call. A recompute shuffles `range(nb_samples)` (the split is
      computed and thrown away), then returns and persists
      `split_list[0]` and `split_list[1]`. */
  function ValidationSplit(
    files: map<string, seq<int>>, nbSamples: nat, trainingFile: string, validationFile: string,
    dataSplit: real, changeValidation: bool, splitList: seq<seq<int>>, rng: Rng)
    : (Result<Drawn<Split>>, map<string, seq<int>>)
  {
    if changeValidation || trainingFile !in files then
      match SplitAList(seq(nbSamples, i => i), dataSplit, true, rng)
      case Err(e) => (Err(e), files)
      case Ok(d) =>
        if |splitList| < 2 then (Err(IndexError), files)
        else
          var files' := files[trainingFile := splitList[0]][validationFile := splitList[1]];
          (Ok(Drawn(Split(splitList[0], splitList[1]), d.rest)), files')
    else if validationFile !in files then (Err(FileNotFoundError), files)
    else (Ok(Drawn(Split(files[trainingFile], files[validationFile]), rng)), files)
  }

  /** `get_validation_split`. */
  method GetValidationSplit(
    disk: Disk<seq<int>>, nbSamples: nat, trainingFile: string, validationFile: string,
    dataSplit: real, changeValidation: bool, splitList: seq<seq<int>>, rng: Rng)
    returns (r: Result<Drawn<Split>>)
    modifies disk
    ensures (r, disk.files) ==
      ValidationSplit(old(disk.files), nbSamples, trainingFile, validationFile, dataSplit, changeValidation, splitList, rng)
  {
    var exists_ := disk.Exists(trainingFile);
    if changeValidation || !exists_ {
      var computed := SplitAList(seq(nbSamples, i => i), dataSplit, true, rng);
      if computed.Err? {
        return Err(computed.error);
      }
      if |splitList| < 2 {
        return Err(IndexError);
      }
      disk.Dump(trainingFile, splitList[0]);
      disk.Dump(validationFile, splitList[1]);
      return Ok(Drawn(Split(splitList[0], splitList[1]), computed.value.rest));
    }
    var training := disk.Load(trainingFile);
    var validation := disk.Load(validationFile);
    if validation.Err? {
      return Err(validation.error);
    }
    r := Ok(Drawn(Split(training.value, validation.value), rng));
  }

  /** The cache rule: a recompute happens exactly when `change_validation` is
      set or the training file is missing, and then returns and persists
      `split_list` whatever `data_split` says; otherwise the persisted lists
      come back unchanged, no draw is used and nothing is written. */
  lemma ValidationSplitCache(
    files: map<string, seq<int>>, nbSamples: nat, trainingFile: string, validationFile: string,
    dataSplit: real, changeValidation: bool, splitList: seq<seq<int>>, rng: Rng)
    ensures var (r, files') :=
      ValidationSplit(files, nbSamples, trainingFile, validationFile, dataSplit, changeValidation, splitList, rng);
      ((changeValidation || trainingFile !in files) ==>
        (r.Ok? <==> |rng.draws| >= nbSamples && |splitList| >= 2) &&
        (r.Ok? ==> r.value.value == Split(splitList[0], splitList[1]) &&
                   files' == files[trainingFile := splitList[0]][validationFile := splitList[1]]) &&
        (r.Err? ==> files' == files)) &&
      ((!changeValidation && trainingFile in files) ==>
        files' == files &&
        (validationFile in files ==> r == Ok(Drawn(Split(files[trainingFile], files[validationFile]), rng))) &&
        (validationFile !in files ==> r == Err(FileNotFoundError)))
  {
    SplitAListPartition(seq(nbSamples, i => i), dataSplit, true, rng);
  }

  /** A second call that does not ask for a change returns what the first
      one returned, when the two files are distinct. */
  lemma ValidationSplitIdempotent(
    files: map<string, seq<int>>, nbSamples: nat, trainingFile: string, validationFile: string,
    dataSplit: real, changeValidation: bool, splitList: seq<seq<int>>, rng: Rng, rng2: Rng)
    requires trainingFile != validationFile
    requires ValidationSplit(files, nbSamples, trainingFile, validationFile, dataSplit, changeValidation, splitList, rng).0.Ok?
    ensures var (r, files') :=
      ValidationSplit(files, nbSamples, trainingFile, validationFile, dataSplit, changeValidation, splitList, rng);
      var (r2, files'') :=
        ValidationSplit(files', nbSamples, trainingFile, validationFile, dataSplit, false, splitList, rng2);
      r2.Ok? && r2.value.value == r.value.value && r2.value.rest == rng2 && files'' == files'
  {
    ValidationSplitCache(files, nbSamples, trainingFile, validationFile, dataSplit, changeValidation, splitList, rng);
    var (r, files') :=
      ValidationSplit(files, nbSamples, trainingFile, validationFile, dataSplit, changeValidation, splitList, rng);
    ValidationSplitCache(files', nbSamples, trainingFile, validationFile, dataSplit, false, splitList, rng2);
    assert trainingFile in files' && validationFile in files';
    assert files'[trainingFile] == r.value.value.training && files'[validationFile] == r.value.value.testing;
  }

  /** `np.remainder` and `//` on Python integers: floor division. */
  function FloorDiv(a: int, b: int): int
    requires b != 0
  {
    if b > 0 then a / b else (-a) / (-b)
  }

  function FloorMod(a: int, b: int): int
    requires b != 0
  {
    a - b * FloorDiv(a, b)
  }

  /** `get_number_of_steps`: the number of samples itself when it fits in one
      batch, otherwise the number of batches, rounded up. */
  function GetNumberOfSteps(nSamples: int, batchSize: int): (r: Result<int>)
    ensures nSamples <= batchSize ==> r == Ok(nSamples)
    ensures 0 < batchSize < nSamples ==>
      r.Ok? && (r.value - 1) * batchSize < nSamples <= r.value * batchSize
    ensures batchSize == 0 < nSamples ==> r == Err(ZeroDivisionError)
  {
    if nSamples <= batchSize then Ok(nSamples)
    else if batchSize == 0 then Err(ZeroDivisionError)
    else if FloorMod(nSamples, batchSize) == 0 then Ok(FloorDiv(nSamples, batchSize))
    else Ok(FloorDiv(nSamples, batchSize) + 1)
  }
}
