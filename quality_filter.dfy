/** The quality filters over a patch catalog: `get_patches_with_ground_truth`
    keeps the refs whose label patch has a nonzero mean, and
    `get_patches_with_intensity_ceil` keeps the refs whose first image channel
    rises above a ceiling while tallying the lesion refs it keeps and drops.
    Both pop the caller's list until it is empty. `save_patches_with_gt` and
    `save_patches_with_ceil` cache their output in a pickle file. */
module QualityFilter {
  import opened Py
  import opened Volumes
  import opened RandomSource
  import opened PatchData
  import opened Catalog

  /** `np.mean(truth) != 0` on the ref's label patch. */
  predicate HasGroundTruth(store: Store, ref: PatchRef)
  {
    CubeMean(store.patch(ref).truth) != 0.0
  }

  /** `np.mean(truth) > 0` on the ref's label patch. */
  predicate IsLesion(store: Store, ref: PatchRef)
  {
    CubeMean(store.patch(ref).truth) > 0.0
  }

  /** `np.max(data[0]) > ceil` on the ref's image patch. */
  predicate AboveCeil(store: Store, ceil: real, ref: PatchRef)
  {
    Channel0Max(store.patch(ref).data) > ceil
  }

  /** The refs in the order `pop()` hands them out. */
  function Reversed<T>(s: seq<T>): (r: seq<T>)
    ensures |r| == |s| && forall i :: 0 <= i < |s| ==> r[i] == s[|s| - 1 - i]
  {
    seq(|s|, i requires 0 <= i < |s| => s[|s| - 1 - i])
  }

  /** Popping a whole list twice over gives it back in its own order. */
  lemma ReversedTwice<T>(s: seq<T>)
    ensures Reversed(Reversed(s)) == s
  {
    var rr := Reversed(Reversed(s));
    forall i | 0 <= i < |s|
      ensures rr[i] == s[i]
    {
      assert Reversed(s)[|s| - 1 - i] == s[i];
    }
  }

  /** Popping `a + b` hands out b's refs, last first, before a's. */
  lemma ReversedAppend<T>(a: seq<T>, b: seq<T>)
    ensures Reversed(a + b) == Reversed(b) + Reversed(a)
  {
    var l, r := Reversed(a + b), Reversed(b) + Reversed(a);
    forall i | 0 <= i < |a| + |b|
      ensures l[i] == r[i]
    {
      if i < |b| {
        assert r[i] == Reversed(b)[i];
      } else {
        assert r[i] == Reversed(a)[i - |b|];
      }
    }
  }

  /** The per-ref tests the filters apply or tally. */
  datatype Test =
    | GroundTruth
    | Lesion
    | Above(ceil: real)
    | TruePositive(ceil: real)
    | FalseNegative(ceil: real)

  predicate Passes(store: Store, test: Test, ref: PatchRef)
  {
    match test
    case GroundTruth => HasGroundTruth(store, ref)
    case Lesion => IsLesion(store, ref)
    case Above(ceil) => AboveCeil(store, ceil, ref)
    case TruePositive(ceil) => AboveCeil(store, ceil, ref) && IsLesion(store, ref)
    case FalseNegative(ceil) => !AboveCeil(store, ceil, ref) && IsLesion(store, ref)
  }

  /** The elements of s that pass `test`, in order. */
  function Keep(s: seq<PatchRef>, store: Store, test: Test): seq<PatchRef>
  {
    if |s| == 0 then []
    else Keep(s[..|s| - 1], store, test) + (if Passes(store, test, s[|s| - 1]) then [s[|s| - 1]] else [])
  }

  /** How many elements of s pass `test`. */
  function Count(s: seq<PatchRef>, store: Store, test: Test): nat
  {
    if |s| == 0 then 0
    else Count(s[..|s| - 1], store, test) + (if Passes(store, test, s[|s| - 1]) then 1 else 0)
  }

  lemma ReversedMembers<T>(s: seq<T>)
    ensures forall x :: x in Reversed(s) <==> x in s
  {
    forall x | x in s
      ensures x in Reversed(s)
    {
      var i :| 0 <= i < |s| && s[i] == x;
      assert Reversed(s)[|s| - 1 - i] == x;
    }
  }

  /** A ref is kept exactly when it is in the input and passes; there are
      never more kept refs than input refs. */
  lemma {:induction false} KeepMembers(s: seq<PatchRef>, store: Store, test: Test)
    ensures |Keep(s, store, test)| <= |s|
    ensures forall x :: x in Keep(s, store, test) <==> x in s && Passes(store, test, x)
  {
    if |s| > 0 {
      KeepMembers(s[..|s| - 1], store, test);
      assert s == s[..|s| - 1] + [s[|s| - 1]];
    }
  }

  /** The two tallies of the ceiling filter split the lesion refs. */
  lemma {:induction false} CountSplit(s: seq<PatchRef>, store: Store, ceil: real)
    ensures Count(s, store, TruePositive(ceil)) + Count(s, store, FalseNegative(ceil)) == Count(s, store, Lesion)
  {
    if |s| > 0 {
      CountSplit(s[..|s| - 1], store, ceil);
    }
  }

  lemma {:induction false} CountFront(s: seq<PatchRef>, store: Store, test: Test)
    requires |s| > 0
    ensures Count(s, store, test) == (if Passes(store, test, s[0]) then 1 else 0) + Count(s[1..], store, test)
  {
    if |s| > 1 {
      CountFront(s[..|s| - 1], store, test);
      assert s[..|s| - 1][1..] == s[1..][..|s| - 2];
    }
  }

  /** A tally does not depend on the order the refs are popped in. */
  lemma {:induction false} CountReversed(s: seq<PatchRef>, store: Store, test: Test)
    ensures Count(Reversed(s), store, test) == Count(s, store, test)
  {
    if |s| > 0 {
      CountReversed(s[..|s| - 1], store, test);
      CountFront(Reversed(s), store, test);
      assert Reversed(s)[1..] == Reversed(s[..|s| - 1]);
    }
  }

  lemma {:induction false} CountZero(s: seq<PatchRef>, store: Store, test: Test)
    ensures Count(s, store, test) == 0 <==> forall i :: 0 <= i < |s| ==> !Passes(store, test, s[i])
  {
    if |s| > 0 {
      CountZero(s[..|s| - 1], store, test);
    }
  }

  lemma ReversedStep<T>(s: seq<T>, k: nat)
    requires 0 < k <= |s|
    ensures Reversed(s[k - 1..]) == Reversed(s[k..]) + [s[k - 1]]
  {
  }

  /** `get_patches_with_ground_truth`: empties the caller's list and returns,
      in pop order, the refs whose label patch has a nonzero mean. */
  method GetPatchesWithGroundTruth(indexList: List<PatchRef>, store: Store) returns (kept: seq<PatchRef>)
    modifies indexList
    ensures indexList.items == []
    ensures kept == Keep(Reversed(old(indexList.items)), store, GroundTruth)
  {
    ghost var original := indexList.items;
    kept := [];
    while |indexList.items| > 0
      invariant indexList.items == original[..|indexList.items|]
      invariant kept == Keep(Reversed(original[|indexList.items|..]), store, GroundTruth)
      decreases |indexList.items|
    {
      var index := indexList.Pop();
      ReversedStep(original, |indexList.items| + 1);
      assert original[|indexList.items|] == index;
      if HasGroundTruth(store, index) {
        kept := kept + [index];
      }
    }
    assert original[0..] == original;
  }

  /** What `get_patches_with_intensity_ceil` returns: the refs above the
      ceiling in pop order, unless no ref is a lesion, when the percentage it
      prints divides by zero. */
  function CeilOutcome(refs: seq<PatchRef>, store: Store, ceil: real): Result<seq<PatchRef>>
  {
    if Count(refs, store, Lesion) == 0 then Err(ZeroDivisionError)
    else Ok(Keep(Reversed(refs), store, Above(ceil)))
  }

  /** `get_patches_with_intensity_ceil`: empties the caller's list; `tp`
      counts the lesion refs kept and `fn` the lesion refs dropped. */
  method GetPatchesWithIntensityCeil(indexList: List<PatchRef>, store: Store, ceil: real)
    returns (r: Result<seq<PatchRef>>, tp: nat, fn: nat)
    modifies indexList
    ensures indexList.items == []
    ensures tp == Count(old(indexList.items), store, TruePositive(ceil))
    ensures fn == Count(old(indexList.items), store, FalseNegative(ceil))
    ensures r == CeilOutcome(old(indexList.items), store, ceil)
  {
    ghost var original := indexList.items;
    var kept: seq<PatchRef> := [];
    tp, fn := 0, 0;
    while |indexList.items| > 0
      invariant indexList.items == original[..|indexList.items|]
      invariant kept == Keep(Reversed(original[|indexList.items|..]), store, Above(ceil))
      invariant tp == Count(Reversed(original[|indexList.items|..]), store, TruePositive(ceil))
      invariant fn == Count(Reversed(original[|indexList.items|..]), store, FalseNegative(ceil))
      decreases |indexList.items|
    {
      var index := indexList.Pop();
      ReversedStep(original, |indexList.items| + 1);
      assert original[|indexList.items|] == index;
      if AboveCeil(store, ceil, index) {
        kept := kept + [index];
        if IsLesion(store, index) {
          tp := tp + 1;
        }
      } else {
        if IsLesion(store, index) {
          fn := fn + 1;
        }
      }
    }
    assert original[0..] == original;
    CountReversed(original, store, TruePositive(ceil));
    CountReversed(original, store, FalseNegative(ceil));
    CountSplit(original, store, ceil);
    if tp + fn == 0 {
      r := Err(ZeroDivisionError);
    } else {
      r := Ok(kept);
    }
  }

  /** The division by zero happens exactly when no ref is a lesion; otherwise
      a ref is kept exactly when it is in the input and above the ceiling. */
  lemma CeilOutcomeSpec(refs: seq<PatchRef>, store: Store, ceil: real)
    ensures var r := CeilOutcome(refs, store, ceil);
      (r.Err? <==> forall i :: 0 <= i < |refs| ==> !IsLesion(store, refs[i])) &&
      (r.Ok? ==> forall x :: x in r.value <==> x in refs && AboveCeil(store, ceil, x))
  {
    CountZero(refs, store, Lesion);
    KeepMembers(Reversed(refs), store, Above(ceil));
    ReversedMembers(refs);
  }

  /** The ground-truth filter keeps exactly the refs of the input with a
      nonzero label mean; for a label without negative voxels that is the
      same test as skip_blank in `add_data_mp` (without augmentation or
      permutation), so a kept ref is never dropped later by the assembler and
      a dropped one would have been. */
  lemma GroundTruthFilterSpec(refs: seq<PatchRef>, store: Store, ref: PatchRef, affine: Affine, p: Policy, tf: Transforms)
    requires NonNegative(store.patch(ref).truth)
    requires !p.augment && !p.permute && p.skipBlank
    ensures ref in Keep(Reversed(refs), store, GroundTruth) <==> ref in refs && HasGroundTruth(store, ref)
    ensures HasGroundTruth(store, ref) <==> AnyNonzero(store.patch(ref).truth)
    ensures HasGroundTruth(store, ref) <==> AddDataMp(store.patch(ref), affine, p, tf).value.xs != []
  {
    KeepMembers(Reversed(refs), store, GroundTruth);
    ReversedMembers(refs);
    MeanNonzeroIffForeground(store.patch(ref).truth);
  }

  /** Which filter a save applies. */
  datatype Filter = KeepGroundTruth | IntensityCeil(ceil: real)

  function FilterTest(filter: Filter): Test
  {
    match filter
    case KeepGroundTruth => GroundTruth
    case IntensityCeil(ceil) => Above(ceil)
  }

  /** `save_patches_with_gt` / `save_patches_with_ceil` on the pickle files:
      the random stream after the call and the files after it. The file is
      rebuilt only when it is missing or `overwrite` is set. */
  function SavedPatches(
    files: map<string, seq<PatchRef>>, samples: seq<int>, store: Store, geo: Geometry,
    path: string, overwrite: bool, filter: Filter, rng: Rng)
    : (Result<Rng>, map<string, seq<PatchRef>>)
  {
    if path in files && !overwrite then (Ok(rng), files)
    else
      match PatchCatalog(samples, geo, rng)
      case Err(e) => (Err(e), files)
      case Ok(d) =>
        match filter
        case KeepGroundTruth =>
          (Ok(d.rest), files[path := Keep(Reversed(d.value), store, GroundTruth)])
        case IntensityCeil(ceil) =>
          match CeilOutcome(d.value, store, ceil)
          case Err(e) => (Err(e), files)
          case Ok(kept) => (Ok(d.rest), files[path := kept])
  }

  /** `save_patches_with_gt`. */
  method SavePatchesWithGt(
    disk: Disk<seq<PatchRef>>, samples: seq<int>, store: Store, geo: Geometry, path: string, overwrite: bool, rng: Rng)
    returns (r: Result<Rng>)
    modifies disk
    ensures (r, disk.files) == SavedPatches(old(disk.files), samples, store, geo, path, overwrite, KeepGroundTruth, rng)
  {
    var present := disk.Exists(path);
    if present && !overwrite {
      return Ok(rng);
    }
    var catalog := CreatePatchIndexList(samples, geo, rng);
    if catalog.Err? {
      return Err(catalog.error);
    }
    var indexList := new List<PatchRef>(catalog.value.value);
    var kept := GetPatchesWithGroundTruth(indexList, store);
    disk.Dump(path, kept);
    r := Ok(catalog.value.rest);
  }

  /** `save_patches_with_ceil`. */
  method SavePatchesWithCeil(
    disk: Disk<seq<PatchRef>>, samples: seq<int>, store: Store, geo: Geometry, path: string, overwrite: bool,
    ceil: real, rng: Rng)
    returns (r: Result<Rng>)
    modifies disk
    ensures (r, disk.files) == SavedPatches(old(disk.files), samples, store, geo, path, overwrite, IntensityCeil(ceil), rng)
  {
    var present := disk.Exists(path);
    if present && !overwrite {
      return Ok(rng);
    }
    var catalog := CreatePatchIndexList(samples, geo, rng);
    if catalog.Err? {
      return Err(catalog.error);
    }
    var indexList := new List<PatchRef>(catalog.value.value);
    var kept, tp, fn := GetPatchesWithIntensityCeil(indexList, store, ceil);
    if kept.Err? {
      return Err(kept.error);
    }
    disk.Dump(path, kept.value);
    r := Ok(catalog.value.rest);
  }

  /** The cache rule of both saves: an existing file is left alone unless
      `overwrite` is set, and no draw is used; otherwise the file is rebuilt
      from a fresh catalog, holding exactly the catalog refs that pass the
      filter, and nothing else changes. */
  lemma SavedPatchesCache(
    files: map<string, seq<PatchRef>>, samples: seq<int>, store: Store, geo: Geometry,
    path: string, overwrite: bool, filter: Filter, rng: Rng)
    ensures var (r, files') := SavedPatches(files, samples, store, geo, path, overwrite, filter, rng);
      (path in files && !overwrite ==> r == Ok(rng) && files' == files) &&
      (r.Err? ==> files' == files) &&
      ((path !in files || overwrite) && r.Ok? ==>
        var catalog := PatchCatalog(samples, geo, rng).value;
        r.value == catalog.rest && path in files' && files' == files[path := files'[path]] &&
        forall x :: x in files'[path] <==> (x in catalog.value && Passes(store, FilterTest(filter), x)))
  {
    if (path !in files || overwrite) && PatchCatalog(samples, geo, rng).Ok? {
      var catalog := PatchCatalog(samples, geo, rng).value;
      match filter
      case KeepGroundTruth =>
        KeepMembers(Reversed(catalog.value), store, GroundTruth);
        ReversedMembers(catalog.value);
      case IntensityCeil(ceil) =>
        CeilOutcomeSpec(catalog.value, store, ceil);
    }
  }
}
