/** `get_patches_index_list`: for the source centre and then the target
    centre, split the subjects into training and validation keys, then turn
    each key list into a patch index list, filtered by ground truth when
    `skip_blank` is set, else by intensity when a ceiling is given, else not
    at all. Every patch list is stored in a pickle file named after the
    centre. */
module IndexLists {
  import opened Py
  import opened Volumes
  import opened RandomSource
  import opened PatchData
  import opened Catalog
  import opened QualityFilter

  /** One centre: its data file (subject count, image shape, patches), its
      two key files and its id. */
  datatype Domain = Domain(
    nbSamples: nat,
    imageShape: Dims,
    store: Store,
    trainingKeys: string,
    validationKeys: string,
    center: string)

  /** The keyword arguments shared by both centres. `validationOverlap` is
      accepted but never used: both lists are cut with `trainingOverlap`. */
  datatype Options = Options(
    dataSplit: real,
    changeValidation: bool,
    patchShape: Dims,
    skipBlank: bool,
    trainingOverlap: real,
    validationOverlap: real,
    startOffset: Option<Coord>,
    ceil: Option<real>,
    grid: (Dims, Dims, real, Option<Coord>) -> seq<Coord>)

  datatype IndexLists = IndexLists(training: seq<PatchRef>, validation: seq<PatchRef>)

  function TrainingPath(center: string): string
  {
    "Data/generated_data/training_list_gt_" + center
  }

  function ValidationPath(center: string): string
  {
    "Data/generated_data/validation_list_gt_" + center
  }

  /** The two lists of a centre never share a file. */
  lemma PathsDiffer(center: string)
    ensures TrainingPath(center) != ValidationPath(center)
  {
    assert TrainingPath(center)[20] == 't' && ValidationPath(center)[20] == 'v';
  }

  /** `skip_blank` wins over `ceil`, which wins over no filter. */
  function Dispatch(o: Options): Option<Filter>
  {
    if o.skipBlank then Some(KeepGroundTruth)
    else if o.ceil.Some? then Some(IntensityCeil(o.ceil.value))
    else None
  }

  /** Whether the chosen filter lets a ref through. */
  predicate Admitted(o: Options, store: Store, ref: PatchRef)
  {
    match Dispatch(o)
    case None => true
    case Some(f) => Passes(store, FilterTest(f), ref)
  }

  function DomainGeometry(d: Domain, o: Options): Geometry
  {
    Geometry(d.imageShape, o.patchShape, o.trainingOverlap, o.startOffset, o.grid)
  }

  /** One patch list: through `save_patches_with_*` and the load that follows,
      or, without a filter, built and dumped unconditionally. */
  function PatchList(
    files: map<string, seq<PatchRef>>, samples: seq<int>, d: Domain, o: Options, path: string, rng: Rng)
    : (Result<Drawn<seq<PatchRef>>>, map<string, seq<PatchRef>>)
  {
    var geo := DomainGeometry(d, o);
    match Dispatch(o)
    case Some(f) =>
      var (saved, files') := SavedPatches(files, samples, d.store, geo, path, o.changeValidation, f, rng);
      if saved.Err? then (Err(saved.error), files')
      else if path !in files' then (Err(FileNotFoundError), files')
      else (Ok(Drawn(files'[path], saved.value)), files')
    case None =>
      match PatchCatalog(samples, geo, rng)
      case Err(e) => (Err(e), files)
      case Ok(c) => (Ok(c), files[path := c.value])
  }

  /** One centre: the key split, then its training and validation lists. */
  function DomainLists(
    keys: map<string, seq<int>>, files: map<string, seq<PatchRef>>, d: Domain, o: Options,
    splitList: seq<seq<int>>, rng: Rng)
    : (Result<Drawn<IndexLists>>, map<string, seq<int>>, map<string, seq<PatchRef>>)
  {
    var (split, keys') := ValidationSplit(
      keys, d.nbSamples, d.trainingKeys, d.validationKeys, o.dataSplit, o.changeValidation, splitList, rng);
    if split.Err? then (Err(split.error), keys', files)
    else
      var (training, files') := PatchList(files, split.value.value.training, d, o, TrainingPath(d.center), split.value.rest);
      if training.Err? then (Err(training.error), keys', files')
      else
        var (validation, files'') :=
          PatchList(files', split.value.value.testing, d, o, ValidationPath(d.center), training.value.rest);
        if validation.Err? then (Err(validation.error), keys', files'')
        else (Ok(Drawn(IndexLists(training.value.value, validation.value.value), validation.value.rest)), keys', files'')
  }

  /** `get_patches_index_list`: the source centre with `split_list[0]`, then
      the target centre with `split_list[1]`; indexing `split_list` past its
      end raises only once the source work is done. */
  function PatchesIndexList(
    keys: map<string, seq<int>>, files: map<string, seq<PatchRef>>, source: Domain, target: Domain, o: Options,
    splitList: seq<seq<seq<int>>>, rng: Rng)
    : (Result<Drawn<(IndexLists, IndexLists)>>, map<string, seq<int>>, map<string, seq<PatchRef>>)
  {
    if |splitList| < 1 then (Err(IndexError), keys, files)
    else
      var (s, keys', files') := DomainLists(keys, files, source, o, splitList[0], rng);
      if s.Err? then (Err(s.error), keys', files')
      else if |splitList| < 2 then (Err(IndexError), keys', files')
      else
        var (t, keys'', files'') := DomainLists(keys', files', target, o, splitList[1], s.value.rest);
        if t.Err? then (Err(t.error), keys'', files'')
        else (Ok(Drawn((s.value.value, t.value.value), t.value.rest)), keys'', files'')
  }

  method PreparePatchList(
    disk: Disk<seq<PatchRef>>, samples: seq<int>, d: Domain, o: Options, path: string, rng: Rng)
    returns (r: Result<Drawn<seq<PatchRef>>>)
    modifies disk
    ensures (r, disk.files) == PatchList(old(disk.files), samples, d, o, path, rng)
  {
    var geo := DomainGeometry(d, o);
    if o.skipBlank {
      var saved := SavePatchesWithGt(disk, samples, d.store, geo, path, o.changeValidation, rng);
      if saved.Err? {
        return Err(saved.error);
      }
      var loaded := disk.Load(path);
      return match loaded
        case Ok(v) => Ok(Drawn(v, saved.value))
        case Err(e) => Err(e);
    } else if o.ceil.Some? {
      var saved := SavePatchesWithCeil(disk, samples, d.store, geo, path, o.changeValidation, o.ceil.value, rng);
      if saved.Err? {
        return Err(saved.error);
      }
      var loaded := disk.Load(path);
      return match loaded
        case Ok(v) => Ok(Drawn(v, saved.value))
        case Err(e) => Err(e);
    }
    r := CreatePatchIndexList(samples, geo, rng);
    if r.Ok? {
      disk.Dump(path, r.value.value);
    }
  }

  method PrepareDomain(
    keys: Disk<seq<int>>, disk: Disk<seq<PatchRef>>, d: Domain, o: Options, splitList: seq<seq<int>>, rng: Rng)
    returns (r: Result<Drawn<IndexLists>>)
    modifies keys, disk
    ensures (r, keys.files, disk.files) == DomainLists(old(keys.files), old(disk.files), d, o, splitList, rng)
  {
    var split := GetValidationSplit(
      keys, d.nbSamples, d.trainingKeys, d.validationKeys, o.dataSplit, o.changeValidation, splitList, rng);
    if split.Err? {
      return Err(split.error);
    }
    var training := PreparePatchList(disk, split.value.value.training, d, o, TrainingPath(d.center), split.value.rest);
    if training.Err? {
      return Err(training.error);
    }
    var validation :=
      PreparePatchList(disk, split.value.value.testing, d, o, ValidationPath(d.center), training.value.rest);
    if validation.Err? {
      return Err(validation.error);
    }
    r := Ok(Drawn(IndexLists(training.value.value, validation.value.value), validation.value.rest));
  }

  /** `get_patches_index_list`. */
  method GetPatchesIndexList(
    keys: Disk<seq<int>>, disk: Disk<seq<PatchRef>>, source: Domain, target: Domain, o: Options,
    splitList: seq<seq<seq<int>>>, rng: Rng)
    returns (r: Result<Drawn<(IndexLists, IndexLists)>>)
    modifies keys, disk
    ensures (r, keys.files, disk.files) == PatchesIndexList(old(keys.files), old(disk.files), source, target, o, splitList, rng)
  {
    if |splitList| < 1 {
      return Err(IndexError);
    }
    var s := PrepareDomain(keys, disk, source, o, splitList[0], rng);
    if s.Err? {
      return Err(s.error);
    }
    if |splitList| < 2 {
      return Err(IndexError);
    }
    var t := PrepareDomain(keys, disk, target, o, splitList[1], s.value.rest);
    if t.Err? {
      return Err(t.error);
    }
    r := Ok(Drawn((s.value.value, t.value.value), t.value.rest));
  }

  /** A freshly built list (no offset bound, so the grid is the same for
      every subject): it holds exactly the refs whose subject is one of the
      keys, whose corner is on the grid and which the chosen filter admits,
      and it is what the list's file now holds. */
  lemma FreshPatchList(
    files: map<string, seq<PatchRef>>, samples: seq<int>, d: Domain, o: Options, path: string, rng: Rng)
    requires o.startOffset.None?
    requires o.changeValidation || Dispatch(o).None?
    ensures var (r, files') := PatchList(files, samples, d, o, path, rng);
      var g := o.grid(d.imageShape, o.patchShape, o.trainingOverlap, None);
      r.Ok? ==>
        r.value.rest == rng && path in files' && files' == files[path := r.value.value] &&
        forall x :: x in r.value.value <==> x.sample in samples && x.coord in g && Admitted(o, d.store, x)
  {
    var geo := DomainGeometry(d, o);
    CatalogWithoutOffsetShape([], samples, geo, rng);
    CatalogWithoutOffsetMembers([], samples, geo, rng);
    match Dispatch(o)
    case Some(f) =>
      SavedPatchesCache(files, samples, d.store, geo, path, o.changeValidation, f, rng);
    case None =>
  }

  /** With `change_validation` set and no offset bound, each centre's key
      files get `split_list`'s two lists verbatim, and its training
      (validation) patch list holds exactly the admitted grid refs of the
      training (validation) subjects of `split_list`; both lists are what the
      two patch files now hold. */
  lemma DomainListsFresh(
    keys: map<string, seq<int>>, files: map<string, seq<PatchRef>>, d: Domain, o: Options,
    splitList: seq<seq<int>>, rng: Rng)
    requires o.changeValidation && o.startOffset.None?
    ensures var (r, keys', files') := DomainLists(keys, files, d, o, splitList, rng);
      var g := o.grid(d.imageShape, o.patchShape, o.trainingOverlap, None);
      r.Ok? ==>
        |splitList| >= 2 &&
        keys' == keys[d.trainingKeys := splitList[0]][d.validationKeys := splitList[1]] &&
        files' == files[TrainingPath(d.center) := r.value.value.training][ValidationPath(d.center) := r.value.value.validation] &&
        (forall x :: x in r.value.value.training <==> x.sample in splitList[0] && x.coord in g && Admitted(o, d.store, x)) &&
        (forall x :: x in r.value.value.validation <==> x.sample in splitList[1] && x.coord in g && Admitted(o, d.store, x))
  {
    ValidationSplitCache(
      keys, d.nbSamples, d.trainingKeys, d.validationKeys, o.dataSplit, o.changeValidation, splitList, rng);
    var (split, keys') := ValidationSplit(
      keys, d.nbSamples, d.trainingKeys, d.validationKeys, o.dataSplit, o.changeValidation, splitList, rng);
    if split.Ok? {
      var (training, files') := PatchList(files, split.value.value.training, d, o, TrainingPath(d.center), split.value.rest);
      FreshPatchList(files, split.value.value.training, d, o, TrainingPath(d.center), split.value.rest);
      if training.Ok? {
        FreshPatchList(files', split.value.value.testing, d, o, ValidationPath(d.center), training.value.rest);
      }
    }
  }

  /** Without `change_validation`, when both key files and both patch files
      exist and a filter is chosen, nothing is recomputed, nothing is drawn
      and no file changes: the stored lists come back. */
  lemma DomainListsCached(
    keys: map<string, seq<int>>, files: map<string, seq<PatchRef>>, d: Domain, o: Options,
    splitList: seq<seq<int>>, rng: Rng)
    requires !o.changeValidation && Dispatch(o).Some?
    requires d.trainingKeys in keys && d.validationKeys in keys
    requires TrainingPath(d.center) in files && ValidationPath(d.center) in files
    ensures DomainLists(keys, files, d, o, splitList, rng) ==
      (Ok(Drawn(IndexLists(files[TrainingPath(d.center)], files[ValidationPath(d.center)]), rng)), keys, files)
  {
    ValidationSplitCache(
      keys, d.nbSamples, d.trainingKeys, d.validationKeys, o.dataSplit, o.changeValidation, splitList, rng);
  }

  /** Without a filter the patch files are rewritten on every call, even when
      the key split comes from the cache. */
  lemma UnfilteredListsRewritten(
    keys: map<string, seq<int>>, files: map<string, seq<PatchRef>>, d: Domain, o: Options,
    splitList: seq<seq<int>>, rng: Rng)
    requires Dispatch(o).None?
    ensures var (r, keys', files') := DomainLists(keys, files, d, o, splitList, rng);
      r.Ok? ==>
        files' == files[TrainingPath(d.center) := r.value.value.training][ValidationPath(d.center) := r.value.value.validation]
  {
  }

  /** A `split_list` with a single entry fails with IndexError, but only after
      the source centre's files are written. */
  lemma ShortSplitList(
    keys: map<string, seq<int>>, files: map<string, seq<PatchRef>>, source: Domain, target: Domain, o: Options,
    splitList: seq<seq<seq<int>>>, rng: Rng)
    requires |splitList| == 1
    ensures var (r, keys', files') := PatchesIndexList(keys, files, source, target, o, splitList, rng);
      var (s, sourceKeys, sourceFiles) := DomainLists(keys, files, source, o, splitList[0], rng);
      r.Err? && keys' == sourceKeys && files' == sourceFiles &&
      (s.Ok? ==> r.error == IndexError)
  {
  }
}
