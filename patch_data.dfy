/** Patch references, the read-only dataset store, the external transforms and
    the per-item work of the batch assembler (`add_data_mp`, `add_data`). */
module PatchData {
  import opened Py
  import opened Volumes

  /** `(sample index, (x, y, z))`: the unit of work of the whole engine. */
  datatype PatchRef = PatchRef(sample: int, coord: Coord)

  /** A sample's spatial transform; the engine only carries it around. */
  datatype Affine = Affine(matrix: seq<seq<real>>)

  /** A fetched `(data, truth)` pair of sub-cubes. The truth cube carries its one
      label channel, so `truth[np.newaxis]` is already in its shape. */
  datatype Item = Item(data: Cube, truth: Cube)

  /** The dataset file, read only: the number of samples (`data.shape[0]`), the
      spatial shape of every volume (`data.shape[-3:]`), the sub-cube pair at a
      patch reference (`get_data_from_file` with a patch shape) and the affine of
      a sample (`affine[index[0]]`). */
  datatype Store = Store(
    nbSamples: int,
    imageShape: Dims,
    patch: PatchRef -> Item,
    affine: int -> Affine)

  /** The external transforms `augment_data(data, truth, affine, flip,
      scale_deviation)` and `random_permutation_x_y(data, truth)`. */
  datatype Transforms = Transforms(
    augment: (Item, Affine, bool, Option<real>) -> Item,
    permute: Item -> Item)

  /** The per-item switches of `add_data` and `add_data_mp`. */
  datatype Policy = Policy(
    augment: bool,
    flip: bool,
    distortion: Option<real>,
    skipBlank: bool,
    permute: bool)

  /** The `(x_list, y_list)` pair that `add_data_mp` returns. */
  datatype Emitted = Emitted(xs: seq<Cube>, ys: seq<Cube>)

  /** The item after the optional augmentation step. */
  function Augmented(item: Item, affine: Affine, p: Policy, tf: Transforms): Item
  {
    if p.augment then tf.augment(item, affine, p.flip, p.distortion) else item
  }

  /** The item after augmentation and the optional permutation. */
  function Prepared(item: Item, affine: Affine, p: Policy, tf: Transforms): Item
  {
    var a := Augmented(item, affine, p, tf);
    if p.permute then tf.permute(a) else a
  }

  /** `add_data_mp`: augment, permute (only a cubic sub-cube may be permuted) and
      drop a blank label when skip_blank is set. */
  function AddDataMp(item: Item, affine: Affine, p: Policy, tf: Transforms): (r: Result<Emitted>)
    ensures r.Err? <==> p.permute && !IsCubic(Augmented(item, affine, p, tf).data)
    ensures r.Err? ==> r.error == ValueError
    ensures r.Ok? ==> |r.value.xs| == |r.value.ys| <= 1
    ensures r.Ok? ==>
      (r.value.xs == [] <==> p.skipBlank && !AnyNonzero(Prepared(item, affine, p, tf).truth))
    ensures r.Ok? && r.value.xs != [] ==>
      r.value.xs[0] == Prepared(item, affine, p, tf).data &&
      r.value.ys[0] == Prepared(item, affine, p, tf).truth
  {
    var a := Augmented(item, affine, p, tf);
    if p.permute && !IsCubic(a.data) then Err(ValueError)
    else
      var t := if p.permute then tf.permute(a) else a;
      if !p.skipBlank || AnyNonzero(t.truth) then Ok(Emitted([t.data], [t.truth]))
      else Ok(Emitted([], []))
  }

  /** With every switch off, `add_data_mp` hands the fetched pair back unchanged. */
  lemma AddDataMpPlain(item: Item, affine: Affine, p: Policy, tf: Transforms)
    requires !p.augment && !p.permute && !p.skipBlank
    ensures AddDataMp(item, affine, p, tf) == Ok(Emitted([item.data], [item.truth]))
  {
  }

  /** `add_data`: fetches the pair itself, does what `add_data_mp` does and
      appends the outcome to the caller's lists. */
  method AddData(xList: List<Cube>, yList: List<Cube>, store: Store, index: PatchRef, p: Policy, tf: Transforms)
    returns (r: Result<()>)
    requires xList != yList
    modifies xList, yList
    ensures var e := AddDataMp(store.patch(index), store.affine(index.sample), p, tf);
      match e
      case Err(err) =>
        r == Err(err) && xList.items == old(xList.items) && yList.items == old(yList.items)
      case Ok(out) =>
        r == Ok(()) && xList.items == old(xList.items) + out.xs && yList.items == old(yList.items) + out.ys
  {
    var item := store.patch(index);
    var affine := store.affine(index.sample);
    var e := AddDataMp(item, affine, p, tf);
    match e
    case Err(err) =>
      r := Err(err);
    case Ok(out) =>
      if |out.xs| != 0 {
        xList.Append(out.xs[0]);
        yList.Append(out.ys[0]);
      }
      r := Ok(());
  }
}
