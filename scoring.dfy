/** `Compare_patches.main` once the catalog and the validation list exist: the
    combination list kept in a pickle cache, the loop that scores every pair,
    and the order in which `select_patches` saves the best-scored pairs. */
module Scoring {
  import opened Py
  import opened Volumes
  import opened RandomSource
  import opened PatchData
  import opened Combinations
  import opened QualityFilter

  /** One line of the results table: "Patch Sim", "Truth Sim", "Patch A",
      "Patch B". */
  datatype Row = Row(patchSim: real, truthSim: real, a: PatchRef, b: PatchRef)

  /** `compare_patches(x_a, y_a, x_b, y_b)`: the norms of the covariance
      differences of the images and of the ground truths, taken as given. */
  type Compare = (Cube, Cube, Cube, Cube) -> (real, real)

  /** Where the loop takes `x_a, y_a` from. */
  datatype FirstPatch =
    | PerPair            // from each pair's patch A, in every mode but "one patch"
    | Fixed(a: PatchRef) // read once before the loop, in "one patch" mode
    | Unbound            // never assigned: "one patch" with the list loaded from the cache

  /** The patch that stands for patch A when pair p is scored. */
  function PatchAOf(first: FirstPatch, p: Pair): PatchRef
    requires !first.Unbound?
  {
    if first.Fixed? then first.a else p.a
  }

  /** A pair is scored unless the mean intensity of either image is below -10. */
  predicate Kept(store: Store, a: PatchRef, b: PatchRef)
  {
    CubeMean(store.patch(a).data) >= -10.0 && CubeMean(store.patch(b).data) >= -10.0
  }

  /** The row of pair p: the scores of its images, under the pair's own refs. */
  function Scored(store: Store, compare: Compare, a: PatchRef, p: Pair): Row
  {
    var xa := store.patch(a);
    var xb := store.patch(p.b);
    var cd := compare(xa.data, xa.truth, xb.data, xb.truth);
    Row(cd.0, cd.1, p.a, p.b)
  }

  /** The rows the loop stacks up over `pairs`, in order. */
  function Rows(store: Store, compare: Compare, first: FirstPatch, pairs: seq<Pair>): seq<Row>
    requires !first.Unbound?
    decreases |pairs|
  {
    if |pairs| == 0 then []
    else
      var p := pairs[|pairs| - 1];
      var init := Rows(store, compare, first, pairs[..|pairs| - 1]);
      if Kept(store, PatchAOf(first, p), p.b) then init + [Scored(store, compare, PatchAOf(first, p), p)] else init
  }

  /** The whole loop: without `x_a` the first pair raises. */
  function ScoreRows(store: Store, compare: Compare, first: FirstPatch, pairs: seq<Pair>): Result<seq<Row>>
  {
    if first.Unbound? then (if |pairs| == 0 then Ok([]) else Err(UnboundLocalError))
    else Ok(Rows(store, compare, first, pairs))
  }

  /** `for j, l in enumerate(combination_list)` in `main`. */
  method ScoreLoop(store: Store, compare: Compare, first: FirstPatch, pairs: seq<Pair>) returns (r: Result<seq<Row>>)
    ensures r == ScoreRows(store, compare, first, pairs)
  {
    var results: seq<Row> := [];
    for j := 0 to |pairs|
      invariant first.Unbound? ==> j == 0 && results == []
      invariant !first.Unbound? ==> results == Rows(store, compare, first, pairs[..j])
    {
      var l := pairs[j];
      if first.Unbound? {
        return Err(UnboundLocalError);
      }
      var patchA := if first.Fixed? then first.a else l.a;
      var xa := store.patch(patchA);
      var xb := store.patch(l.b);
      if CubeMean(xa.data) >= -10.0 && CubeMean(xb.data) >= -10.0 {
        var cd := compare(xa.data, xa.truth, xb.data, xb.truth);
        results := results + [Row(cd.0, cd.1, l.a, l.b)];
      }
      assert pairs[..j + 1][..j] == pairs[..j];
    }
    assert pairs[..|pairs|] == pairs;
    r := Ok(results);
  }

  /** Every row comes from a kept pair and carries that pair's refs, and every
      kept pair has its row: the skipped pairs are exactly those with a mean
      below -10. */
  lemma {:induction false} RowsSpec(store: Store, compare: Compare, first: FirstPatch, pairs: seq<Pair>)
    requires !first.Unbound?
    ensures var rows := Rows(store, compare, first, pairs);
      |rows| <= |pairs| &&
      (forall row :: row in rows ==>
        exists p :: p in pairs && Kept(store, PatchAOf(first, p), p.b) &&
          row == Scored(store, compare, PatchAOf(first, p), p) && row.a == p.a && row.b == p.b) &&
      (forall p :: p in pairs && Kept(store, PatchAOf(first, p), p.b) ==>
        Scored(store, compare, PatchAOf(first, p), p) in rows)
    decreases |pairs|
  {
    if |pairs| > 0 {
      var init := pairs[..|pairs| - 1];
      var p := pairs[|pairs| - 1];
      RowsSpec(store, compare, first, init);
      assert pairs == init + [p];
    }
  }

  /** One pair gives its row exactly when it is kept. */
  lemma RowsSingle(store: Store, compare: Compare, first: FirstPatch, p: Pair)
    requires !first.Unbound?
    ensures Rows(store, compare, first, [p]) ==
      (if Kept(store, PatchAOf(first, p), p.b) then [Scored(store, compare, PatchAOf(first, p), p)] else [])
  {
    assert [p][..0] == [];
  }

  /** The rows of two runs of pairs are those of the first run followed by
      those of the second: with `RowsSingle`, there is one row per kept pair,
      in pair order. */
  lemma {:induction false} RowsConcat(store: Store, compare: Compare, first: FirstPatch, p1: seq<Pair>, p2: seq<Pair>)
    requires !first.Unbound?
    ensures Rows(store, compare, first, p1 + p2) == Rows(store, compare, first, p1) + Rows(store, compare, first, p2)
    decreases |p2|
  {
    if |p2| == 0 {
      assert p1 + p2 == p1;
    } else {
      var init := p2[..|p2| - 1];
      var last := p2[|p2| - 1];
      RowsConcat(store, compare, first, p1, init);
      assert (p1 + p2)[..|p1 + p2| - 1] == p1 + init;
      assert (p1 + p2)[|p1 + p2| - 1] == last;
      var r1, ri := Rows(store, compare, first, p1), Rows(store, compare, first, init);
      if Kept(store, PatchAOf(first, last), last.b) {
        var row := Scored(store, compare, PatchAOf(first, last), last);
        assert (r1 + ri) + [row] == r1 + (ri + [row]);
      }
    }
  }

  /** When every pair has the same patch A, reading `x_a` once from it scores
      exactly as reading it pair by pair. */
  lemma {:induction false} RowsSharedPatchA(store: Store, compare: Compare, a: PatchRef, pairs: seq<Pair>)
    requires forall p :: p in pairs ==> p.a == a
    ensures Rows(store, compare, Fixed(a), pairs) == Rows(store, compare, PerPair, pairs)
    decreases |pairs|
  {
    if |pairs| > 0 {
      var init := pairs[..|pairs| - 1];
      assert forall p :: p in init ==> p in pairs;
      assert pairs[|pairs| - 1] in pairs;
      RowsSharedPatchA(store, compare, a, init);
    }
  }

  /** Where the combination list is cached. */
  const CombinationPath: string := "Data/generated_data/combination.pkl"

  /** The cache file: the pickled list, or the empty file that `open(path,
      'wb')` leaves when `pickle.dump` then raises; loading it raises
      EOFError. */
  datatype CacheFile = Pickled(pairs: seq<Pair>) | Truncated

  /** The modes `main` generates a list for. */
  predicate KnownMode(mode: string)
  {
    mode == "one patch" || mode == "combination" || mode == "random"
  }

  /** `n_exp` of the "random" mode. */
  const RandomCount: int := 50000

  /** `main` as written, or with both corrections: the loop of
      `create_combination_list` over a copy of the draws, and `x_a` read from
      the first pair of a cached "one patch" list. */
  datatype Variant = AsWritten | Corrected

  /** The combination list a regeneration builds in each mode; an unknown mode
      leaves `combination_list` unassigned. */
  function Generate(variant: Variant, mode: string, index: seq<PatchRef>, validation: seq<int>, store: Store, rng: Rng)
    : Result<Drawn<seq<Pair>>>
  {
    if mode == "one patch" then CombinationOnePatch(index, validation, store, rng)
    else if mode == "combination" then
      if variant.AsWritten? then CombinationList(SubjectSample(index, 30), validation, rng)
      else CombinationListFixed(SubjectSample(index, 30), validation, rng)
    else if mode == "random" then RandomPairs(index, RandomCount, [], rng)
    else Err(UnboundLocalError)
  }

  /** Where `x_a` comes from when the list is loaded from the cache. */
  function CachedFirst(variant: Variant, mode: string, pairs: seq<Pair>): FirstPatch
  {
    if mode != "one patch" then PerPair
    else if variant.AsWritten? then Unbound
    else if |pairs| == 0 then PerPair
    else Fixed(pairs[0].a)
  }

  /** The rows `main` writes to results.csv, and the pickle files afterwards,
      where `generated` is what the generator of the mode returns
      (`Generate`); it is used only when the list is regenerated. An unknown
      mode gets as far as opening the cache for writing, and `pickle.dump`
      then raises on the unassigned list. */
  function MainOutcome(
    variant: Variant, files: map<string, CacheFile>, mode: string, overwrite: bool,
    generated: Result<Drawn<seq<Pair>>>, store: Store, compare: Compare)
    : (Result<seq<Row>>, map<string, CacheFile>)
  {
    if overwrite || CombinationPath !in files then
      if !KnownMode(mode) then (Err(UnboundLocalError), files[CombinationPath := Truncated])
      else
        match generated
        case Err(e) => (Err(e), files)
        case Ok(g) =>
          if mode == "one patch" && |g.value| == 0 then (Err(IndexError), files)
          else
            var first := if mode == "one patch" then Fixed(g.value[0].a) else PerPair;
            (ScoreRows(store, compare, first, g.value), files[CombinationPath := Pickled(g.value)])
    else
      match files[CombinationPath]
      case Truncated => (Err(EOFError), files)
      case Pickled(pairs) => (ScoreRows(store, compare, CachedFirst(variant, mode, pairs), pairs), files)
  }

  /** `main(mode, overwrite_validation)` with both corrections. */
  method ComparePatches(
    disk: Disk<CacheFile>, mode: string, overwrite: bool,
    index: seq<PatchRef>, validation: seq<int>, store: Store, compare: Compare, rng: Rng)
    returns (r: Result<seq<Row>>)
    modifies disk
    ensures (r, disk.files) ==
      MainOutcome(Corrected, old(disk.files), mode, overwrite, Generate(Corrected, mode, index, validation, store, rng),
                  store, compare)
  {
    var present := disk.Exists(CombinationPath);
    var pairs: seq<Pair>;
    var first: FirstPatch;
    if overwrite || !present {
      var g: Result<Drawn<seq<Pair>>>;
      if mode == "one patch" {
        g := CreateCombinationOnePatch(index, validation, store, rng);
        if g.Err? {
          return Err(g.error);
        }
        if |g.value.value| == 0 {
          return Err(IndexError);
        }
        first := Fixed(g.value.value[0].a);
      } else if mode == "combination" {
        g := CreateCombinationListFixed(index, validation, rng);
        first := PerPair;
      } else if mode == "random" {
        g := CreateCombinationListRandom(index, RandomCount, rng);
        first := PerPair;
      } else {
        // `open(combination_path, 'wb')` empties the file before the dump raises.
        disk.Dump(CombinationPath, Truncated);
        return Err(UnboundLocalError);
      }
      if g.Err? {
        return Err(g.error);
      }
      pairs := g.value.value;
      disk.Dump(CombinationPath, Pickled(pairs));
    } else {
      var loaded := disk.Load(CombinationPath);
      if loaded.value.Truncated? {
        return Err(EOFError);
      }
      pairs := loaded.value.pairs;
      first := if mode != "one patch" || |pairs| == 0 then PerPair else Fixed(pairs[0].a);
    }
    r := ScoreLoop(store, compare, first, pairs);
  }

  /** With the cache present and no overwrite, `main` generates nothing and
      writes nothing; an emptied cache raises EOFError, and otherwise, in every
      mode but "one patch", it scores the cached pairs pair by pair. */
  lemma MainCacheHit(
    variant: Variant, files: map<string, CacheFile>, mode: string,
    generated: Result<Drawn<seq<Pair>>>, generated': Result<Drawn<seq<Pair>>>, store: Store, compare: Compare)
    requires CombinationPath in files
    ensures var (r, files') := MainOutcome(variant, files, mode, false, generated, store, compare);
      files' == files &&
      (r, files') == MainOutcome(variant, files, mode, false, generated', store, compare) &&
      (files[CombinationPath].Truncated? ==> r == Err(EOFError)) &&
      (files[CombinationPath].Pickled? && mode != "one patch" ==>
        r == Ok(Rows(store, compare, PerPair, files[CombinationPath].pairs)))
  {
  }

  /** All pairs share the first pair's patch A. */
  predicate SharedPatchA(pairs: seq<Pair>)
  {
    forall k :: 0 <= k < |pairs| ==> pairs[k].a == pairs[0].a
  }

  /** A regeneration that succeeds replaces the cached list with the generated
      one and nothing else, and scores exactly those pairs; a generator that
      fails leaves the files as they were; an unknown mode empties the cache
      file and raises. */
  lemma MainRegenerates(
    variant: Variant, files: map<string, CacheFile>, mode: string, overwrite: bool,
    generated: Result<Drawn<seq<Pair>>>, store: Store, compare: Compare)
    requires overwrite || CombinationPath !in files
    requires mode == "one patch" && generated.Ok? ==> SharedPatchA(generated.value.value)
    ensures var (r, files') := MainOutcome(variant, files, mode, overwrite, generated, store, compare);
      (!KnownMode(mode) ==> r == Err(UnboundLocalError) && files' == files[CombinationPath := Truncated]) &&
      (KnownMode(mode) && r.Err? ==> files' == files) &&
      (r.Ok? ==>
        generated.Ok? && files' == files[CombinationPath := Pickled(generated.value.value)] &&
        r.value == Rows(store, compare, PerPair, generated.value.value))
  {
    if mode == "one patch" && generated.Ok? && |generated.value.value| > 0 {
      var pairs := generated.value.value;
      forall p | p in pairs ensures p.a == pairs[0].a {
        var k :| 0 <= k < |pairs| && pairs[k] == p;
      }
      RowsSharedPatchA(store, compare, pairs[0].a, pairs);
    }
  }

  /** A generated "one patch" list shares its patch A. */
  lemma OnePatchShared(index: seq<PatchRef>, validation: seq<int>, store: Store, rng: Rng)
    ensures var g := Generate(Corrected, "one patch", index, validation, store, rng);
      g.Ok? ==> SharedPatchA(g.value.value)
  {
    CombinationOnePatchContent(index, validation, store, rng);
  }

  /** An unknown mode raises UnboundLocalError at the dump, after the cache
      file has been opened for writing and so emptied; every later run that
      reads the cache raises EOFError. */
  lemma MainUnknownMode(
    variant: Variant, files: map<string, CacheFile>, mode: string, overwrite: bool,
    index: seq<PatchRef>, validation: seq<int>, store: Store, compare: Compare, rng: Rng)
    requires overwrite || CombinationPath !in files
    requires mode != "one patch" && mode != "combination" && mode != "random"
    ensures var (r, files') :=
      MainOutcome(variant, files, mode, overwrite, Generate(variant, mode, index, validation, store, rng), store, compare);
      r == Err(UnboundLocalError) && files' == files[CombinationPath := Truncated] &&
      forall variant': Variant, mode': string, g: Result<Drawn<seq<Pair>>> ::
        MainOutcome(variant', files', mode', false, g, store, compare) == (Err(EOFError), files')
  {
  }

  /** In "combination" mode with 37 distinct draws, the corrected `main` caches
      and scores the pairs of every two of the 37 subjects: 900 * 666 pairs,
      each across two different subjects. */
  lemma MainCombinationCount(
    files: map<string, CacheFile>, overwrite: bool,
    index: seq<PatchRef>, validation: seq<int>, store: Store, compare: Compare, rng: Rng)
    requires overwrite || CombinationPath !in files
    requires Choices(validation, 37, rng).Ok?
    requires Distinct(Choices(validation, 37, rng).value.value)
    ensures var (r, files') := MainOutcome(Corrected, files, "combination", overwrite,
                                           Generate(Corrected, "combination", index, validation, store, rng), store, compare);
      r.Ok? ==>
        CombinationPath in files' && files'[CombinationPath].Pickled? &&
        |files'[CombinationPath].pairs| == 900 * 666 &&
        forall p :: p in files'[CombinationPath].pairs ==> p.a.sample != p.b.sample
  {
    SubjectSampleSpec(index, 30);
    CombinationListFixedSpec(SubjectSample(index, 30), index, validation, rng);
  }

  /** The corrected `main` replays its own cache: a run without overwrite after
      a successful run returns the same rows and leaves the files alone, in
      every mode. */
  lemma CacheReplay(
    files: map<string, CacheFile>, mode: string,
    generated: Result<Drawn<seq<Pair>>>, generated': Result<Drawn<seq<Pair>>>, store: Store, compare: Compare)
    ensures var (r, files') := MainOutcome(Corrected, files, mode, true, generated, store, compare);
      r.Ok? ==> MainOutcome(Corrected, files', mode, false, generated', store, compare) == (r, files')
  {
  }

  /** As written, the replay fails in "one patch" mode: `x_a` is assigned only
      when the list is generated, so the loaded list's first pair raises. */
  lemma CacheReplayAsWritten(
    files: map<string, CacheFile>,
    generated: Result<Drawn<seq<Pair>>>, generated': Result<Drawn<seq<Pair>>>, store: Store, compare: Compare)
    ensures var (r, files') := MainOutcome(AsWritten, files, "one patch", true, generated, store, compare);
      r.Ok? ==> MainOutcome(AsWritten, files', "one patch", false, generated', store, compare).0 == Err(UnboundLocalError)
  {
  }

  /** `sort_values(by=["Patch Sim", "Truth Sim"])`: ascending by patch
      similarity, ties by truth similarity. */
  predicate KeyLe(x: Row, y: Row)
  {
    x.patchSim < y.patchSim || (x.patchSim == y.patchSim && x.truthSim <= y.truthSim)
  }

  predicate SortedRows(rows: seq<Row>)
  {
    forall i, j :: 0 <= i < j < |rows| ==> KeyLe(rows[i], rows[j])
  }

  /** Puts x before the first row it does not exceed. */
  function Insert(x: Row, s: seq<Row>): (r: seq<Row>)
    ensures multiset(r) == multiset(s) + multiset{x}
    decreases |s|
  {
    if |s| == 0 then [x]
    else if KeyLe(x, s[0]) then [x] + s
    else
      assert s == [s[0]] + s[1..];
      [s[0]] + Insert(x, s[1..])
  }

  lemma {:induction false} InsertSorted(x: Row, s: seq<Row>)
    requires SortedRows(s)
    ensures SortedRows(Insert(x, s))
    decreases |s|
  {
    if |s| > 0 && !KeyLe(x, s[0]) {
      var rest := s[1..];
      var t := Insert(x, rest);
      InsertSorted(x, rest);
      forall z | z in t ensures KeyLe(s[0], z) {
        assert z in multiset(t);
        if z != x {
          assert z in multiset(rest);
          var k :| 0 <= k < |rest| && rest[k] == z;
          assert s[k + 1] == z;
        }
      }
      var r := [s[0]] + t;
      forall i, j | 0 <= i < j < |r| ensures KeyLe(r[i], r[j]) {
        if i == 0 {
          assert r[j] == t[j - 1] && t[j - 1] in t;
        } else {
          assert r[i] == t[i - 1] && r[j] == t[j - 1];
        }
      }
    }
  }

  /** A reference sort: insertion of each row, front to back. */
  function SortRows(rows: seq<Row>): (r: seq<Row>)
    ensures multiset(r) == multiset(rows) && |r| == |rows| && SortedRows(r)
    decreases |rows|
  {
    if |rows| == 0 then []
    else
      assert rows == [rows[0]] + rows[1..];
      InsertSorted(rows[0], SortRows(rows[1..]));
      Insert(rows[0], SortRows(rows[1..]))
  }

  /** `results_df.sort_values(...).tail(10)` */
  function Best(rows: seq<Row>): seq<Row>
  {
    var s := SortRows(rows);
    if |s| <= 10 then s else s[|s| - 10..]
  }

  /** Cutting a sorted table leaves both parts sorted, every row of the head
      at most every row of the tail. */
  lemma SortedCut(s: seq<Row>, n: nat)
    requires SortedRows(s) && n <= |s|
    ensures SortedRows(s[n..])
    ensures forall x, y :: x in s[..n] && y in s[n..] ==> KeyLe(x, y)
  {
    forall x, y | x in s[..n] && y in s[n..] ensures KeyLe(x, y) {
      var i :| 0 <= i < n && s[i] == x;
      var j :| 0 <= j < |s[n..]| && s[n..][j] == y;
      assert s[n + j] == y;
    }
  }

  /** The last row of a sorted table is a top-scoring row. */
  lemma SortedTop(s: seq<Row>)
    requires SortedRows(s) && |s| > 0
    ensures forall x :: x in s ==> KeyLe(x, s[|s| - 1])
  {
    forall x | x in s ensures KeyLe(x, s[|s| - 1]) {
      var i :| 0 <= i < |s| && s[i] == x;
      if i < |s| - 1 {
        assert KeyLe(s[i], s[|s| - 1]);
      }
    }
  }

  /** The ten best rows (all of them when there are fewer) come out ascending,
      and no row left out scores above any of them. */
  lemma BestRows(rows: seq<Row>)
    ensures var best := Best(rows);
      var s := SortRows(rows);
      var rest := s[..|s| - |best|];
      |best| == (if |rows| <= 10 then |rows| else 10) && SortedRows(best) &&
      multiset(rest) + multiset(best) == multiset(rows) &&
      forall x, y :: x in rest && y in best ==> KeyLe(x, y)
  {
    var s := SortRows(rows);
    var best := Best(rows);
    var n := |s| - |best|;
    assert best == s[n..];
    SortedCut(s, n);
    assert s == s[..n] + best;
  }

  /** One `save_patch` round of `select_patches`: rank i saves patch A and
      patch B of the i-th best row under results/sim_patches/i. */
  datatype Saved = Saved(rank: nat, a: PatchRef, b: PatchRef)

  /** The loop of `select_patches`: rank i is the i-th row from the end of
      the best rows. */
  method SelectPatches(rows: seq<Row>) returns (saved: seq<Saved>)
    ensures var ranked := Reversed(Best(rows));
      |saved| == |ranked| &&
      forall i :: 0 <= i < |saved| ==> saved[i] == Saved(i, ranked[i].a, ranked[i].b)
  {
    var best := Best(rows);
    saved := [];
    for i := 0 to |best|
      invariant |saved| == i
      invariant forall k :: 0 <= k < i ==> saved[k] == Saved(k, best[|best| - 1 - k].a, best[|best| - 1 - k].b)
    {
      var j := |best| - 1 - i;
      saved := saved + [Saved(i, best[j].a, best[j].b)];
    }
  }

  /** Read backwards, a sorted table goes from best to worst. */
  lemma RankedDescending(best: seq<Row>)
    requires SortedRows(best)
    ensures var ranked := Reversed(best);
      forall i, k :: 0 <= i < k < |ranked| ==> KeyLe(ranked[k], ranked[i])
  {
    var ranked := Reversed(best);
    forall i, k | 0 <= i < k < |ranked| ensures KeyLe(ranked[k], ranked[i]) {
      assert ranked[k] == best[|best| - 1 - k] && ranked[i] == best[|best| - 1 - i];
    }
  }

  /** Ranks go from best to worst: a lower rank never scores below a higher
      one, and rank 0 is a top-scoring row of the whole table. */
  lemma SelectedRanks(rows: seq<Row>)
    ensures var ranked := Reversed(Best(rows));
      (|ranked| == 0 <==> |rows| == 0) &&
      (forall i, k :: 0 <= i < k < |ranked| ==> KeyLe(ranked[k], ranked[i])) &&
      (|ranked| > 0 ==> forall x :: x in rows ==> KeyLe(x, ranked[0]))
  {
    var s := SortRows(rows);
    var best := Best(rows);
    var ranked := Reversed(best);
    BestRows(rows);
    RankedDescending(best);
    if |ranked| > 0 {
      SortedTop(s);
      assert ranked[0] == s[|s| - 1];
      forall x | x in rows ensures KeyLe(x, ranked[0]) {
        assert x in multiset(s);
      }
    }
  }
}
