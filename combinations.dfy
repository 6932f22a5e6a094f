/** The pair generators of the patch comparison: `create_combination_list_random`
    draws pairs until it has `n_exp` of them, `create_combination_one_patch`
    pairs one patch with 32 patches of each other subject, and
    `create_combination_list` crosses 30 patches of a subject with 30 patches
    of each other subject. */
module Combinations {
  import opened Py
  import opened Volumes
  import opened RandomSource
  import opened PatchData
  import opened Catalog

  /** One entry of the combination list: patch A and patch B. */
  datatype Pair = Pair(a: PatchRef, b: PatchRef)

  /** `[tup for tup in index_list if tup[0] == subject]` */
  function SubjectPatches(index: seq<PatchRef>, subject: int): (r: seq<PatchRef>)
    ensures forall x :: x in r ==> x in index && x.sample == subject
  {
    if |index| == 0 then []
    else
      assert index == [index[0]] + index[1..];
      (if index[0].sample == subject then [index[0]] else []) + SubjectPatches(index[1..], subject)
  }

  /** Every catalog patch of the subject is kept. */
  lemma {:induction false} SubjectPatchesComplete(index: seq<PatchRef>, subject: int, x: PatchRef)
    requires x in index && x.sample == subject
    ensures x in SubjectPatches(index, subject)
  {
    if index[0] != x {
      assert x in index[1..];
      SubjectPatchesComplete(index[1..], subject, x);
    }
  }

  /** How many elements of s differ from x. */
  function Others(s: seq<int>, x: int): (n: nat)
    ensures n <= |s|
  {
    if |s| == 0 then 0 else (if s[0] != x then 1 else 0) + Others(s[1..], x)
  }

  predicate Distinct<T(==)>(s: seq<T>)
  {
    forall p, q :: 0 <= p < q < |s| ==> s[p] != s[q]
  }

  lemma {:induction false} OthersMultiset(s: seq<int>, x: int)
    ensures Others(s, x) == |s| - multiset(s)[x]
  {
    if |s| > 0 {
      OthersMultiset(s[1..], x);
      assert s == [s[0]] + s[1..];
    }
  }

  /** In a list without repeats every value occurs at most once. */
  lemma {:induction false} DistinctOnce(s: seq<int>, x: int)
    requires Distinct(s)
    ensures multiset(s)[x] <= 1
    ensures x in s ==> multiset(s)[x] == 1
  {
    if |s| > 0 {
      DistinctOnce(s[1..], x);
      assert s == [s[0]] + s[1..];
      if s[0] == x {
        assert x !in s[1..] by {
          forall q | 0 <= q < |s[1..]| ensures s[1..][q] != x {
            assert s[q + 1] != s[0];
          }
        }
      }
    }
  }

  /** A pair whose two patches come from different subjects and lie on
      different planes along every axis. */
  predicate AllAxesDiffer(a: PatchRef, b: PatchRef)
  {
    a.sample != b.sample && a.coord.x != b.coord.x && a.coord.y != b.coord.y && a.coord.z != b.coord.z
  }

  /** `create_combination_list_random` from `acc` on: two choices per attempt,
      the pair kept when every axis differs, until there are `nExp` pairs.
      The source has no bound on the attempts; the model stops when the draws
      run out. */
  function RandomPairs(index: seq<PatchRef>, nExp: int, acc: seq<Pair>, rng: Rng): Result<Drawn<seq<Pair>>>
    decreases |rng.draws|
  {
    if |acc| >= nExp then Ok(Drawn(acc, rng))
    else
      match Choice(index, rng)
      case Err(e) => Err(e)
      case Ok(a) =>
        match Choice(index, a.rest)
        case Err(e) => Err(e)
        case Ok(b) =>
          RandomPairs(index, nExp, if AllAxesDiffer(a.value, b.value) then acc + [Pair(a.value, b.value)] else acc, b.rest)
  }

  /** `create_combination_list_random`. */
  method CreateCombinationListRandom(index: seq<PatchRef>, nExp: int, rng: Rng) returns (r: Result<Drawn<seq<Pair>>>)
    ensures r == RandomPairs(index, nExp, [], rng)
  {
    var combinationList: seq<Pair> := [];
    var stream := rng;
    while |combinationList| < nExp
      invariant RandomPairs(index, nExp, combinationList, stream) == RandomPairs(index, nExp, [], rng)
      decreases |stream.draws|
    {
      var a := Choice(index, stream);
      if a.Err? {
        return Err(a.error);
      }
      var b := Choice(index, a.value.rest);
      if b.Err? {
        return Err(b.error);
      }
      if AllAxesDiffer(a.value.value, b.value.value) {
        combinationList := combinationList + [Pair(a.value.value, b.value.value)];
      }
      stream := b.value.rest;
    }
    r := Ok(Drawn(combinationList, stream));
  }

  /** The random list has exactly `nExp` pairs (when it had fewer), each of
      two catalog patches from different subjects that differ on every axis;
      an empty catalog raises IndexError, and otherwise only running out of
      draws stops it. */
  lemma {:induction false} RandomPairsSpec(index: seq<PatchRef>, nExp: int, acc: seq<Pair>, rng: Rng)
    ensures var r := RandomPairs(index, nExp, acc, rng);
      (r.Ok? ==>
        |r.value.value| == (if |acc| >= nExp then |acc| else nExp) && r.value.value[..|acc|] == acc &&
        forall k :: |acc| <= k < |r.value.value| ==>
          AllAxesDiffer(r.value.value[k].a, r.value.value[k].b) && r.value.value[k].a in index && r.value.value[k].b in index) &&
      (r.Err? ==> r.error == (if |index| == 0 then IndexError else DrawsExhausted))
    decreases |rng.draws|
  {
    if |acc| < nExp {
      var a := Choice(index, rng);
      if a.Ok? {
        var b := Choice(index, a.value.rest);
        if b.Ok? {
          var acc' := if AllAxesDiffer(a.value.value, b.value.value) then acc + [Pair(a.value.value, b.value.value)] else acc;
          RandomPairsSpec(index, nExp, acc', b.value.rest);
          var r := RandomPairs(index, nExp, acc', b.value.rest);
          if r.Ok? {
            assert r.value.value[..|acc'|][..|acc|] == r.value.value[..|acc|];
          }
        }
      }
    }
  }

  /** When no two catalog patches differ on every axis (a single subject, or
      a single grid plane), the source loops forever: the model runs out of
      draws whatever their number. */
  lemma {:induction false} RandomPairsStuck(index: seq<PatchRef>, nExp: int, acc: seq<Pair>, rng: Rng)
    requires forall i, j :: 0 <= i < |index| && 0 <= j < |index| ==> !AllAxesDiffer(index[i], index[j])
    requires |acc| < nExp
    ensures RandomPairs(index, nExp, acc, rng).Err?
    decreases |rng.draws|
  {
    var a := Choice(index, rng);
    if a.Ok? {
      var b := Choice(index, a.value.rest);
      if b.Ok? {
        RandomPairsStuck(index, nExp, acc, b.value.rest);
      }
    }
  }

  /** The pairs of patch A with each patch of `bs`. */
  function PairWith(a: PatchRef, bs: seq<PatchRef>): (r: seq<Pair>)
    ensures |r| == |bs|
    ensures forall j :: 0 <= j < |bs| ==> r[j] == Pair(a, bs[j])
  {
    seq(|bs|, j requires 0 <= j < |bs| => Pair(a, bs[j]))
  }

  /** Drawing k patches of subject j, `random.sample(list_b, k=k)` over
      the subject's catalog patches in both generators; the pair builders
      below take it as a parameter. */
  type SubjectDraw = (int, Rng) -> Result<Drawn<seq<PatchRef>>>

  function SubjectSample(index: seq<PatchRef>, k: int): SubjectDraw
  {
    (j, rng) => Sample(SubjectPatches(index, j), k, rng)
  }

  /** A draw that yields k catalog patches of the requested subject, and
      fails only on a subject with too few patches or on exhausted draws. */
  ghost predicate DrawsFrom(draw: SubjectDraw, index: seq<PatchRef>, k: nat)
  {
    forall j, rng :: var r := draw(j, rng);
      (r.Ok? ==> |r.value.value| == k && forall x :: x in r.value.value ==> x in index && x.sample == j) &&
      (r.Err? ==> r.error == ValueError || r.error == DrawsExhausted)
  }

  lemma SubjectSampleSpec(index: seq<PatchRef>, k: nat)
    ensures DrawsFrom(SubjectSample(index, k), index, k)
  {
    forall j, rng
      ensures var r := SubjectSample(index, k)(j, rng);
        (r.Ok? ==> |r.value.value| == k && forall x :: x in r.value.value ==> x in index && x.sample == j) &&
        (r.Err? ==> r.error == ValueError || r.error == DrawsExhausted)
    {
      if Sample(SubjectPatches(index, j), k, rng).Ok? {
        SampleMembers(SubjectPatches(index, j), k, rng);
      }
    }
  }

  /** When the search for patch A stops: the `while` test fails (mean image
      at least -1 and no zero label voxel) or the `break` test holds (mean
      image above -1 and a nonzero label mean). */
  predicate Acceptable(item: Item)
  {
    !(CubeMean(item.data) < -1.0 || HasZero(item.truth)) ||
    (CubeMean(item.data) > -1.0 && CubeMean(item.truth) != 0.0)
  }

  /** One candidate for patch A: a subject of the validation list, then one
      of its patches. */
  function DrawCandidate(index: seq<PatchRef>, validation: seq<int>, rng: Rng): (r: Result<Drawn<PatchRef>>)
    ensures r.Ok? ==>
      |rng.draws| >= 2 && r.value.rest == Skip(rng, 2) &&
      r.value.value in index && r.value.value.sample in validation
  {
    match Choice(validation, rng)
    case Err(e) => Err(e)
    case Ok(s) =>
      var c := Choice(SubjectPatches(index, s.value), s.rest);
      assert c.Ok? ==> rng.draws[1..][1..] == rng.draws[2..];
      c
  }

  /** The rejection loop: redraw until the candidate is acceptable. The
      source has no bound on the attempts; the model stops when the draws
      run out. */
  function SearchPatchA(index: seq<PatchRef>, validation: seq<int>, store: Store, candidate: PatchRef, rng: Rng)
    : Result<Drawn<PatchRef>>
    decreases |rng.draws|
  {
    if Acceptable(store.patch(candidate)) then Ok(Drawn(candidate, rng))
    else
      match DrawCandidate(index, validation, rng)
      case Err(e) => Err(e)
      case Ok(c) => SearchPatchA(index, validation, store, c.value, c.rest)
  }

  /** The loop over the 37 sampled subjects: 32 patches of every subject
      other than patch A's, each paired with patch A. */
  function PairsWithOthers(draw: SubjectDraw, subjects: seq<int>, patchA: PatchRef, acc: seq<Pair>, rng: Rng)
    : Result<Drawn<seq<Pair>>>
    decreases |subjects|
  {
    if |subjects| == 0 then Ok(Drawn(acc, rng))
    else
      match WithOne(draw, subjects[0], patchA, acc, rng)
      case Err(e) => Err(e)
      case Ok(d) => PairsWithOthers(draw, subjects[1..], patchA, d.value, d.rest)
  }

  /** One subject of that loop: nothing for patch A's own subject, else 32 of
      its patches paired with patch A. */
  function WithOne(draw: SubjectDraw, j: int, patchA: PatchRef, acc: seq<Pair>, rng: Rng): Result<Drawn<seq<Pair>>>
  {
    if j == patchA.sample then Ok(Drawn(acc, rng))
    else
      match draw(j, rng)
      case Err(e) => Err(e)
      case Ok(b) => Ok(Drawn(acc + PairWith(patchA, b.value), b.rest))
  }

  /** `create_combination_one_patch`: 37 subjects sampled first, then the
      search for patch A, then the pairs. */
  function CombinationOnePatch(index: seq<PatchRef>, validation: seq<int>, store: Store, rng: Rng)
    : Result<Drawn<seq<Pair>>>
  {
    match Sample(validation, 37, rng)
    case Err(e) => Err(e)
    case Ok(sub) =>
      match DrawCandidate(index, validation, sub.rest)
      case Err(e) => Err(e)
      case Ok(c) =>
        match SearchPatchA(index, validation, store, c.value, c.rest)
        case Err(e) => Err(e)
        case Ok(p) => PairsWithOthers(SubjectSample(index, 32), sub.value, p.value, [], p.rest)
  }

  /** The `while` loop of `create_combination_one_patch` that looks for an
      acceptable patch A. */
  method SearchLoop(index: seq<PatchRef>, validation: seq<int>, store: Store, candidate: PatchRef, rng: Rng)
    returns (r: Result<Drawn<PatchRef>>)
    requires candidate in index
    ensures r == SearchPatchA(index, validation, store, candidate, rng)
  {
    var patchA := candidate;
    var stream := rng;
    var item := store.patch(patchA);
    while CubeMean(item.data) < -1.0 || HasZero(item.truth)
      invariant item == store.patch(patchA)
      invariant SearchPatchA(index, validation, store, patchA, stream) == SearchPatchA(index, validation, store, candidate, rng)
      decreases |stream.draws|
    {
      if CubeMean(item.data) > -1.0 && CubeMean(item.truth) != 0.0 {
        break;
      }
      var selected := Choice(validation, stream);
      if selected.Err? {
        return Err(selected.error);
      }
      var selectedPatch := selected.value.value;
      var a := Choice(SubjectPatches(index, selectedPatch), selected.value.rest);
      if a.Err? {
        return Err(a.error);
      }
      assert stream.draws[1..][1..] == stream.draws[2..];
      patchA := a.value.value;
      stream := a.value.rest;
      item := store.patch(patchA);
    }
    r := Ok(Drawn(patchA, stream));
  }

  /** `for j in list_b: combination_list.append((patch_A, j))` */
  method AppendPairs(acc: seq<Pair>, patchA: PatchRef, listB: seq<PatchRef>) returns (r: seq<Pair>)
    ensures r == acc + PairWith(patchA, listB)
  {
    r := acc;
    for j := 0 to |listB|
      invariant r == acc + PairWith(patchA, listB[..j])
    {
      assert PairWith(patchA, listB[..j + 1]) == PairWith(patchA, listB[..j]) + [Pair(patchA, listB[j])];
      r := r + [Pair(patchA, listB[j])];
    }
    assert listB[..|listB|] == listB;
  }

  /** The `for` loop of `create_combination_one_patch` over the sampled
      subjects. */
  method PairLoop(index: seq<PatchRef>, subsampleVal: seq<int>, patchA: PatchRef, rng: Rng)
    returns (r: Result<Drawn<seq<Pair>>>)
    ensures r == PairsWithOthers(SubjectSample(index, 32), subsampleVal, patchA, [], rng)
  {
    var combinationList: seq<Pair> := [];
    var stream := rng;
    for t := 0 to |subsampleVal|
      invariant PairsWithOthers(SubjectSample(index, 32), subsampleVal[t..], patchA, combinationList, stream) ==
        PairsWithOthers(SubjectSample(index, 32), subsampleVal, patchA, [], rng)
    {
      assert subsampleVal[t..][1..] == subsampleVal[t + 1..];
      var i := subsampleVal[t];
      if patchA.sample != i {
        var listB := Sample(SubjectPatches(index, i), 32, stream);
        if listB.Err? {
          return Err(listB.error);
        }
        combinationList := AppendPairs(combinationList, patchA, listB.value.value);
        stream := listB.value.rest;
      }
    }
    r := Ok(Drawn(combinationList, stream));
  }

  /** `create_combination_one_patch`. */
  method CreateCombinationOnePatch(index: seq<PatchRef>, validation: seq<int>, store: Store, rng: Rng)
    returns (r: Result<Drawn<seq<Pair>>>)
    ensures r == CombinationOnePatch(index, validation, store, rng)
  {
    var sub := Sample(validation, 37, rng);
    if sub.Err? {
      return Err(sub.error);
    }
    var selected := Choice(validation, sub.value.rest);
    if selected.Err? {
      return Err(selected.error);
    }
    var a := Choice(SubjectPatches(index, selected.value.value), selected.value.rest);
    if a.Err? {
      return Err(a.error);
    }
    assert sub.value.rest.draws[1..][1..] == sub.value.rest.draws[2..];
    var found := SearchLoop(index, validation, store, a.value.value, a.value.rest);
    if found.Err? {
      return Err(found.error);
    }
    r := PairLoop(index, sub.value.value, found.value.value, found.value.rest);
  }

  /** The search ends on an acceptable catalog patch. */
  lemma {:induction false} SearchPatchASpec(
    index: seq<PatchRef>, validation: seq<int>, store: Store, candidate: PatchRef, rng: Rng)
    requires candidate in index
    ensures var r := SearchPatchA(index, validation, store, candidate, rng);
      r.Ok? ==> Acceptable(store.patch(r.value.value)) && r.value.value in index
    decreases |rng.draws|
  {
    if !Acceptable(store.patch(candidate)) {
      var c := DrawCandidate(index, validation, rng);
      if c.Ok? {
        SearchPatchASpec(index, validation, store, c.value.value, c.value.rest);
      }
    }
  }

  /** From position `from` on, every pair starts with patch A and ends with a
      catalog patch of one of `subjects` other than patch A's. */
  predicate PairedWithA(ps: seq<Pair>, from: nat, index: seq<PatchRef>, patchA: PatchRef, subjects: seq<int>)
  {
    forall k :: from <= k < |ps| ==>
      ps[k].a == patchA && ps[k].b in index && ps[k].b.sample != patchA.sample && ps[k].b.sample in subjects
  }

  /** One subject adds 32 pairs unless it is patch A's own, each pairing
      patch A with a catalog patch of that subject. */
  lemma WithOneSpec(draw: SubjectDraw, index: seq<PatchRef>, j: int, patchA: PatchRef, acc: seq<Pair>, rng: Rng, subjects: seq<int>)
    requires DrawsFrom(draw, index, 32) && j in subjects
    ensures var r := WithOne(draw, j, patchA, acc, rng);
      (r.Ok? ==>
        |r.value.value| == |acc| + (if j == patchA.sample then 0 else 32) && r.value.value[..|acc|] == acc &&
        PairedWithA(r.value.value, |acc|, index, patchA, subjects) &&
        forall k :: |acc| <= k < |r.value.value| ==> r.value.value[k].b.sample == j) &&
      (r.Err? ==> r.error == ValueError || r.error == DrawsExhausted)
  {
    if j != patchA.sample {
      var b := draw(j, rng);
      if b.Ok? {
        var ps := acc + PairWith(patchA, b.value.value);
        assert ps[..|acc|] == acc;
        forall k | |acc| <= k < |ps|
          ensures ps[k].a == patchA && ps[k].b in index && ps[k].b.sample != patchA.sample && ps[k].b.sample in subjects
          ensures ps[k].b.sample == j
        {
          assert ps[k] == Pair(patchA, b.value.value[k - |acc|]);
          assert b.value.value[k - |acc|] in b.value.value;
        }
      }
    }
  }

  /** The pairs before position `m` and those after it both qualify. */
  lemma PairedJoin(ps: seq<Pair>, from: nat, m: nat, index: seq<PatchRef>, patchA: PatchRef, subjects: seq<int>)
    requires from <= m <= |ps|
    requires PairedWithA(ps[..m], from, index, patchA, subjects) && PairedWithA(ps, m, index, patchA, subjects)
    ensures PairedWithA(ps, from, index, patchA, subjects)
  {
    forall k | from <= k < m
      ensures ps[k].a == patchA && ps[k].b in index && ps[k].b.sample != patchA.sample && ps[k].b.sample in subjects
    {
      assert ps[k] == ps[..m][k];
    }
  }

  lemma PairedWiden(ps: seq<Pair>, from: nat, index: seq<PatchRef>, patchA: PatchRef, subjects: seq<int>, wider: seq<int>)
    requires PairedWithA(ps, from, index, patchA, subjects)
    requires forall x :: x in subjects ==> x in wider
    ensures PairedWithA(ps, from, index, patchA, wider)
  {
  }

  /** Each subject other than patch A's contributes 32 pairs; only a subject
      with fewer than 32 patches or running out of draws fails. */
  lemma {:induction false} PairsWithOthersLength(
    draw: SubjectDraw, index: seq<PatchRef>, subjects: seq<int>, patchA: PatchRef, acc: seq<Pair>, rng: Rng)
    requires DrawsFrom(draw, index, 32)
    ensures var r := PairsWithOthers(draw, subjects, patchA, acc, rng);
      (r.Ok? ==> |r.value.value| == |acc| + 32 * Others(subjects, patchA.sample) && r.value.value[..|acc|] == acc) &&
      (r.Err? ==> r.error == ValueError || r.error == DrawsExhausted)
    decreases |subjects|
  {
    if |subjects| > 0 {
      WithOneSpec(draw, index, subjects[0], patchA, acc, rng, subjects);
      var d := WithOne(draw, subjects[0], patchA, acc, rng);
      if d.Ok? {
        PairsWithOthersLength(draw, index, subjects[1..], patchA, d.value.value, d.value.rest);
        var r := PairsWithOthers(draw, subjects[1..], patchA, d.value.value, d.value.rest);
        if r.Ok? {
          assert r.value.value[..|d.value.value|][..|acc|] == r.value.value[..|acc|];
        }
      }
    }
  }

  /** The 32 pairs from position `start` on pair patch A with patches of subject j. */
  predicate DrawnBlock(ps: seq<Pair>, start: nat, patchA: PatchRef, j: int)
  {
    start + 32 <= |ps| && forall k :: start <= k < start + 32 ==> ps[k].a == patchA && ps[k].b.sample == j
  }

  /** The pairs come in blocks, one per sampled subject other than patch A's,
      in sampling order: the block of the t-th subject starts after 32 pairs
      for each earlier other subject. */
  lemma {:induction false} PairsWithOthersBlocks(
    draw: SubjectDraw, index: seq<PatchRef>, subjects: seq<int>, patchA: PatchRef, acc: seq<Pair>, rng: Rng)
    requires DrawsFrom(draw, index, 32)
    ensures var r := PairsWithOthers(draw, subjects, patchA, acc, rng);
      r.Ok? ==> forall t :: 0 <= t < |subjects| && subjects[t] != patchA.sample ==>
        DrawnBlock(r.value.value, |acc| + 32 * Others(subjects[..t], patchA.sample), patchA, subjects[t])
    decreases |subjects|
  {
    if |subjects| > 0 {
      var x := patchA.sample;
      WithOneSpec(draw, index, subjects[0], patchA, acc, rng, subjects);
      var d := WithOne(draw, subjects[0], patchA, acc, rng);
      if d.Ok? {
        var rest, acc' := subjects[1..], d.value.value;
        PairsWithOthersBlocks(draw, index, rest, patchA, acc', d.value.rest);
        PairsWithOthersLength(draw, index, rest, patchA, acc', d.value.rest);
        var r := PairsWithOthers(draw, rest, patchA, acc', d.value.rest);
        if r.Ok? {
          var ps := r.value.value;
          forall t | 0 <= t < |subjects| && subjects[t] != x
            ensures DrawnBlock(ps, |acc| + 32 * Others(subjects[..t], x), patchA, subjects[t])
          {
            if t == 0 {
              assert Others(subjects[..0], x) == 0;
              forall k | |acc| <= k < |acc| + 32
                ensures ps[k].a == patchA && ps[k].b.sample == subjects[0]
              {
                assert ps[k] == ps[..|acc'|][k];
              }
            } else {
              assert subjects[..t][1..] == rest[..t - 1];
              assert rest[t - 1] == subjects[t];
            }
          }
        }
      }
    }
  }

  /** Conversely, a sampled subject other than patch A's with fewer than 32
      catalog patches makes `random.sample` raise before the loop ends. */
  lemma {:induction false} PairsWithOthersShort(
    index: seq<PatchRef>, subjects: seq<int>, patchA: PatchRef, acc: seq<Pair>, rng: Rng, j: int)
    requires j in subjects && j != patchA.sample && |SubjectPatches(index, j)| < 32
    ensures PairsWithOthers(SubjectSample(index, 32), subjects, patchA, acc, rng).Err?
    decreases |subjects|
  {
    var draw := SubjectSample(index, 32);
    var d := WithOne(draw, subjects[0], patchA, acc, rng);
    if subjects[0] == j {
      assert draw(j, rng).Err?;
    } else if d.Ok? {
      assert j in subjects[1..];
      PairsWithOthersShort(index, subjects[1..], patchA, d.value.value, d.value.rest, j);
    }
  }

  /** Every new pair starts with patch A and ends with a catalog patch of
      another sampled subject. */
  lemma {:induction false} PairsWithOthersContent(
    draw: SubjectDraw, index: seq<PatchRef>, subjects: seq<int>, patchA: PatchRef, acc: seq<Pair>, rng: Rng)
    requires DrawsFrom(draw, index, 32)
    ensures var r := PairsWithOthers(draw, subjects, patchA, acc, rng);
      r.Ok? ==> PairedWithA(r.value.value, |acc|, index, patchA, subjects)
    decreases |subjects|
  {
    if |subjects| > 0 {
      WithOneSpec(draw, index, subjects[0], patchA, acc, rng, subjects);
      var d := WithOne(draw, subjects[0], patchA, acc, rng);
      if d.Ok? {
        var rest := subjects[1..];
        PairsWithOthersContent(draw, index, rest, patchA, d.value.value, d.value.rest);
        PairsWithOthersLength(draw, index, rest, patchA, d.value.value, d.value.rest);
        var r := PairsWithOthers(draw, rest, patchA, d.value.value, d.value.rest);
        if r.Ok? {
          PairedWiden(r.value.value, |d.value.value|, index, patchA, rest, subjects);
          assert r.value.value[..|d.value.value|] == d.value.value;
          PairedJoin(r.value.value, |acc|, |d.value.value|, index, patchA, subjects);
        }
      }
    }
  }

  /** Of 37 subjects sampled without replacement, all but at most one
      differ from a given subject when the ids are distinct. */
  lemma SampledOthers(validation: seq<int>, sub: seq<int>, x: int)
    requires |sub| == 37 && multiset(sub) <= multiset(validation)
    ensures var n := Others(sub, x);
      (32 * n) % 32 == 0 && 32 * n <= 32 * 37 && (Distinct(validation) ==> n == 36 || n == 37)
  {
    OthersMultiset(sub, x);
    if Distinct(validation) {
      DistinctOnce(validation, x);
      assert multiset(sub)[x] <= multiset(validation)[x];
    }
  }

  /** The pair loop over 37 sampled subjects makes 32 pairs for each one
      other than patch A's. */
  lemma PairLoopCount(draw: SubjectDraw, index: seq<PatchRef>, validation: seq<int>, sub: seq<int>, patchA: PatchRef, rng: Rng)
    requires DrawsFrom(draw, index, 32)
    requires |sub| == 37 && multiset(sub) <= multiset(validation)
    ensures var r := PairsWithOthers(draw, sub, patchA, [], rng);
      r.Ok? ==>
        |r.value.value| % 32 == 0 && |r.value.value| <= 32 * 37 &&
        (Distinct(validation) ==> |r.value.value| == 32 * 36 || |r.value.value| == 32 * 37)
  {
    var r := PairsWithOthers(draw, sub, patchA, [], rng);
    PairsWithOthersLength(draw, index, sub, patchA, [], rng);
    SampledOthers(validation, sub, patchA.sample);
    if r.Ok? {
      var n := Others(sub, patchA.sample);
      assert |r.value.value| == 32 * n;
    }
  }

  /** `create_combination_one_patch` raises ValueError with fewer than 37
      subjects; otherwise it makes 32 pairs per sampled subject other than
      patch A's, which with distinct subject ids is 36 or 37 subjects' worth. */
  lemma CombinationOnePatchCount(index: seq<PatchRef>, validation: seq<int>, store: Store, rng: Rng)
    ensures var r := CombinationOnePatch(index, validation, store, rng);
      (|validation| < 37 ==> r == Err(ValueError)) &&
      (r.Ok? ==>
        |r.value.value| % 32 == 0 && |r.value.value| <= 32 * 37 &&
        (Distinct(validation) ==> |r.value.value| == 32 * 36 || |r.value.value| == 32 * 37))
  {
    var r := CombinationOnePatch(index, validation, store, rng);
    var sub := Sample(validation, 37, rng);
    if r.Ok? {
      assert sub.Ok?;
      var c := DrawCandidate(index, validation, sub.value.rest);
      assert c.Ok?;
      var p := SearchPatchA(index, validation, store, c.value.value, c.value.rest);
      assert p.Ok? && r == PairsWithOthers(SubjectSample(index, 32), sub.value.value, p.value.value, [], p.value.rest);
      SubjectSampleSpec(index, 32);
      PairLoopCount(SubjectSample(index, 32), index, validation, sub.value.value, p.value.value, p.value.rest);
    } else if |validation| < 37 {
      assert sub == Err(ValueError);
    }
  }

  /** Every pair of `create_combination_one_patch` has the same patch A, one
      that passed the search, and a patch B from another subject of the
      validation list. */
  lemma CombinationOnePatchContent(index: seq<PatchRef>, validation: seq<int>, store: Store, rng: Rng)
    ensures var r := CombinationOnePatch(index, validation, store, rng);
      r.Ok? ==>
        var ps := r.value.value;
        forall k :: 0 <= k < |ps| ==>
          ps[k].a == ps[0].a && Acceptable(store.patch(ps[k].a)) && ps[k].a in index && ps[k].b in index &&
          ps[k].b.sample != ps[k].a.sample && ps[k].b.sample in validation
  {
    var r := CombinationOnePatch(index, validation, store, rng);
    if r.Ok? {
      var sub := Sample(validation, 37, rng);
      assert sub.Ok?;
      var c := DrawCandidate(index, validation, sub.value.rest);
      assert c.Ok?;
      SearchPatchASpec(index, validation, store, c.value.value, c.value.rest);
      var p := SearchPatchA(index, validation, store, c.value.value, c.value.rest);
      assert p.Ok? && r == PairsWithOthers(SubjectSample(index, 32), sub.value.value, p.value.value, [], p.value.rest);
      SampleMembers(validation, 37, rng);
      SubjectSampleSpec(index, 32);
      PairLoopContent(SubjectSample(index, 32), index, validation, store, sub.value.value, p.value.value, p.value.rest);
    }
  }

  /** The pair loop pairs an acceptable patch A with catalog patches of the
      other sampled subjects. */
  lemma PairLoopContent(
    draw: SubjectDraw, index: seq<PatchRef>, validation: seq<int>, store: Store, sub: seq<int>, patchA: PatchRef, rng: Rng)
    requires DrawsFrom(draw, index, 32)
    requires forall x :: x in sub ==> x in validation
    requires Acceptable(store.patch(patchA)) && patchA in index
    ensures var r := PairsWithOthers(draw, sub, patchA, [], rng);
      r.Ok? ==>
        var ps := r.value.value;
        forall k :: 0 <= k < |ps| ==>
          ps[k].a == ps[0].a && Acceptable(store.patch(ps[k].a)) && ps[k].a in index && ps[k].b in index &&
          ps[k].b.sample != ps[k].a.sample && ps[k].b.sample in validation
  {
    PairsWithOthersContent(draw, index, sub, patchA, [], rng);
  }

  /** `for h in list_a: for x in list_b: (h, x)` */
  function Cross(listA: seq<PatchRef>, listB: seq<PatchRef>): (r: seq<Pair>)
    ensures |r| == |listA| * |listB|
    ensures forall p :: p in r ==> p.a in listA && p.b in listB
  {
    if |listA| == 0 then []
    else
      MulSucc(|listA|, |listB|);
      PairWith(listA[0], listB) + Cross(listA[1..], listB)
  }

  /** The cross product is `list_a`-major: pair (h, x) sits at `h * |list_b| + x`. */
  lemma CrossOrder(listA: seq<PatchRef>, listB: seq<PatchRef>)
    ensures forall h, x :: 0 <= h < |listA| && 0 <= x < |listB| ==> CrossCell(listA, listB, h, x)
  {
    forall h, x | 0 <= h < |listA| && 0 <= x < |listB|
      ensures CrossCell(listA, listB, h, x)
    {
      CrossAt(listA, listB, h, x);
    }
  }

  /** Pair (h, x) of the cross product sits at `h * |list_b| + x`. */
  predicate CrossCell(listA: seq<PatchRef>, listB: seq<PatchRef>, h: nat, x: nat)
    requires h < |listA| && x < |listB|
  {
    h * |listB| + x < |Cross(listA, listB)| && Cross(listA, listB)[h * |listB| + x] == Pair(listA[h], listB[x])
  }

  /** `CrossOrder` at one position, by induction on the row. */
  lemma {:induction false} CrossAt(listA: seq<PatchRef>, listB: seq<PatchRef>, h: nat, x: nat)
    requires h < |listA| && x < |listB|
    ensures CrossCell(listA, listB, h, x)
    decreases h
  {
    var tail := Cross(listA[1..], listB);
    assert Cross(listA, listB) == PairWith(listA[0], listB) + tail;
    if h > 0 {
      CrossAt(listA[1..], listB, h - 1, x);
      MulSucc(h, |listB|);
      assert listA[1..][h - 1] == listA[h];
    }
  }

  /** The inner loop of `create_combination_list` for subject i and the
      subjects of `pool`: 30 patches of every subject j != i, crossed with
      `listA`. */
  function PairsAgainst(draw: SubjectDraw, listA: seq<PatchRef>, i: int, pool: seq<int>, acc: seq<Pair>, rng: Rng)
    : Result<Drawn<seq<Pair>>>
    decreases |pool|
  {
    if |pool| == 0 then Ok(Drawn(acc, rng))
    else
      match AgainstOne(draw, listA, i, pool[0], acc, rng)
      case Err(e) => Err(e)
      case Ok(d) => PairsAgainst(draw, listA, i, pool[1..], d.value, d.rest)
  }

  /** One subject j of the inner loop: nothing when j is i, else 30 of its
      patches crossed with `listA`. */
  function AgainstOne(draw: SubjectDraw, listA: seq<PatchRef>, i: int, j: int, acc: seq<Pair>, rng: Rng)
    : Result<Drawn<seq<Pair>>>
  {
    if j == i then Ok(Drawn(acc, rng))
    else
      match draw(j, rng)
      case Err(e) => Err(e)
      case Ok(b) => Ok(Drawn(acc + Cross(listA, b.value), b.rest))
  }

  /** One outer iteration: 30 patches of subject i, then the inner loop. */
  function Round(draw: SubjectDraw, i: int, pool: seq<int>, acc: seq<Pair>, rng: Rng): Result<Drawn<seq<Pair>>>
  {
    match draw(i, rng)
    case Err(e) => Err(e)
    case Ok(a) => PairsAgainst(draw, a.value, i, pool, acc, a.rest)
  }

  /** One outer iteration, as the outer loops see it: the subject, the list
      its inner loop runs over, the pairs so far and the random state. */
  type RoundStep = (int, seq<int>, seq<Pair>, Rng) -> Result<Drawn<seq<Pair>>>

  /** The outer iteration of `create_combination_list` with a given draw. */
  function RoundOf(draw: SubjectDraw): RoundStep
  {
    (i, pool, acc, rng) => Round(draw, i, pool, acc, rng)
  }

  /** The outer loop as written: `enumerate` over `subsample_val` while
      `subsample_val.pop(0)` ends every iteration, so iteration `ind` takes
      the subject at position `ind` of what is left and crosses it with all
      of what is left; it stops once `ind` reaches the shrinking length. */
  function PoppingRounds(round: RoundStep, subsampleVal: seq<int>, ind: nat, acc: seq<Pair>, rng: Rng)
    : Result<Drawn<seq<Pair>>>
    decreases |subsampleVal|
  {
    if ind >= |subsampleVal| then Ok(Drawn(acc, rng))
    else
      match round(subsampleVal[ind], subsampleVal, acc, rng)
      case Err(e) => Err(e)
      case Ok(d) => PoppingRounds(round, subsampleVal[1..], ind + 1, d.value, d.rest)
  }

  /** The subjects the as-written outer loop takes its list_a from. */
  function OuterSubjects(subsampleVal: seq<int>, ind: nat): seq<int>
    decreases |subsampleVal|
  {
    if ind >= |subsampleVal| then [] else [subsampleVal[ind]] + OuterSubjects(subsampleVal[1..], ind + 1)
  }

  /** The as-written outer loop read on the original draws: iteration k takes
      draw 2k as subject i and crosses it with draws k.., and the loop stops
      once 2k reaches the number of draws. */
  function SkippingRounds(round: RoundStep, draws: seq<int>, k: nat, acc: seq<Pair>, rng: Rng)
    : Result<Drawn<seq<Pair>>>
    decreases |draws| - k
  {
    if k + k >= |draws| then Ok(Drawn(acc, rng))
    else
      match round(draws[k + k], draws[k..], acc, rng)
      case Err(e) => Err(e)
      case Ok(d) => SkippingRounds(round, draws, k + 1, d.value, d.rest)
  }

  /** The outer loop as evidently intended: iteration k takes draw k, and its
      inner loop runs over draws k.., so every two draws are crossed once. */
  function RoundsFixed(round: RoundStep, draws: seq<int>, k: nat, acc: seq<Pair>, rng: Rng)
    : Result<Drawn<seq<Pair>>>
    decreases |draws| - k
  {
    if k >= |draws| then Ok(Drawn(acc, rng))
    else
      match round(draws[k], draws[k..], acc, rng)
      case Err(e) => Err(e)
      case Ok(d) => RoundsFixed(round, draws, k + 1, d.value, d.rest)
  }

  /** `create_combination_list` as written: 37 subjects drawn with
      replacement, then the popping outer loop. */
  function CombinationList(draw: SubjectDraw, validation: seq<int>, rng: Rng): Result<Drawn<seq<Pair>>>
  {
    match Choices(validation, 37, rng)
    case Err(e) => Err(e)
    case Ok(d) => PoppingRounds(RoundOf(draw), d.value, 0, [], d.rest)
  }

  /** `create_combination_list` with the outer loop over a copy of the draws. */
  function CombinationListFixed(draw: SubjectDraw, validation: seq<int>, rng: Rng): Result<Drawn<seq<Pair>>>
  {
    match Choices(validation, 37, rng)
    case Err(e) => Err(e)
    case Ok(d) => RoundsFixed(RoundOf(draw), d.value, 0, [], d.rest)
  }

  /** `for h in list_a: for x in list_b: combination_list.append((h, x))` */
  method AppendCross(acc: seq<Pair>, listA: seq<PatchRef>, listB: seq<PatchRef>) returns (r: seq<Pair>)
    ensures r == acc + Cross(listA, listB)
  {
    r := acc;
    for h := 0 to |listA|
      invariant r + Cross(listA[h..], listB) == acc + Cross(listA, listB)
    {
      assert listA[h..][1..] == listA[h + 1..];
      assert Cross(listA[h..], listB) == PairWith(listA[h], listB) + Cross(listA[h + 1..], listB);
      assert r + Cross(listA[h..], listB) == (r + PairWith(listA[h], listB)) + Cross(listA[h + 1..], listB);
      r := AppendPairs(r, listA[h], listB);
    }
  }

  /** One outer iteration of `create_combination_list`. */
  method PairRound(index: seq<PatchRef>, i: int, pool: seq<int>, acc: seq<Pair>, rng: Rng)
    returns (r: Result<Drawn<seq<Pair>>>)
    ensures r == Round(SubjectSample(index, 30), i, pool, acc, rng)
  {
    var listA := Sample(SubjectPatches(index, i), 30, rng);
    if listA.Err? {
      return Err(listA.error);
    }
    var combinationList := acc;
    var stream := listA.value.rest;
    for t := 0 to |pool|
      invariant PairsAgainst(SubjectSample(index, 30), listA.value.value, i, pool[t..], combinationList, stream) ==
        Round(SubjectSample(index, 30), i, pool, acc, rng)
    {
      assert pool[t..][1..] == pool[t + 1..];
      var j := pool[t];
      if i != j {
        var listB := Sample(SubjectPatches(index, j), 30, stream);
        if listB.Err? {
          return Err(listB.error);
        }
        combinationList := AppendCross(combinationList, listA.value.value, listB.value.value);
        stream := listB.value.rest;
      }
    }
    r := Ok(Drawn(combinationList, stream));
  }

  /** The outer loop of `create_combination_list` as written: `enumerate`
      over `subsample_val` with `subsample_val.pop(0)` at the end of every
      iteration. */
  method PoppingLoop(index: seq<PatchRef>, draws: seq<int>, rng: Rng) returns (r: Result<Drawn<seq<Pair>>>)
    ensures r == PoppingRounds(RoundOf(SubjectSample(index, 30)), draws, 0, [], rng)
  {
    var subsampleVal := draws;
    var combinationList: seq<Pair> := [];
    var stream := rng;
    var ind := 0;
    while ind < |subsampleVal|
      invariant PoppingRounds(RoundOf(SubjectSample(index, 30)), subsampleVal, ind, combinationList, stream) ==
        PoppingRounds(RoundOf(SubjectSample(index, 30)), draws, 0, [], rng)
      decreases |subsampleVal|
    {
      var round := PairRound(index, subsampleVal[ind], subsampleVal, combinationList, stream);
      if round.Err? {
        return Err(round.error);
      }
      combinationList := round.value.value;
      stream := round.value.rest;
      subsampleVal := subsampleVal[1..];
      ind := ind + 1;
    }
    r := Ok(Drawn(combinationList, stream));
  }

  /** `create_combination_list` as written. */
  method CreateCombinationList(index: seq<PatchRef>, validation: seq<int>, rng: Rng)
    returns (r: Result<Drawn<seq<Pair>>>)
    ensures r == CombinationList(SubjectSample(index, 30), validation, rng)
  {
    var d := Choices(validation, 37, rng);
    if d.Err? {
      return Err(d.error);
    }
    r := PoppingLoop(index, d.value.value, d.value.rest);
  }

  /** `create_combination_list` with the outer loop over a copy of the draws,
      so that popping the head no longer skips subjects. */
  method CreateCombinationListFixed(index: seq<PatchRef>, validation: seq<int>, rng: Rng)
    returns (r: Result<Drawn<seq<Pair>>>)
    ensures r == CombinationListFixed(SubjectSample(index, 30), validation, rng)
  {
    var d := Choices(validation, 37, rng);
    if d.Err? {
      return Err(d.error);
    }
    var subjects := d.value.value;
    var subsampleVal := subjects;
    var combinationList: seq<Pair> := [];
    var stream := d.value.rest;
    for ind := 0 to |subjects|
      invariant subsampleVal == subjects[ind..]
      invariant RoundsFixed(RoundOf(SubjectSample(index, 30)), subjects, ind, combinationList, stream) ==
        CombinationListFixed(SubjectSample(index, 30), validation, rng)
    {
      var round := PairRound(index, subjects[ind], subsampleVal, combinationList, stream);
      if round.Err? {
        return Err(round.error);
      }
      combinationList := round.value.value;
      stream := round.value.rest;
      subsampleVal := subsampleVal[1..];
    }
    r := Ok(Drawn(combinationList, stream));
  }

  /** From position `from` on, every pair crosses a catalog patch of one of
      `firsts` with a catalog patch of another subject, one of `seconds`. */
  predicate Crossed(ps: seq<Pair>, from: nat, index: seq<PatchRef>, firsts: seq<int>, seconds: seq<int>)
  {
    forall k :: from <= k < |ps| ==>
      ps[k].a in index && ps[k].b in index && ps[k].a.sample in firsts && ps[k].b.sample in seconds &&
      ps[k].a.sample != ps[k].b.sample
  }

  /** One subject of the inner loop adds 900 pairs unless it is subject i. */
  lemma AgainstOneLength(
    draw: SubjectDraw, index: seq<PatchRef>, listA: seq<PatchRef>, i: int, j: int, acc: seq<Pair>, rng: Rng)
    requires DrawsFrom(draw, index, 30) && |listA| == 30
    ensures var r := AgainstOne(draw, listA, i, j, acc, rng);
      (r.Ok? ==> |r.value.value| == |acc| + (if j == i then 0 else 900) && r.value.value[..|acc|] == acc) &&
      (r.Err? ==> r.error == ValueError || r.error == DrawsExhausted)
  {
    var r := AgainstOne(draw, listA, i, j, acc, rng);
    if r.Ok? {
      assert r.value.value[..|acc|] == acc;
    }
  }

  /** The inner loop adds 900 pairs (30 patches of list_a, 30 of the other
      subject) per subject of the pool other than i; only a subject with fewer
      than 30 patches or running out of draws fails. */
  lemma {:induction false} PairsAgainstLength(
    draw: SubjectDraw, index: seq<PatchRef>, listA: seq<PatchRef>, i: int, pool: seq<int>, acc: seq<Pair>, rng: Rng)
    requires DrawsFrom(draw, index, 30) && |listA| == 30
    ensures var r := PairsAgainst(draw, listA, i, pool, acc, rng);
      (r.Ok? ==> |r.value.value| == |acc| + 900 * Others(pool, i) && r.value.value[..|acc|] == acc) &&
      (r.Err? ==> r.error == ValueError || r.error == DrawsExhausted)
    decreases |pool|
  {
    if |pool| > 0 {
      AgainstOneLength(draw, index, listA, i, pool[0], acc, rng);
      var d := AgainstOne(draw, listA, i, pool[0], acc, rng);
      if d.Ok? {
        PairsAgainstLength(draw, index, listA, i, pool[1..], d.value.value, d.value.rest);
        var r := PairsAgainst(draw, listA, i, pool[1..], d.value.value, d.value.rest);
        if r.Ok? {
          assert r.value.value[..|d.value.value|][..|acc|] == r.value.value[..|acc|];
        }
      }
    }
  }

  /** Conversely, a subject j != i of the pool with fewer than 30 catalog
      patches makes `random.sample` raise before the inner loop ends. */
  lemma {:induction false} PairsAgainstShort(
    index: seq<PatchRef>, listA: seq<PatchRef>, i: int, pool: seq<int>, acc: seq<Pair>, rng: Rng, j: int)
    requires j in pool && j != i && |SubjectPatches(index, j)| < 30
    ensures PairsAgainst(SubjectSample(index, 30), listA, i, pool, acc, rng).Err?
    decreases |pool|
  {
    var draw := SubjectSample(index, 30);
    var d := AgainstOne(draw, listA, i, pool[0], acc, rng);
    if pool[0] == j {
      assert draw(j, rng).Err?;
    } else if d.Ok? {
      assert j in pool[1..];
      PairsAgainstShort(index, listA, i, pool[1..], d.value.value, d.value.rest, j);
    }
  }

  /** An outer iteration fails when subject i, or another subject of its
      pool, has fewer than 30 catalog patches. */
  lemma RoundShort(index: seq<PatchRef>, i: int, pool: seq<int>, acc: seq<Pair>, rng: Rng, j: int)
    requires j == i || j in pool
    requires |SubjectPatches(index, j)| < 30
    ensures Round(SubjectSample(index, 30), i, pool, acc, rng).Err?
  {
    var a := SubjectSample(index, 30)(i, rng);
    if j != i && a.Ok? {
      PairsAgainstShort(index, a.value.value, i, pool, acc, a.value.rest, j);
    }
  }

  /** From position `from` on, every pair crosses a catalog patch of subject
      i with a catalog patch of another subject of `pool`. */
  predicate CrossedWith(ps: seq<Pair>, from: nat, index: seq<PatchRef>, i: int, pool: seq<int>)
  {
    forall k :: from <= k < |ps| ==>
      ps[k].a in index && ps[k].b in index && ps[k].a.sample == i && ps[k].b.sample in pool && ps[k].b.sample != i
  }

  /** Crossing patches of subject i with patches of subject j != i. */
  lemma CrossContent(listA: seq<PatchRef>, listB: seq<PatchRef>, index: seq<PatchRef>, i: int, j: int, pool: seq<int>)
    requires forall h :: h in listA ==> h in index && h.sample == i
    requires forall x :: x in listB ==> x in index && x.sample == j
    requires i != j && j in pool
    ensures CrossedWith(Cross(listA, listB), 0, index, i, pool)
  {
    var c := Cross(listA, listB);
    forall k | 0 <= k < |c| ensures c[k].a in index && c[k].b in index && c[k].a.sample == i && c[k].b.sample in pool && c[k].b.sample != i {
      assert c[k] in c;
    }
  }

  /** One subject j of the pool adds pairs of subject i with subject j. */
  lemma AgainstOneContent(
    draw: SubjectDraw, index: seq<PatchRef>, listA: seq<PatchRef>, i: int, j: int, pool: seq<int>, acc: seq<Pair>, rng: Rng)
    requires DrawsFrom(draw, index, 30)
    requires forall h :: h in listA ==> h in index && h.sample == i
    requires j in pool
    ensures var r := AgainstOne(draw, listA, i, j, acc, rng);
      r.Ok? ==> |acc| <= |r.value.value| && r.value.value[..|acc|] == acc && CrossedWith(r.value.value, |acc|, index, i, pool)
  {
    if j != i {
      var b := draw(j, rng);
      if b.Ok? {
        var c := Cross(listA, b.value.value);
        CrossContent(listA, b.value.value, index, i, j, pool);
        var ps := acc + c;
        assert ps[..|acc|] == acc;
        forall k | |acc| <= k < |ps|
          ensures ps[k].a in index && ps[k].b in index && ps[k].a.sample == i && ps[k].b.sample in pool && ps[k].b.sample != i
        {
          assert ps[k] == c[k - |acc|];
        }
      }
    }
  }

  /** The pairs before position `m` and those after it both qualify. */
  lemma CrossedWithJoin(ps: seq<Pair>, from: nat, m: nat, index: seq<PatchRef>, i: int, pool: seq<int>)
    requires from <= m <= |ps|
    requires CrossedWith(ps[..m], from, index, i, pool) && CrossedWith(ps, m, index, i, pool)
    ensures CrossedWith(ps, from, index, i, pool)
  {
    forall k | from <= k < m
      ensures ps[k].a in index && ps[k].b in index && ps[k].a.sample == i && ps[k].b.sample in pool && ps[k].b.sample != i
    {
      assert ps[k] == ps[..m][k];
    }
  }

  lemma CrossedWithWiden(ps: seq<Pair>, from: nat, index: seq<PatchRef>, i: int, pool: seq<int>, wider: seq<int>)
    requires CrossedWith(ps, from, index, i, pool)
    requires forall x :: x in pool ==> x in wider
    ensures CrossedWith(ps, from, index, i, wider)
  {
  }

  /** Every pair of the inner loop crosses a patch of subject i with a patch
      of another subject of the pool. */
  lemma {:induction false} PairsAgainstContent(
    draw: SubjectDraw, index: seq<PatchRef>, listA: seq<PatchRef>, i: int, pool: seq<int>, acc: seq<Pair>, rng: Rng)
    requires DrawsFrom(draw, index, 30)
    requires forall h :: h in listA ==> h in index && h.sample == i
    ensures var r := PairsAgainst(draw, listA, i, pool, acc, rng);
      r.Ok? ==> |acc| <= |r.value.value| && r.value.value[..|acc|] == acc && CrossedWith(r.value.value, |acc|, index, i, pool)
    decreases |pool|
  {
    if |pool| > 0 {
      AgainstOneContent(draw, index, listA, i, pool[0], pool, acc, rng);
      var d := AgainstOne(draw, listA, i, pool[0], acc, rng);
      if d.Ok? {
        var rest := pool[1..];
        PairsAgainstContent(draw, index, listA, i, rest, d.value.value, d.value.rest);
        var r := PairsAgainst(draw, listA, i, rest, d.value.value, d.value.rest);
        if r.Ok? {
          var ps := r.value.value;
          assert ps[..|d.value.value|][..|acc|] == ps[..|acc|];
          CrossedWithWiden(ps, |d.value.value|, index, i, rest, pool);
          CrossedWithJoin(ps, |acc|, |d.value.value|, index, i, pool);
        }
      }
    }
  }

  /** One outer iteration adds 900 pairs per subject of the pool other than
      i; only a subject with fewer than 30 patches or running out of draws
      fails. */
  lemma RoundLength(draw: SubjectDraw, index: seq<PatchRef>, i: int, pool: seq<int>, acc: seq<Pair>, rng: Rng)
    requires DrawsFrom(draw, index, 30)
    ensures var r := Round(draw, i, pool, acc, rng);
      (r.Ok? ==> |r.value.value| == |acc| + 900 * Others(pool, i)) &&
      (r.Err? ==> r.error == ValueError || r.error == DrawsExhausted)
  {
    var a := draw(i, rng);
    if a.Ok? {
      PairsAgainstLength(draw, index, a.value.value, i, pool, acc, a.value.rest);
    }
  }

  /** Every pair of one outer iteration crosses subject i with another
      subject of the pool, after the pairs made before it. */
  lemma RoundContent(draw: SubjectDraw, index: seq<PatchRef>, i: int, pool: seq<int>, acc: seq<Pair>, rng: Rng)
    requires DrawsFrom(draw, index, 30)
    ensures var r := Round(draw, i, pool, acc, rng);
      r.Ok? ==> (|acc| <= |r.value.value| && r.value.value[..|acc|] == acc &&
        CrossedWith(r.value.value, |acc|, index, i, pool))
  {
    var a := draw(i, rng);
    if a.Ok? {
      PairsAgainstContent(draw, index, a.value.value, i, pool, acc, a.value.rest);
    }
  }

  /** In a list without repeats that holds x, all other elements differ from x. */
  lemma {:induction false} OthersOfMember(s: seq<int>, x: int)
    requires Distinct(s) && x in s
    ensures Others(s, x) == |s| - 1
  {
    OthersMultiset(s, x);
    DistinctOnce(s, x);
  }

  /** (N-1-j) + (N-2-j) + ... + (N-m): the other subjects met by iterations
      j..m-1 when every draw is distinct. */
  function SumDown(n: int, j: nat, m: nat): int
    decreases m - j
  {
    if j >= m then 0 else (n - 1 - j) + SumDown(n, j + 1, m)
  }

  lemma {:induction false} SumDownClosed(n: int, j: nat, m: nat)
    requires j <= m
    ensures 2 * SumDown(n, j, m) == (m - j) * (2 * n - 1 - j - m)
    decreases m - j
  {
    if j < m {
      SumDownClosed(n, j + 1, m);
      assert (m - j) * (2 * n - 1 - j - m) == (m - j - 1) * (2 * n - 1 - j - m) + (2 * n - 1 - j - m);
      assert (m - j - 1) * (2 * n - 2 - j - m) == (m - j - 1) * (2 * n - 1 - j - m) - (m - j - 1);
    }
  }

  /** A round that adds 900 pairs per subject of its list other than its own. */
  ghost predicate CountsPairs(round: RoundStep)
  {
    forall i, pool, acc, rng :: round(i, pool, acc, rng).Ok? ==>
      |round(i, pool, acc, rng).value.value| == |acc| + 900 * Others(pool, i)
  }

  /** A round that keeps the pairs so far and adds only pairs crossing its
      subject with another subject of its list. */
  ghost predicate CrossesSubjects(round: RoundStep, index: seq<PatchRef>)
  {
    forall i, pool, acc, rng :: round(i, pool, acc, rng).Ok? ==>
      var ps := round(i, pool, acc, rng).value.value;
      |acc| <= |ps| && ps[..|acc|] == acc && CrossedWith(ps, |acc|, index, i, pool)
  }

  /** One outer iteration of a round step with the crossing property. */
  lemma CrossesAt(round: RoundStep, index: seq<PatchRef>, i: int, pool: seq<int>, acc: seq<Pair>, rng: Rng)
    requires CrossesSubjects(round, index) && round(i, pool, acc, rng).Ok?
    ensures var ps := round(i, pool, acc, rng).value.value;
      |acc| <= |ps| && ps[..|acc|] == acc && CrossedWith(ps, |acc|, index, i, pool)
  {
  }

  /** The outer iteration of `create_combination_list` has both properties. */
  lemma RoundOfSpec(draw: SubjectDraw, index: seq<PatchRef>)
    requires DrawsFrom(draw, index, 30)
    ensures CountsPairs(RoundOf(draw)) && CrossesSubjects(RoundOf(draw), index)
  {
    var round := RoundOf(draw);
    forall i, pool, acc, rng | round(i, pool, acc, rng).Ok?
      ensures |round(i, pool, acc, rng).value.value| == |acc| + 900 * Others(pool, i)
    {
      RoundLength(draw, index, i, pool, acc, rng);
    }
    forall i, pool, acc, rng | round(i, pool, acc, rng).Ok?
      ensures var ps := round(i, pool, acc, rng).value.value;
        |acc| <= |ps| && ps[..|acc|] == acc && CrossedWith(ps, |acc|, index, i, pool)
    {
      RoundContent(draw, index, i, pool, acc, rng);
    }
  }

  /** Pairs made by the as-written loop from a list of n distinct subjects
      when `ind` iterations have run: each iteration crosses its subject with
      the n - 1 others still in the list, and the list loses its head. */
  function PoppedPairs(n: nat, ind: nat): nat
    decreases n
  {
    if ind >= n then 0 else (n - 1) + PoppedPairs(n - 1, ind + 1)
  }

  /** Distinct draws stay distinct once the head is popped. */
  lemma DistinctTail(s: seq<int>)
    requires Distinct(s) && |s| > 0
    ensures Distinct(s[1..])
  {
    forall p, q | 0 <= p < q < |s[1..]| ensures s[1..][p] != s[1..][q] {
      assert s[1..][p] == s[p + 1] && s[1..][q] == s[q + 1];
    }
  }

  /** As written, with distinct subjects, iteration `ind` adds 900 pairs per
      other subject left in the list. */
  lemma {:induction false} PoppingRoundsLength(round: RoundStep, subsampleVal: seq<int>, ind: nat, acc: seq<Pair>, rng: Rng)
    requires CountsPairs(round) && Distinct(subsampleVal)
    ensures var r := PoppingRounds(round, subsampleVal, ind, acc, rng);
      r.Ok? ==> |r.value.value| == |acc| + 900 * PoppedPairs(|subsampleVal|, ind)
    decreases |subsampleVal|
  {
    if ind < |subsampleVal| {
      var i := subsampleVal[ind];
      var d := round(i, subsampleVal, acc, rng);
      if d.Ok? {
        OthersOfMember(subsampleVal, i);
        DistinctTail(subsampleVal);
        PoppingRoundsLength(round, subsampleVal[1..], ind + 1, d.value.value, d.value.rest);
      }
    }
  }

  /** With the fixed loop, iteration k also meets |draws| - k - 1 other
      subjects, but every iteration runs. */
  lemma {:induction false} RoundsFixedLength(round: RoundStep, draws: seq<int>, k: nat, acc: seq<Pair>, rng: Rng)
    requires CountsPairs(round) && Distinct(draws) && k <= |draws|
    ensures var r := RoundsFixed(round, draws, k, acc, rng);
      r.Ok? ==> |r.value.value| == |acc| + 900 * SumDown(|draws|, k, |draws|)
    decreases |draws| - k
  {
    if k < |draws| {
      var pool := draws[k..];
      assert draws[k] == pool[0];
      assert Distinct(pool) by {
        forall p, q | 0 <= p < q < |pool| ensures pool[p] != pool[q] {
          assert pool[p] == draws[k + p] && pool[q] == draws[k + q];
        }
      }
      OthersOfMember(pool, draws[k]);
      var d := round(draws[k], pool, acc, rng);
      if d.Ok? {
        RoundsFixedLength(round, draws, k + 1, d.value.value, d.value.rest);
      }
    }
  }

  /** Pairs of subject i with subjects of the pool, seen from the whole list. */
  lemma CrossedWithWidens(ps: seq<Pair>, from: nat, index: seq<PatchRef>, i: int, pool: seq<int>, firsts: seq<int>, seconds: seq<int>)
    requires CrossedWith(ps, from, index, i, pool)
    requires i in firsts && forall x :: x in pool ==> x in seconds
    ensures Crossed(ps, from, index, firsts, seconds)
  {
  }

  /** A list that extends `head` qualifies from `from` on when `head` does and
      the pairs after `head` do. */
  lemma CrossedJoin(ps: seq<Pair>, head: seq<Pair>, from: nat, index: seq<PatchRef>, firsts: seq<int>, seconds: seq<int>)
    requires from <= |head| <= |ps| && ps[..|head|] == head
    requires Crossed(head, from, index, firsts, seconds) && Crossed(ps, |head|, index, firsts, seconds)
    ensures Crossed(ps, from, index, firsts, seconds)
  {
    forall k | from <= k < |head|
      ensures ps[k].a in index && ps[k].b in index && ps[k].a.sample in firsts && ps[k].b.sample in seconds &&
        ps[k].a.sample != ps[k].b.sample
    {
      assert ps[k] == head[k];
    }
  }

  /** The draws from position k on are draws. */
  lemma SuffixMembers(draws: seq<int>, k: nat)
    requires k <= |draws|
    ensures forall x :: x in draws[k..] ==> x in draws
  {
  }

  /** As written, patch A comes from one of the outer loop's subjects and
      patch B from another subject of the list. */
  lemma {:induction false} PoppingRoundsContent(
    round: RoundStep, index: seq<PatchRef>, subsampleVal: seq<int>, ind: nat, acc: seq<Pair>, rng: Rng)
    requires CrossesSubjects(round, index)
    ensures var r := PoppingRounds(round, subsampleVal, ind, acc, rng);
      r.Ok? ==> (|acc| <= |r.value.value| && r.value.value[..|acc|] == acc &&
        Crossed(r.value.value, |acc|, index, OuterSubjects(subsampleVal, ind), subsampleVal))
    decreases |subsampleVal|
  {
    var r := PoppingRounds(round, subsampleVal, ind, acc, rng);
    if r.Ok? && ind < |subsampleVal| {
      var i := subsampleVal[ind];
      var rest := subsampleVal[1..];
      var d := round(i, subsampleVal, acc, rng);
      PoppingRoundsContent(round, index, rest, ind + 1, d.value.value, d.value.rest);
      var ps := r.value.value;
      var head := d.value.value;
      assert ps[..|head|][..|acc|] == ps[..|acc|];
      var firsts := OuterSubjects(subsampleVal, ind);
      assert firsts == [i] + OuterSubjects(rest, ind + 1);
      SuffixMembers(subsampleVal, 1);
      CrossedWiden(ps, |head|, index, OuterSubjects(rest, ind + 1), rest, firsts, subsampleVal);
      CrossedWithWidens(head, |acc|, index, i, subsampleVal, firsts, subsampleVal);
      CrossedJoin(ps, head, |acc|, index, firsts, subsampleVal);
    } else if r.Ok? {
      assert r.value.value == acc && acc[..|acc|] == acc;
    }
  }

  lemma CrossedWiden(ps: seq<Pair>, from: nat, index: seq<PatchRef>, firsts: seq<int>, seconds: seq<int>,
                     firsts': seq<int>, seconds': seq<int>)
    requires Crossed(ps, from, index, firsts, seconds)
    requires forall x :: x in firsts ==> x in firsts'
    requires forall x :: x in seconds ==> x in seconds'
    ensures Crossed(ps, from, index, firsts', seconds')
  {
  }

  /** Every subject the as-written outer loop takes is still in the list. */
  lemma {:induction false} OuterSubjectsIn(subsampleVal: seq<int>, ind: nat)
    ensures forall x :: x in OuterSubjects(subsampleVal, ind) ==> x in subsampleVal
    decreases |subsampleVal|
  {
    if ind < |subsampleVal| {
      OuterSubjectsIn(subsampleVal[1..], ind + 1);
      SuffixMembers(subsampleVal, 1);
    }
  }

  /** The as-written outer loop takes every other subject: from position
      `ind`, the k-th subject it takes is the one at `ind + 2k`, and it takes
      `ceil((len - ind) / 2)` of them. */
  lemma {:induction false} OuterSubjectsEveryOther(subsampleVal: seq<int>, ind: nat)
    ensures var o := OuterSubjects(subsampleVal, ind);
      |o| == (if ind >= |subsampleVal| then 0 else (|subsampleVal| - ind + 1) / 2) &&
      forall k :: 0 <= k < |o| ==> ind + 2 * k < |subsampleVal| && o[k] == subsampleVal[ind + 2 * k]
    decreases |subsampleVal|
  {
    if ind < |subsampleVal| {
      var rest := subsampleVal[1..];
      OuterSubjectsEveryOther(rest, ind + 1);
      var o := OuterSubjects(subsampleVal, ind);
      assert o == [subsampleVal[ind]] + OuterSubjects(rest, ind + 1);
      forall k | 1 <= k < |o|
        ensures ind + 2 * k < |subsampleVal| && o[k] == subsampleVal[ind + 2 * k]
      {
        assert o[k] == OuterSubjects(rest, ind + 1)[k - 1];
        assert rest[ind + 1 + 2 * (k - 1)] == subsampleVal[ind + 2 * k];
      }
    }
  }

  /** Popping the head while enumerating, started at draw k of the original
      list, is SkippingRounds: iteration k takes draw 2k and crosses it with
      draws k.. only. */
  lemma {:induction false} PoppingRoundsSkip(round: RoundStep, draws: seq<int>, k: nat, acc: seq<Pair>, rng: Rng)
    requires k <= |draws|
    ensures PoppingRounds(round, draws[k..], k, acc, rng) == SkippingRounds(round, draws, k, acc, rng)
    decreases |draws| - k
  {
    if k + k < |draws| {
      assert draws[k..][k] == draws[k + k];
      assert draws[k..][1..] == draws[k + 1..];
      match round(draws[k + k], draws[k..], acc, rng)
      case Err(e) =>
      case Ok(d) => PoppingRoundsSkip(round, draws, k + 1, d.value, d.rest);
    }
  }

  /** With distinct subjects, the as-written outer loop never takes a
      subject that sits before position `ind`, nor one an odd distance after
      it: each pop moves the next subject into the position the index just
      skipped. */
  lemma {:induction false} OuterSubjectsSkip(subsampleVal: seq<int>, ind: nat, q: nat)
    requires Distinct(subsampleVal) && q < |subsampleVal|
    requires q < ind || (q - ind) % 2 == 1
    ensures subsampleVal[q] !in OuterSubjects(subsampleVal, ind)
    decreases |subsampleVal|
  {
    if ind < |subsampleVal| {
      var rest := subsampleVal[1..];
      DistinctTail(subsampleVal);
      if q == 0 {
        OuterSubjectsIn(rest, ind + 1);
        assert subsampleVal[0] !in rest by {
          forall p | 0 <= p < |rest| ensures rest[p] != subsampleVal[0] {
            assert rest[p] == subsampleVal[p + 1];
          }
        }
      } else {
        assert subsampleVal[q] == rest[q - 1];
        OuterSubjectsSkip(rest, ind + 1, q - 1);
      }
      assert OuterSubjects(subsampleVal, ind) == [subsampleVal[ind]] + OuterSubjects(rest, ind + 1);
    }
  }

  /** With the fixed loop, patch A may come from any draw, and the two patches
      of a pair still come from different subjects. */
  lemma {:induction false} RoundsFixedContent(
    round: RoundStep, index: seq<PatchRef>, draws: seq<int>, k: nat, acc: seq<Pair>, rng: Rng)
    requires CrossesSubjects(round, index)
    ensures var r := RoundsFixed(round, draws, k, acc, rng);
      r.Ok? ==> (|acc| <= |r.value.value| && r.value.value[..|acc|] == acc &&
        Crossed(r.value.value, |acc|, index, draws, draws))
    decreases |draws| - k
  {
    var r := RoundsFixed(round, draws, k, acc, rng);
    if r.Ok? && k < |draws| {
      var pool := draws[k..];
      var d := round(draws[k], pool, acc, rng);
      assert d.Ok? && r == RoundsFixed(round, draws, k + 1, d.value.value, d.value.rest);
      RoundsFixedContent(round, index, draws, k + 1, d.value.value, d.value.rest);
      var ps := r.value.value;
      var head := d.value.value;
      CrossesAt(round, index, draws[k], pool, acc, rng);
      assert ps[..|head|][..|acc|] == ps[..|acc|];
      SuffixMembers(draws, k);
      CrossedWithWidens(head, |acc|, index, draws[k], pool, draws, draws);
      CrossedJoin(ps, head, |acc|, index, draws, draws);
    } else if r.Ok? {
      assert r.value.value == acc && acc[..|acc|] == acc;
    }
  }

  /** Positions `start` to `start + 899` of ps pair a patch of subject i with
      a patch of subject j: one crossing of 30 patches with 30 patches. */
  predicate Block(ps: seq<Pair>, start: nat, i: int, j: int)
  {
    start + 900 <= |ps| && forall m :: start <= m < start + 900 ==> ps[m].a.sample == i && ps[m].b.sample == j
  }

  /** Somewhere in ps, a block pairs subject i with subject j. */
  ghost predicate CrossedSomewhere(ps: seq<Pair>, i: int, j: int)
  {
    exists start :: Block(ps, start, i, j)
  }

  /** Every draw p is crossed with every later draw q somewhere in ps. */
  ghost predicate CoversDraws(ps: seq<Pair>, draws: seq<int>)
  {
    forall p, q :: 0 <= p < q < |draws| ==> CrossedSomewhere(ps, draws[p], draws[q])
  }

  /** A block stays where it is when pairs are appended after it. */
  lemma BlockKept(ps: seq<Pair>, ps': seq<Pair>, start: nat, i: int, j: int)
    requires Block(ps, start, i, j) && |ps| <= |ps'| && ps'[..|ps|] == ps
    ensures Block(ps', start, i, j)
  {
    forall m | start <= m < start + 900
      ensures ps'[m] == ps[m]
    {
      assert ps'[..|ps|][m] == ps'[m];
    }
  }

  /** Crossing 30 patches of subject i with 30 of subject j appends a block. */
  lemma CrossBlock(acc: seq<Pair>, listA: seq<PatchRef>, listB: seq<PatchRef>, i: int, j: int)
    requires |listA| == 30 && |listB| == 30
    requires forall h :: h in listA ==> h.sample == i
    requires forall x :: x in listB ==> x.sample == j
    ensures Block(acc + Cross(listA, listB), |acc|, i, j)
  {
    var c := Cross(listA, listB);
    forall m | |acc| <= m < |acc| + 900
      ensures (acc + c)[m].a.sample == i && (acc + c)[m].b.sample == j
    {
      assert (acc + c)[m] == c[m - |acc|];
      assert c[m - |acc|] in c;
    }
  }

  /** The inner loop crosses list_a with every subject j != i of its pool. */
  lemma {:induction false} PairsAgainstCovers(
    draw: SubjectDraw, index: seq<PatchRef>, listA: seq<PatchRef>, i: int, pool: seq<int>, acc: seq<Pair>, rng: Rng, j: int)
    requires DrawsFrom(draw, index, 30) && |listA| == 30
    requires forall h :: h in listA ==> h.sample == i
    requires j in pool && j != i
    ensures var r := PairsAgainst(draw, listA, i, pool, acc, rng);
      r.Ok? ==> exists start :: |acc| <= start && Block(r.value.value, start, i, j)
    decreases |pool|
  {
    var r := PairsAgainst(draw, listA, i, pool, acc, rng);
    if r.Ok? {
      var d := AgainstOne(draw, listA, i, pool[0], acc, rng);
      assert d.Ok? && r == PairsAgainst(draw, listA, i, pool[1..], d.value.value, d.value.rest);
      AgainstOneLength(draw, index, listA, i, pool[0], acc, rng);
      PairsAgainstLength(draw, index, listA, i, pool[1..], d.value.value, d.value.rest);
      if pool[0] == j {
        var b := draw(j, rng).value;
        CrossBlock(acc, listA, b.value, i, j);
        BlockKept(d.value.value, r.value.value, |acc|, i, j);
      } else {
        assert j in pool[1..];
        PairsAgainstCovers(draw, index, listA, i, pool[1..], d.value.value, d.value.rest, j);
      }
    }
  }

  /** One outer iteration crosses subject i with every other subject of its pool. */
  lemma RoundCovers(draw: SubjectDraw, index: seq<PatchRef>, i: int, pool: seq<int>, acc: seq<Pair>, rng: Rng, j: int)
    requires DrawsFrom(draw, index, 30)
    requires j in pool && j != i
    ensures var r := Round(draw, i, pool, acc, rng);
      r.Ok? ==> exists start :: |acc| <= start && Block(r.value.value, start, i, j)
  {
    var a := draw(i, rng);
    if a.Ok? {
      PairsAgainstCovers(draw, index, a.value.value, i, pool, acc, a.value.rest, j);
    }
  }

  /** The corrected outer loop, from iteration k on, crosses draw p with every
      later draw q of another subject. */
  lemma {:induction false} RoundsFixedCovers(
    draw: SubjectDraw, index: seq<PatchRef>, draws: seq<int>, k: nat, acc: seq<Pair>, rng: Rng, p: nat, q: nat)
    requires DrawsFrom(draw, index, 30)
    requires k <= p < q < |draws| && draws[p] != draws[q]
    ensures var r := RoundsFixed(RoundOf(draw), draws, k, acc, rng);
      r.Ok? ==> exists start :: |acc| <= start && Block(r.value.value, start, draws[p], draws[q])
    decreases |draws| - k
  {
    var r := RoundsFixed(RoundOf(draw), draws, k, acc, rng);
    if r.Ok? {
      var d := Round(draw, draws[k], draws[k..], acc, rng);
      assert RoundOf(draw)(draws[k], draws[k..], acc, rng) == d;
      assert d.Ok? && r == RoundsFixed(RoundOf(draw), draws, k + 1, d.value.value, d.value.rest);
      RoundContent(draw, index, draws[k], draws[k..], acc, rng);
      if k == p {
        assert draws[k..][q - k] == draws[q];
        RoundCovers(draw, index, draws[p], draws[k..], acc, rng, draws[q]);
        var start :| |acc| <= start && Block(d.value.value, start, draws[p], draws[q]);
        RoundOfSpec(draw, index);
        RoundsFixedContent(RoundOf(draw), index, draws, k + 1, d.value.value, d.value.rest);
        BlockKept(d.value.value, r.value.value, start, draws[p], draws[q]);
      } else {
        RoundsFixedCovers(draw, index, draws, k + 1, d.value.value, d.value.rest, p, q);
      }
    }
  }

  /** With distinct draws, the corrected outer loop crosses every draw with
      every later one. */
  lemma FixedLoopCovers(draw: SubjectDraw, index: seq<PatchRef>, draws: seq<int>, rng: Rng)
    requires DrawsFrom(draw, index, 30) && Distinct(draws)
    ensures var r := RoundsFixed(RoundOf(draw), draws, 0, [], rng);
      r.Ok? ==> CoversDraws(r.value.value, draws)
  {
    var r := RoundsFixed(RoundOf(draw), draws, 0, [], rng);
    if r.Ok? {
      forall p, q | 0 <= p < q < |draws|
        ensures CrossedSomewhere(r.value.value, draws[p], draws[q])
      {
        RoundsFixedCovers(draw, index, draws, 0, [], rng, p, q);
        var start :| 0 <= start && Block(r.value.value, start, draws[p], draws[q]);
      }
    }
  }

  /** 36 + 35 + ... + 18: the pairs of the 19 as-written iterations over 37
      subjects, in units of 900. */
  lemma PoppedPairsValue()
    ensures PoppedPairs(37, 0) == 513
  {
    PoppedPairsClosed(37, 0);
    SumDownClosed(37, 0, 19);
  }

  /** After t iterations over a list of n subjects, t of them popped, the
      remaining iterations are those the index reaches before the middle of
      the original list. */
  lemma {:induction false} PoppedPairsClosed(n: nat, t: nat)
    requires t <= n - n / 2
    ensures PoppedPairs(n - t, t) == SumDown(n, t, n - n / 2)
    decreases n - t
  {
    if t < n - t {
      PoppedPairsClosed(n, t + 1);
      assert n - t - 1 == n - (t + 1);
    }
  }

  /** Popping the head of `subsample_val` while enumerating it: with 37
      distinct draws the as-written loop has 19 outer iterations and makes
      900 * 513 pairs, and no pair has its patch A from the second draw.
      Every pair still joins two different subjects. */
  lemma CombinationListSkipsDraws(draw: SubjectDraw, index: seq<PatchRef>, validation: seq<int>, rng: Rng)
    requires DrawsFrom(draw, index, 30)
    requires Choices(validation, 37, rng).Ok?
    requires Distinct(Choices(validation, 37, rng).value.value)
    ensures var draws := Choices(validation, 37, rng).value.value;
      var r := CombinationList(draw, validation, rng);
      r.Ok? ==> (|r.value.value| == 900 * 513 &&
        forall p :: p in r.value.value ==> p.a.sample != draws[1] && p.a.sample != p.b.sample)
  {
    var d := Choices(validation, 37, rng).value;
    assert CombinationList(draw, validation, rng) == PoppingRounds(RoundOf(draw), d.value, 0, [], d.rest);
    PoppingLoopSkips(draw, index, d.value, d.rest);
  }

  /** The as-written loop over 37 distinct subjects. */
  lemma PoppingLoopSkips(draw: SubjectDraw, index: seq<PatchRef>, draws: seq<int>, rng: Rng)
    requires DrawsFrom(draw, index, 30)
    requires |draws| == 37 && Distinct(draws)
    ensures var r := PoppingRounds(RoundOf(draw), draws, 0, [], rng);
      r.Ok? ==> (|r.value.value| == 900 * 513 &&
        forall p :: p in r.value.value ==> p.a.sample != draws[1] && p.a.sample != p.b.sample)
  {
    var r := PoppingRounds(RoundOf(draw), draws, 0, [], rng);
    RoundOfSpec(draw, index);
    PoppingRoundsLength(RoundOf(draw), draws, 0, [], rng);
    PoppedPairsValue();
    PoppingRoundsContent(RoundOf(draw), index, draws, 0, [], rng);
    OuterSubjectsSkip(draws, 0, 1);
    if r.Ok? {
      forall p | p in r.value.value ensures p.a.sample != draws[1] && p.a.sample != p.b.sample {
        var j :| 0 <= j < |r.value.value| && r.value.value[j] == p;
      }
    }
  }

  /** With the loop over a copy of the 37 distinct draws, every two draws are
      crossed: 900 * 666 pairs, each joining two different subjects, with a
      block of 900 pairs for every draw p and later draw q. */
  lemma CombinationListFixedSpec(draw: SubjectDraw, index: seq<PatchRef>, validation: seq<int>, rng: Rng)
    requires DrawsFrom(draw, index, 30)
    requires Choices(validation, 37, rng).Ok?
    requires Distinct(Choices(validation, 37, rng).value.value)
    ensures var draws := Choices(validation, 37, rng).value.value;
      var r := CombinationListFixed(draw, validation, rng);
      r.Ok? ==> (|r.value.value| == 900 * 666 &&
        (forall p :: p in r.value.value ==> p.a.sample != p.b.sample) &&
        CoversDraws(r.value.value, draws))
  {
    var d := Choices(validation, 37, rng).value;
    assert CombinationListFixed(draw, validation, rng) == RoundsFixed(RoundOf(draw), d.value, 0, [], d.rest);
    FixedLoopSpec(draw, index, d.value, d.rest);
  }

  /** The corrected loop over 37 distinct subjects. */
  lemma FixedLoopSpec(draw: SubjectDraw, index: seq<PatchRef>, draws: seq<int>, rng: Rng)
    requires DrawsFrom(draw, index, 30)
    requires |draws| == 37 && Distinct(draws)
    ensures var r := RoundsFixed(RoundOf(draw), draws, 0, [], rng);
      r.Ok? ==> (|r.value.value| == 900 * 666 &&
        (forall p :: p in r.value.value ==> p.a.sample != p.b.sample) &&
        CoversDraws(r.value.value, draws))
  {
    var r := RoundsFixed(RoundOf(draw), draws, 0, [], rng);
    RoundOfSpec(draw, index);
    RoundsFixedLength(RoundOf(draw), draws, 0, [], rng);
    SumDownClosed(37, 0, 37);
    RoundsFixedContent(RoundOf(draw), index, draws, 0, [], rng);
    FixedLoopCovers(draw, index, draws, rng);
    if r.Ok? {
      forall p | p in r.value.value ensures p.a.sample != p.b.sample {
        var j :| 0 <= j < |r.value.value| && r.value.value[j] == p;
      }
    }
  }
}
