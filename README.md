# Patch engine of the JDOT training data generator and the patch comparison study

This project models, in Dafny, the patch-level work-item engine of
`patches_comparaison/generator_jdot.py` and the pair sampling, scoring and
selection logic of `patches_comparaison/compare_patches.py`. It then proves what
that code guarantees.

The unit of work is a patch reference `(sample index, (x, y, z))` (`PatchData.PatchRef`).
The model covers:

- the catalog of all patch references of a set of samples
  (`create_patch_index_list`);
- the training/validation split and its pickle cache (`split_a_list`,
  `get_validation_split`);
- the two quality filters and their cached wrappers
  (`get_patches_with_ground_truth`, `get_patches_with_intensity_ceil`,
  `save_patches_with_gt`, `save_patches_with_ceil`) and the two-centre
  dispatcher `get_patches_index_list`;
- the batch assembler that pops the caller's queue in rounds
  (`multi_proc_loop`, `add_data_mp`, `add_data`), the generator around it
  (`data_generator_jdot_multi_proc`) and the source/target composer
  `get_batch_jdot`;
- the label post-processing (`convert_data`, `get_multi_class_labels`), the batch
  augmenter `multi_proc_augment_data` and `get_number_of_steps`;
- the three combination generators of `compare_patches.py`, the cache and
  scoring loop of `main`, and the ordering done by `select_patches`.

Modules, one file each:

| module | file | content |
|---|---|---|
| `Py` | py.dfy | exceptions, `Result`, the Python list object (`List`) and the pickle files (`Disk`) |
| `Volumes` | volumes.dfy | sub-cubes and the statistics the code takes of them (`np.mean`, `np.max`, `np.any`) |
| `RandomSource` | random_source.dfy | `random.choice`, `choices`, `sample`, `shuffle` and `get_random_nd_index` over an explicit stream of draws |
| `PatchData` | patch_data.dfy | patch references, the read-only dataset store, `add_data_mp`, `add_data` |
| `Catalog` | catalog.dfy | `create_patch_index_list`, `split_a_list`, `get_validation_split`, `get_number_of_steps` |
| `QualityFilter` | quality_filter.dfy | the two filters and the two cached saves |
| `IndexLists` | index_lists.dfy | `get_patches_index_list` |
| `Labels` | labels.dfy | `convert_data`, `get_multi_class_labels` |
| `Assembler` | assembler.dfy | `multi_proc_loop`, `data_generator_jdot_multi_proc`, `get_batch_jdot` |
| `Augmentation` | augment.dfy | `multi_proc_augment_data`, as written and corrected |
| `Combinations` | combinations.dfy | the three combination generators |
| `Scoring` | scoring.dfy | `main`'s cache and scoring loop, `select_patches` |

How the model is built:

- Code that changes state step by step is a `method` proved against a specification
  function, e.g. `ensures r == PatchCatalog(...)` or
  `ensures (r, disk.files) == ValidationSplit(old(disk.files), ...)`. The properties
  are lemmas about that function.
- The caller's lists that the source pops and appends to are `Py.List` objects.
- Pickle files are a `Py.Disk` whose `files` map is rewritten by `Dump`.

### Behaviour of the code worth noting

The model keeps these behaviours of the code:

- Results of a round are read back in submission order (`[r.get() for r in
  results]`, generator_jdot.py:357-362), not in the order the workers complete.
- The refs a call of `multi_proc_loop` does not pop stay in the caller's list
  (generator_jdot.py:349). They are not discarded. `Assembler.Generate` returns
  them, and `Assembler.GenerateBatchBound` proves they are the untouched front
  of the list.
- `get_batch_jdot` returns the source and target affine lists separately
  (generator_jdot.py:106). They are not merged (`Assembler.Joint`).
- With `all`, only augmentation and permutation are switched off
  (generator_jdot.py:333-337). `skip_blank` still applies
  (`Assembler.EffectivePolicy`).
- `affine_list` gains one affine per popped ref (generator_jdot.py:356), not one
  per batch entry.
- A recompute in `get_validation_split` shuffles `range(nb_samples)`, then returns
  and persists `split_list` (generator_jdot.py:253-259). The model keeps this
  precedence, and the shuffle still uses draws.
- An empty batch is a one-dimensional numpy array of length 0
  (generator_jdot.py:667-668). With more than one label, `data[:, 0]` on it
  raises IndexError (generator_jdot.py:688-690). `np.vstack` of an empty batch
  with a batch of sub-cubes raises ValueError, and two empty batches stack into
  two empty rows (generator_jdot.py:98-99, `Assembler.Stack`).
- `open(combination_path, 'wb')` empties the cache file before `pickle.dump`
  runs (compare_patches.py:41-42). When the mode is unknown, the dump raises
  UnboundLocalError and leaves an empty `combination.pkl`. A later run that loads
  it raises EOFError (compare_patches.py:44-46, `Scoring.CacheFile`).

## Model

| member | source | states |
|---|---|---|
| `Py.List.Pop` | patches_comparaison/generator_jdot.py:349 | `list.pop()` removes the last element and returns it; the rest of the list is untouched |
| `Py.List.Append` | patches_comparaison/generator_jdot.py:368-369 | `list.append(x)` adds x at the end and changes nothing else |
| `Py.Disk.Exists` | patches_comparaison/generator_jdot.py:250 | `os.path.exists` holds exactly for a path a pickle was written to |
| `Py.Disk.Dump` | patches_comparaison/generator_jdot.py:258-259 | `pickle_dump` replaces the value at one path and leaves every other file alone |
| `Py.Disk.Load` | patches_comparaison/generator_jdot.py:262 | `pickle_load` returns what was last dumped at the path, and a missing file raises FileNotFoundError |
| `Volumes.Max` | patches_comparaison/generator_jdot.py:505 | `np.max` is one of the voxels and no voxel exceeds it |
| `Volumes.SumOfNonNegative` | patches_comparaison/generator_jdot.py:486 | a sum of non-negative voxels is non-negative, and is zero exactly when every voxel is zero |
| `Volumes.MeanNonzeroIffForeground` | patches_comparaison/generator_jdot.py:486 | for a label with no negative voxel, `np.mean(truth) != 0` and `np.mean(truth) > 0` each hold exactly when some voxel is nonzero (the claim of the comment on that line) |
| `RandomSource.Choice` | patches_comparaison/compare_patches.py:157-158 | `random.choice` yields an element of the population and uses one draw; an empty population raises IndexError |
| `RandomSource.Choices` | patches_comparaison/compare_patches.py:138 | `random.choices(k=k)` yields k elements of the population, drawn with replacement, using k draws |
| `RandomSource.Sample` | patches_comparaison/compare_patches.py:111 | `random.sample` raises ValueError when k is negative or exceeds the population; otherwise it yields k elements drawn without replacement (a sub-multiset of the population) |
| `RandomSource.SampleMembers` | patches_comparaison/compare_patches.py:128 | every element of a sample belongs to the population |
| `RandomSource.Shuffle` | patches_comparaison/generator_jdot.py:267 | `shuffle` yields a permutation of its input (same multiset and length) and uses one draw per element |
| `PatchData.AddDataMp` | patches_comparaison/generator_jdot.py:616-652 | ValueError exactly when permuting a non-cubic sub-cube; otherwise two lists of equal length 0 or 1, empty exactly when skip_blank is set and the prepared label has no nonzero voxel, else holding the augmented/permuted pair |
| `PatchData.AddDataMpPlain` | patches_comparaison/generator_jdot.py:635-652 | with every switch off, the fetched pair comes back unchanged as the single entry |
| `PatchData.AddData` | patches_comparaison/generator_jdot.py:576-613 | `add_data` appends to the caller's lists exactly what `add_data_mp` returns for the fetched pair and the sample's affine, and on ValueError changes neither list |
| `Catalog.CreatePatchIndexList` | patches_comparaison/generator_jdot.py:555-573 | the loop builds the catalog sample by sample, as `PatchCatalog` defines it |
| `Catalog.CatalogWithoutOffsetShape` | patches_comparaison/generator_jdot.py:565-572 | without an offset bound the catalog has `len(samples) * len(grid)` refs and uses no draw |
| `Catalog.CatalogWithoutOffsetAt` | patches_comparaison/generator_jdot.py:566-572 | without an offset bound, the ref of sample i and grid corner j sits at position `i * len(grid) + j`: `itertools.product([index], patches)` (`Catalog.Product`) pairs each sample with every corner, in order |
| `Catalog.CatalogWithoutOffsetMembers` | patches_comparaison/generator_jdot.py:566-572 | without an offset bound, a ref is in the catalog exactly when its sample is listed and its corner is on the grid |
| `Catalog.CatalogWithOffset` | patches_comparaison/generator_jdot.py:567-569 | with an offset bound, `get_random_nd_index` (`RandomSource.RandomNdIndex`) consumes exactly one coordinate of the numpy stream per sample, the catalog is built exactly when there are enough, earlier refs are kept, and every new ref belongs to a listed sample |
| `Catalog.Trunc` | patches_comparaison/generator_jdot.py:268 | `int(x)` truncates toward zero: for x >= 0 the result is the integer at or just below x, for x < 0 the integer at or just above it |
| `Catalog.SliceBound` | patches_comparaison/generator_jdot.py:269-270 | a Python slice bound falls inside the list, and an in-range bound is kept as is |
| `Catalog.CutPoint` | patches_comparaison/generator_jdot.py:268-270 | for a fraction in [0, 1] the cut is `floor(len * split)`, and it never passes the end of the list |
| `Catalog.SplitAListPartition` | patches_comparaison/generator_jdot.py:265-271 | training and testing together are a permutation of the input, and exactly the input without shuffling; only running out of draws fails |
| `Catalog.SplitAListSize` | patches_comparaison/generator_jdot.py:268-269 | for a fraction in [0, 1] the training part holds `floor(len * split)` elements |
| `Catalog.GetValidationSplit` | patches_comparaison/generator_jdot.py:240-262 | the method's outcome and the pickle files after it are those of `ValidationSplit` |
| `Catalog.ValidationSplitCache` | patches_comparaison/generator_jdot.py:250-262 | recomputes exactly when `change_validation` is set or the training file is missing, and then returns and persists `split_list[0]`/`split_list[1]` whatever `data_split` says; otherwise returns the persisted lists, draws nothing and writes nothing |
| `Catalog.ValidationSplitIdempotent` | patches_comparaison/generator_jdot.py:250-262 | after a successful call, a call without `change_validation` returns the same split, draws nothing and writes nothing |
| `Catalog.GetNumberOfSteps` | patches_comparaison/generator_jdot.py:232-238 | the sample count itself when it fits in one batch, otherwise the least number of batches covering all samples; a zero batch size with samples raises ZeroDivisionError |
| `Labels.BinarizeKeepsForeground` | patches_comparaison/generator_jdot.py:669-670 | `y[y > 0] = 1` (`Labels.Binarize`, voxel by voxel `Labels.BinarizeVoxels`) keeps each voxel's zero/nonzero status, maps positives to exactly 1, leaves non-positives alone, and is stable under a second application |
| `Labels.BinarizeIdempotent` | patches_comparaison/generator_jdot.py:670 | binarising twice is binarising once |
| `Labels.GetMultiClassLabels` | patches_comparaison/generator_jdot.py:676-691 | the outcome is `MultiClassLabels`; it raises IndexError exactly when the batch is empty (`data[:, 0]` on a one-dimensional array) or there are fewer label values than `n_labels`; on success there is one entry per sample with `n_labels` channels, and channel k is 1 exactly where the sample's first channel equals `labels[k]` (k + 1 without labels) and 0 everywhere else |
| `Labels.OneHotExclusive` | patches_comparaison/generator_jdot.py:686-690 | with distinct label values no voxel is set in two channels |
| `Labels.ConvertData` | patches_comparaison/generator_jdot.py:666-673 | images pass through; one label binarises every label cube; with several labels y is exactly `MultiClassLabels` of the label cubes (the one-hot encoding `Labels.GetMultiClassLabels` characterises), and the call raises IndexError exactly when the batch is empty or there are too few label values; fewer than one label leaves y alone |
| `QualityFilter.ReversedTwice` | patches_comparaison/generator_jdot.py:484 | popping every ref (`QualityFilter.Reversed`, last first) and popping the result again gives the list back |
| `QualityFilter.ReversedAppend` | patches_comparaison/generator_jdot.py:484 | popping every ref of `a + b` hands out b's refs, last first, before a's |
| `QualityFilter.ReversedMembers` | patches_comparaison/generator_jdot.py:480-484 | popping every ref visits exactly the refs of the list |
| `QualityFilter.KeepMembers` | patches_comparaison/generator_jdot.py:486-487 | a ref is kept exactly when it is in the input and passes the test, and never more refs are kept than given |
| `QualityFilter.CountSplit` | patches_comparaison/generator_jdot.py:505-511 | `tp + fn` is the number of lesion refs |
| `QualityFilter.CountReversed` | patches_comparaison/generator_jdot.py:503-511 | a tally does not depend on the pop order |
| `QualityFilter.CountZero` | patches_comparaison/generator_jdot.py:534 | a tally is zero exactly when no ref passes its test |
| `QualityFilter.GetPatchesWithGroundTruth` | patches_comparaison/generator_jdot.py:470-488 | empties the caller's list and returns, in pop order, exactly the refs whose label mean is nonzero |
| `QualityFilter.GetPatchesWithIntensityCeil` | patches_comparaison/generator_jdot.py:490-535 | empties the caller's list; `tp` counts the lesion refs kept, `fn` the lesion refs dropped; the result is `CeilOutcome` |
| `QualityFilter.CeilOutcomeSpec` | patches_comparaison/generator_jdot.py:505-506 | division by zero exactly when no ref is a lesion; otherwise a ref is kept exactly when it is in the input and `max(data[0]) > ceil` |
| `QualityFilter.GroundTruthFilterSpec` | patches_comparaison/generator_jdot.py:486 | the ground-truth filter keeps exactly the refs with a nonzero label mean; for non-negative labels that is the skip_blank test of `add_data_mp`, so a kept ref is never dropped later |
| `QualityFilter.SavePatchesWithGt` | patches_comparaison/generator_jdot.py:415-432 | the random stream and files after the call are those of `SavedPatches` with the ground-truth filter |
| `QualityFilter.SavePatchesWithCeil` | patches_comparaison/generator_jdot.py:442-459 | the random stream and files after the call are those of `SavedPatches` with the intensity ceiling |
| `QualityFilter.SavedPatchesCache` | patches_comparaison/generator_jdot.py:427-432 | an existing file is left alone unless `overwrite` is set, and no draw is used; otherwise the file is rewritten to hold exactly the catalog refs that pass the filter, and no other file changes |
| `IndexLists.PathsDiffer` | patches_comparaison/generator_jdot.py:142-143 | the training and validation lists of a centre go to different files |
| `IndexLists.PreparePatchList` | patches_comparaison/generator_jdot.py:147-183 | one list through the chosen filter's save and load, or built and dumped without a filter, as `PatchList` defines |
| `IndexLists.PrepareDomain` | patches_comparaison/generator_jdot.py:134-183 | one centre: the key split, then its two patch lists, as `DomainLists` defines |
| `IndexLists.GetPatchesIndexList` | patches_comparaison/generator_jdot.py:109-230 | the source centre with `split_list[0]`, then the target centre with `split_list[1]`, as `PatchesIndexList` defines |
| `IndexLists.FreshPatchList` | patches_comparaison/generator_jdot.py:147-183 | a rebuilt list holds exactly the grid refs of the keys that the dispatched filter admits (skip_blank over ceil over none), and is what its file now holds |
| `IndexLists.DomainListsFresh` | patches_comparaison/generator_jdot.py:134-183 | with `change_validation`, the key files get `split_list` verbatim and each patch list holds exactly the admitted grid refs of its subjects |
| `IndexLists.DomainListsCached` | patches_comparaison/generator_jdot.py:147-170 | without `change_validation` and with all four files present and a filter chosen, the stored lists come back, nothing is drawn and no file changes |
| `IndexLists.UnfilteredListsRewritten` | patches_comparaison/generator_jdot.py:173-183 | without a filter both patch files are rewritten on every call, even when the key split is cached |
| `IndexLists.ShortSplitList` | patches_comparaison/generator_jdot.py:188-193 | a one-entry `split_list` raises IndexError, but only after the source centre's files are written |
| `Assembler.EffectivePolicy` | patches_comparaison/generator_jdot.py:333-337 | with `all`, augmentation and permutation are off and skip_blank is kept; without it the switches are unchanged |
| `Assembler.RoundWidth` | patches_comparaison/generator_jdot.py:342-345 | a round's pool size is `min(number_of_threads, len(index_list))`: at most each of the two, and equal to one of them |
| `Assembler.PopOrderRebuilds` | patches_comparaison/generator_jdot.py:348-349 | the first n refs popped (`Assembler.PopOrder`), read backwards after the refs left, give the list back: they are its last n, last first |
| `Assembler.FirstError` | patches_comparaison/generator_jdot.py:362 | reading results back raises exactly when some worker failed |
| `Assembler.Round` | patches_comparaison/generator_jdot.py:339-377 | a round that does not stop the loop shortens the queue, so the loop terminates |
| `Assembler.RunLoop` | patches_comparaison/generator_jdot.py:339-377 | a run never grows the queue |
| `Assembler.EmitsLength` | patches_comparaison/generator_jdot.py:365-369 | the appended x and y entries are equally many, at most one per result, exactly one per non-blank result |
| `Assembler.RoundShape` | patches_comparaison/generator_jdot.py:342-377 | `Pool(n)` with n < 1 raises; otherwise the round pops n refs from the end and records their affines; then a failed worker raises with nothing appended, or the non-blank results the counter admits are appended and the break test decides |
| `Assembler.LoopPopsFromEnd` | patches_comparaison/generator_jdot.py:339-356 | a run pops the tail of the caller's queue, leaves the front untouched, and gains one affine per popped ref, that of its sample (`Assembler.AffinesOf`), blank, surplus or failed alike |
| `Assembler.LoopBatchBound` | patches_comparaison/generator_jdot.py:330-369 | `len(x_list) + remaining_batch` is invariant, x and y only grow together by appends, and without `all` the counter never goes negative, so at most `batch_size` entries are appended |
| `Assembler.LoopContent` | patches_comparaison/generator_jdot.py:362-369 | a run that returns met no failing worker, and x and y gained exactly the non-blank results of the popped refs, in pop order, up to the counter |
| `Assembler.LoopExit` | patches_comparaison/generator_jdot.py:339-377 | a run returns with refs left only on a full batch (never with `all`); n < 1 raises before popping; with a thread and no failing worker it always returns |
| `Assembler.RoundRaises` | patches_comparaison/generator_jdot.py:362 | a round with a failing worker raises that worker's error after popping |
| `Assembler.RoundGoesOn` | patches_comparaison/generator_jdot.py:365-377 | a round without a failing worker appends its results and then stops or goes on by the break test |
| `Assembler.PopRound` | patches_comparaison/generator_jdot.py:348-359 | pops n refs and returns their workers' results and affines in submission order |
| `Assembler.Collect` | patches_comparaison/generator_jdot.py:362 | the first failed result raises; otherwise all values come back in order |
| `Assembler.AppendRound` | patches_comparaison/generator_jdot.py:365-369 | appends the round's non-blank results while `remaining_batch` allows (always with `all`) and returns the new counter |
| `Assembler.MultiProcLoop` | patches_comparaison/generator_jdot.py:310-378 | the queue, the x and y lists, the affines and the exit after the loop are those of `RunLoop` |
| `Assembler.GenerateBatchBound` | patches_comparaison/generator_jdot.py:298-308 | without `all`, a batch never holds more than `batch_size` entries, holds exactly that many whenever refs are left, the refs left are the front of the caller's list, and there is one affine per popped ref |
| `Assembler.GenerateAll` | patches_comparaison/generator_jdot.py:333-377 | with `all`, a generator that returns has consumed the whole queue and its batch holds every non-blank result, in pop order |
| `Assembler.NonBlankRun` | patches_comparaison/generator_jdot.py:339-377 | when every ref yields a non-blank pair, the run returns the first `min(batch_size, len(queue))` popped refs' images, in pop order |
| `Assembler.FullBatchWithoutBlanks` | patches_comparaison/generator_jdot.py:298-308 | the generator's batch then holds exactly those refs' prepared images; with more than one label and no ref to take (empty queue or `batch_size` 0) it raises IndexError instead |
| `Assembler.AllBlankExhaustsQueue` | patches_comparaison/generator_jdot.py:298-377 | when every label is blank under skip_blank, the generator pops the whole queue; with one label or none it returns an empty batch with one affine per ref, with more than one it raises IndexError |
| `Assembler.DataGenerator` | patches_comparaison/generator_jdot.py:273-308 | the outcome and the refs left in the caller's list are those of `Generate`, including the IndexError of `convert_data` on an empty batch with more than one label |
| `Assembler.Stack` | patches_comparaison/generator_jdot.py:98-99 | `np.vstack` raises ValueError exactly when one batch is empty and the other is not; two empty batches give two empty rows; otherwise the source cubes come first, then the target cubes |
| `Assembler.JointBatchBound` | patches_comparaison/generator_jdot.py:60-106 | a stacked batch of cubes is the source batch followed by the target batch (the source batch alone without the target), with at most `batch_size` entries per domain used; two empty rows arise only when the target was used and both domain batches are empty; target affines exist exactly when the target was used, with one source affine per popped source ref |
| `Assembler.JointBatchEmptyDomain` | patches_comparaison/generator_jdot.py:60-106 | with both domains generated, exactly one empty batch makes the joint batch raise ValueError, two empty batches give two empty rows, and two non-empty ones give stacked cubes |
| `Assembler.GetBatchJdot` | patches_comparaison/generator_jdot.py:18-106 | the outcome and both callers' lists afterwards are those of `JointBatch`: source first, then target, stacked as `np.vstack` does |
| `Augmentation.FirstSlotError` | patches_comparaison/generator_jdot.py:395-398 | a round raises on reading exactly when some slot is past an array's end or its label does not have one channel |
| `Augmentation.SubmitRound` | patches_comparaison/generator_jdot.py:394-402 | reads and submits every slot of a round; the first failed read raises |
| `Augmentation.UnpackRound` | patches_comparaison/generator_jdot.py:407-409 | the outcome is `Unpacked`: `results[h][0][0]` and `results[h][1][0]` in order, and IndexError on a blank result |
| `Augmentation.AugmentRound` | patches_comparaison/generator_jdot.py:392-409 | one round's outcome is `RoundOutcome` of its slots |
| `Augmentation.MultiProcAugmentData` | patches_comparaison/generator_jdot.py:380-412 | as written: the outcome is `MultiProcAugment` with every round reading from slot 0 |
| `Augmentation.MultiProcAugmentDataFixed` | patches_comparaison/generator_jdot.py:380-412 | corrected: the outcome is `MultiProcAugment` with each round reading on from where the last stopped |
| `Augmentation.RestartingScheduleSlots` | patches_comparaison/generator_jdot.py:387-402 | as written the rounds read N slots in all, every one below `min(threads, N)` |
| `Augmentation.FixedScheduleSlots` | patches_comparaison/generator_jdot.py:387-402 | corrected, the rounds read every slot exactly once, in order |
| `Augmentation.RoundOfGoodSlots` | patches_comparaison/generator_jdot.py:394-409 | a round of readable, non-blank slots yields their prepared pairs in slot order |
| `Augmentation.AugmentFromGood` | patches_comparaison/generator_jdot.py:387-410 | rounds of such slots append their prepared images and labels in schedule order: the batch is what it held before, followed by `PreparedData` (`PreparedTruth`) of the slots read |
| `Augmentation.FixedAugmentsEveryItem` | patches_comparaison/generator_jdot.py:380-412 | corrected: every item appears once, in order, prepared, with its label binarised |
| `Augmentation.RestartRereadsFirstItem` | patches_comparaison/generator_jdot.py:394-398 | as written, three items and two threads give items 0, 1, 0: item 2 is never augmented |
| `Combinations.CreateCombinationListRandom` | patches_comparaison/compare_patches.py:154-161 | the loop's outcome is `RandomPairs` |
| `Combinations.RandomPairsSpec` | patches_comparaison/compare_patches.py:155-161 | the list reaches exactly `n_exp` pairs (earlier pairs kept), each new one of two catalog refs from different subjects differing on every axis; an empty catalog raises IndexError and otherwise only exhausted draws stop it |
| `Combinations.RandomPairsStuck` | patches_comparaison/compare_patches.py:156-160 | when no two catalog refs qualify, the loop never ends: it fails whatever the number of draws |
| `Combinations.SubjectSampleSpec` | patches_comparaison/compare_patches.py:127-128 | `random.sample` over a subject's refs yields k refs of that subject, or fails with ValueError or exhausted draws |
| `Combinations.DrawCandidate` | patches_comparaison/compare_patches.py:122-123 | a candidate patch A is a catalog ref of a validation subject and uses two draws |
| `Combinations.SearchLoop` | patches_comparaison/compare_patches.py:113-124 | the rejection loop's outcome is `SearchPatchA` |
| `Combinations.SearchPatchASpec` | patches_comparaison/compare_patches.py:117-124 | the search ends only on a catalog ref that meets the loop's exit test: image mean not below -1 and no zero label voxel, or image mean above -1 and a nonzero label mean |
| `Combinations.AppendPairs` | patches_comparaison/compare_patches.py:129-130 | the inner loop appends patch A paired with each of `list_b` |
| `Combinations.PairLoop` | patches_comparaison/compare_patches.py:125-130 | the subject loop's outcome is `PairsWithOthers` |
| `Combinations.CreateCombinationOnePatch` | patches_comparaison/compare_patches.py:102-131 | the method's outcome is `CombinationOnePatch` |
| `Combinations.WithOneSpec` | patches_comparaison/compare_patches.py:126-130 | one subject j adds 32 pairs, or none for patch A's own subject; each new pair is patch A with a catalog ref of subject j |
| `Combinations.PairsWithOthersLength` | patches_comparaison/compare_patches.py:125-130 | 32 pairs per sampled subject other than patch A's, earlier pairs kept; a failure is ValueError (a subject with fewer than 32 refs) or exhausted draws |
| `Combinations.PairsWithOthersShort` | patches_comparaison/compare_patches.py:125-130 | conversely, a sampled subject other than patch A's with fewer than 32 catalog refs makes `random.sample` raise, so the loop fails |
| `Combinations.PairsWithOthersContent` | patches_comparaison/compare_patches.py:125-130 | every new pair is patch A paired (`Combinations.PairWith`) with a catalog ref of another sampled subject |
| `Combinations.PairsWithOthersBlocks` | patches_comparaison/compare_patches.py:125-130 | the pairs come in blocks of 32, one per sampled subject other than patch A's, in sampling order: the block of the t-th sampled subject starts after 32 pairs for each earlier other subject and pairs patch A with refs of that subject |
| `Combinations.PairLoopCount` | patches_comparaison/compare_patches.py:111-130 | the pair count is a multiple of 32, at most 32 * 37, and 32 * 36 or 32 * 37 when subject ids are distinct |
| `Combinations.CombinationOnePatchCount` | patches_comparaison/compare_patches.py:102-131 | fewer than 37 validation subjects raise ValueError; otherwise the count bounds of `PairLoopCount` hold |
| `Combinations.CombinationOnePatchContent` | patches_comparaison/compare_patches.py:102-131 | every pair shares one patch A, which passed the search, and has a patch B from another validation subject |
| `Combinations.PairLoopContent` | patches_comparaison/compare_patches.py:125-130 | the pair loop pairs an accepted patch A with catalog refs of the other sampled subjects |
| `Combinations.Cross` | patches_comparaison/compare_patches.py:147-149 | `list_a x list_b` has `len(list_a) * len(list_b)` pairs, each from the two lists |
| `Combinations.CrossOrder` | patches_comparaison/compare_patches.py:147-149 | the cross product is `list_a` major: the pair of `list_a[h]` with `list_b[x]` sits at position `h * len(list_b) + x` |
| `Combinations.AppendCross` | patches_comparaison/compare_patches.py:147-149 | the nested loop appends exactly the cross product, `list_a` major |
| `Combinations.PairRound` | patches_comparaison/compare_patches.py:141-149 | one outer iteration's outcome is `Round` |
| `Combinations.PoppingLoop` | patches_comparaison/compare_patches.py:139-151 | the as-written outer loop, enumerating while popping the head, is `PoppingRounds` |
| `Combinations.CreateCombinationList` | patches_comparaison/compare_patches.py:135-152 | as written: the outcome is `CombinationList` |
| `Combinations.CreateCombinationListFixed` | patches_comparaison/compare_patches.py:135-152 | corrected: the outcome is `CombinationListFixed` |
| `Combinations.AgainstOneLength` | patches_comparaison/compare_patches.py:143-149 | one subject j adds 900 pairs unless it is subject i |
| `Combinations.PairsAgainstLength` | patches_comparaison/compare_patches.py:143-149 | the inner loop adds 900 pairs per pool subject other than i, earlier pairs kept; a failure is ValueError (a subject with fewer than 30 refs) or exhausted draws |
| `Combinations.PairsAgainstShort` | patches_comparaison/compare_patches.py:143-149 | conversely, a pool subject other than i with fewer than 30 catalog refs makes `random.sample` raise, so the inner loop fails |
| `Combinations.RoundShort` | patches_comparaison/compare_patches.py:141-149 | an outer iteration fails when subject i, or another subject of its pool, has fewer than 30 catalog refs |
| `Combinations.PairsAgainstContent` | patches_comparaison/compare_patches.py:143-149 | every pair of the inner loop crosses a ref of subject i with a ref of another pool subject |
| `Combinations.RoundLength` | patches_comparaison/compare_patches.py:141-149 | one outer iteration adds 900 pairs per other subject of its pool |
| `Combinations.RoundContent` | patches_comparaison/compare_patches.py:141-149 | one outer iteration keeps the earlier pairs and adds only pairs crossing subject i with another pool subject |
| `Combinations.PoppingRoundsLength` | patches_comparaison/compare_patches.py:139-151 | as written, with distinct draws, the loop adds 900 * `PoppedPairs` pairs: for each iteration, one subject pair per other subject still in the list |
| `Combinations.RoundsFixedLength` | patches_comparaison/compare_patches.py:139-151 | corrected, with distinct draws, iteration k adds 900 pairs per later draw |
| `Combinations.PoppingRoundsContent` | patches_comparaison/compare_patches.py:139-151 | as written, patch A comes from a subject the outer loop takes and patch B from another subject of the list |
| `Combinations.OuterSubjectsSkip` | patches_comparaison/compare_patches.py:139-151 | as written, with distinct draws, the outer loop never takes a draw an odd distance after its start |
| `Combinations.OuterSubjectsEveryOther` | patches_comparaison/compare_patches.py:139-151 | as written, the outer loop takes `ceil(len / 2)` subjects, and its k-th is original draw 2k |
| `Combinations.PoppingRoundsSkip` | patches_comparaison/compare_patches.py:139-151 | as written, the loop is `SkippingRounds`: iteration k takes original draw 2k as subject i and crosses it with draws k.. only, stopping once 2k reaches the number of draws |
| `Combinations.RoundsFixedContent` | patches_comparaison/compare_patches.py:139-151 | corrected, every pair still joins two draws from different subjects |
| `Combinations.PoppedPairsValue` | patches_comparaison/compare_patches.py:138-151 | the as-written loop over 37 distinct draws makes 513 subject pairs' worth of 900 pairs |
| `Combinations.CombinationListSkipsDraws` | patches_comparaison/compare_patches.py:135-152 | as written, with 37 distinct draws: 900 * 513 pairs, no patch A from draw 1, and no pair within one subject |
| `Combinations.PoppingLoopSkips` | patches_comparaison/compare_patches.py:139-151 | the same for the outer loop on 37 distinct draws |
| `Combinations.RoundsFixedCovers` | patches_comparaison/compare_patches.py:139-151 | corrected, every draw p is crossed with every later draw q of another subject: some 900 consecutive pairs join a patch of draw p with a patch of draw q |
| `Combinations.FixedLoopCovers` | patches_comparaison/compare_patches.py:139-151 | corrected, with distinct draws, every two draws are crossed (`CoversDraws`) |
| `Combinations.CombinationListFixedSpec` | patches_comparaison/compare_patches.py:135-152 | corrected, with 37 distinct draws: 900 * 666 pairs, none within one subject, and for each of the 666 pairs of draws p < q, a block of 900 pairs joining draw p with draw q |
| `Combinations.FixedLoopSpec` | patches_comparaison/compare_patches.py:139-151 | the same count, separation and coverage for the corrected outer loop on 37 distinct draws |
| `Scoring.ScoreLoop` | patches_comparaison/compare_patches.py:49-59 | the scoring loop's outcome is `ScoreRows` |
| `Scoring.RowsSpec` | patches_comparaison/compare_patches.py:49-59 | no more rows than pairs; every row is the score of a pair whose two image means are at least -10 and carries that pair's refs, and every such pair has its row |
| `Scoring.RowsConcat` | patches_comparaison/compare_patches.py:49-59 | the rows of two runs of pairs are the first run's rows followed by the second's: with `RowsSingle`, one row per kept pair, in pair order |
| `Scoring.RowsSingle` | patches_comparaison/compare_patches.py:52-59 | one pair gives its row exactly when both image means are at least -10, and no row otherwise |
| `Scoring.RowsSharedPatchA` | patches_comparaison/compare_patches.py:35-52 | when all pairs share patch A, reading `x_a` once scores as reading it per pair |
| `Scoring.ComparePatches` | patches_comparaison/compare_patches.py:25-59 | corrected `main`: the rows and the pickle files afterwards are those of `MainOutcome`, including the emptied cache file an unknown mode leaves |
| `Scoring.MainCacheHit` | patches_comparaison/compare_patches.py:31-46 | with the cache present and no overwrite the outcome does not depend on the generated list and no file changes; an emptied cache file raises EOFError, and outside "one patch" the cached pairs are scored pair by pair |
| `Scoring.MainRegenerates` | patches_comparaison/compare_patches.py:31-42 | a successful regeneration replaces the cached list with the generated one and scores exactly those pairs; an unknown mode raises UnboundLocalError after emptying the cache file; a failing generator writes nothing |
| `Scoring.OnePatchShared` | patches_comparaison/compare_patches.py:34-35 | a generated "one patch" list shares one patch A |
| `Scoring.MainUnknownMode` | patches_comparaison/compare_patches.py:33-46 | an unknown mode leaves `combination_list` unbound: UnboundLocalError once `open(..., 'wb')` has emptied the cache file, and every later run that loads it raises EOFError |
| `Scoring.MainCombinationCount` | patches_comparaison/compare_patches.py:36-42 | corrected "combination" mode with 37 distinct draws caches 900 * 666 pairs, none within one subject |
| `Scoring.CacheReplay` | patches_comparaison/compare_patches.py:31-59 | corrected: a run without overwrite after a successful run returns the same rows and leaves the files alone |
| `Scoring.CacheReplayAsWritten` | patches_comparaison/compare_patches.py:33-55 | as written, that replay raises UnboundLocalError in "one patch" mode |
| `Scoring.Insert` | patches_comparaison/compare_patches.py:175 | inserting a row keeps every row (multiset) |
| `Scoring.InsertSorted` | patches_comparaison/compare_patches.py:175 | inserting into a sorted table keeps it sorted |
| `Scoring.SortRows` | patches_comparaison/compare_patches.py:175 | `sort_values` yields a permutation of the rows, ascending by (Patch Sim, Truth Sim) |
| `Scoring.BestRows` | patches_comparaison/compare_patches.py:175-176 | `tail(10)` keeps `min(10, rows)` rows, ascending, and no left-out row scores above any kept row |
| `Scoring.SelectPatches` | patches_comparaison/compare_patches.py:179-187 | rank i saves patch A and patch B of the i-th best row, for every kept row |
| `Scoring.RankedDescending` | patches_comparaison/compare_patches.py:179-180 | read backwards, the kept rows go from best to worst |
| `Scoring.SelectedRanks` | patches_comparaison/compare_patches.py:175-187 | ranks go from best to worst, rank 0 is a top-scoring row of the whole table, and there are ranks exactly when there are rows |

## Left out

- Multiprocessing (`Pool`, `apply_async`, `close`, `join`): each round is a sequential map over its popped refs in submission order. Worker crashes other than the exceptions the code raises are not modelled.
- The external helpers are parameters: `compute_patch_indices` (`Catalog.Geometry`), `augment_data`, `random_permutation_x_y` (`PatchData.Transforms`) and `compare_patches`' distances (`Scoring.Compare`). `get_patch_from_3d_data` and the HDF5 reads are a read-only `PatchData.Store` that maps a patch reference to its sub-cube pair and a sample to its affine.
- Whole-volume mode (`patch_shape=None`, where an index is a bare sample number) is not modelled; only patch references are.
- Floating point: voxels, means and thresholds are exact reals, so rounding is not modelled.
- Randomness: the draws are an explicit finite stream (`RandomSource.Rng`), and a draw picks an element by its value modulo the population size. Python's generator is not modelled. The unbounded rejection loops of `create_combination_one_patch` and `create_combination_list_random` stop with `DrawsExhausted` when the stream runs out. This is the only way a model run ends early where the program would keep drawing.
- Progress output on stdout and the percentage print of `get_patches_with_intensity_ceil`; only the print's division by zero is kept.
- `get_index_list`, `save_patch` (NIfTI writing), and the pandas DataFrame construction and CSV writing of `main` are I/O. `main`'s rows are returned instead.
- `get_number_of_patches`, `load_index_patches_with_gt`, `load_index_patches_with_ceil` and `get_data_from_file` are not modelled separately: the loads are `Py.Disk.Load`, and the fetch is `Store.patch`.
- The pandas sort breaks ties between equal keys in its own way. `Scoring.SortRows` is an insertion-sort reference that fixes one tie order. Only the ascending key order and the permutation are claimed.
- The correlation printed by `select_patches` is not modelled.
- Numpy version: the rows of `main` (compare_patches.py:59) put the two `(sample, index)` refs into one `np.asarray` with two floats. That makes a ragged object array, which numpy before 1.24 builds and numpy 1.24 and later refuse with ValueError. The model assumes the older behaviour, and a row keeps its refs as they are.
- Array shapes: a batch is a sequence of sub-cubes, and `np.asarray` and `np.vstack` are taken to see sub-cubes of one shape (one patch shape and modality count). Only the empty batch's one-dimensional shape is modelled.
- `Assembler.NonBlankRun`, `Assembler.FullBatchWithoutBlanks`: stated only for the case where every worker returns a non-blank pair. The general content is `Assembler.LoopContent`.
- `Combinations.CombinationListSkipsDraws`, `Combinations.CombinationListFixedSpec`: the exact counts are stated for 37 distinct draws. With repeated draws only the per-round counts of `Combinations.RoundLength` are proved.
- `Combinations.PairLoopCount`: with distinct subject ids it states 36 or 37 subjects' worth of pairs, not which, because that depends on whether patch A's subject was among the 37 sampled.
- `IndexLists.FreshPatchList`, `IndexLists.DomainListsFresh`: stated without a start-offset bound, where every sample shares one grid. With an offset bound, `Catalog.CatalogWithOffset` gives membership by sample only.
- `Augmentation.RestartRereadsFirstItem`: the as-written defect is exhibited on three items and two threads; the general statement is `Augmentation.RestartingScheduleSlots`.

## Findings

| source | as written | input that shows it | evidently intended | confidence | as-written member | corrected member |
|---|---|---|---|---|---|---|
| patches_comparaison/generator_jdot.py:394-398 | every round reads slots `0..n-1` because `j` restarts at 0, while `i` counts down the items | 3 readable, non-blank items and `number_of_threads=2`: the batch holds items 0, 1, 0 and item 2 is never augmented | round k reads slots `k*threads ..` so each item is augmented once | high (not executed) | `Augmentation.MultiProcAugmentData` (`Augmentation.RestartRereadsFirstItem`, `Augmentation.RestartingScheduleSlots`) | `Augmentation.MultiProcAugmentDataFixed` (`Augmentation.FixedAugmentsEveryItem`, `Augmentation.FixedScheduleSlots`) |
| patches_comparaison/compare_patches.py:139-151 | `subsample_val.pop(0)` inside `enumerate(subsample_val)`: iteration k takes original draw 2k, only 19 iterations run, draw 1 (and every odd draw) is never a patch A subject | 37 distinct draws: 900 * 513 pairs instead of 900 * 666 | the outer loop visits every draw and crosses it with the draws after it | high (not executed) | `Combinations.CreateCombinationList` (`Combinations.CombinationListSkipsDraws`, `Combinations.PoppingRoundsSkip`, `Combinations.OuterSubjectsEveryOther`) | `Combinations.CreateCombinationListFixed` (`Combinations.CombinationListFixedSpec`, `Combinations.FixedLoopCovers`, `Scoring.MainCombinationCount`) |
| patches_comparaison/compare_patches.py:33-55 | in "one patch" mode `x_a` is assigned only when the list is regenerated | `main("one patch", overwrite_validation=False)` with `combination.pkl` present: the first pair raises UnboundLocalError | read `x_a` from the loaded list's first patch A | high (not executed) | `Scoring.CacheReplayAsWritten` | `Scoring.ComparePatches` (`Scoring.CacheReplay`) |
