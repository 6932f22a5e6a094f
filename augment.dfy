/** `multi_proc_augment_data`: runs `add_data_mp` over an already loaded
    batch in pool rounds of at most `number_of_threads` items while a counter
    `i` counts the items down, then binarises the labels.

    As written, every round reads slots `0 .. n-1` of the arrays (the slot
    index `j` restarts at 0), so with more items than threads the later items
    are never read and the first ones are read again. The corrected version
    reads each round's own slots, `N - i .. N - i + n - 1`. */
module Augmentation {
  import opened Py
  import opened Volumes
  import opened PatchData
  import opened Labels
  import opened Assembler

  /** The loaded batch (`data[0]`, `data[1]`), the affine and index lists, and
      the switches passed to every worker. */
  datatype Inputs = Inputs(
    images: seq<Cube>,
    truths: seq<Cube>,
    affines: seq<Affine>,
    indices: seq<PatchRef>,
    p: Policy,
    tf: Transforms)

  /** Lines 395-398: reading slot k raises IndexError past the end of an array
      or list, and `np.squeeze(truth[k], axis=0)` raises ValueError unless the
      label has exactly one channel. */
  function SlotError(k: nat, in_: Inputs): Option<Error>
  {
    if k >= |in_.images| || k >= |in_.truths| then Some(IndexError)
    else if |in_.truths[k].channels| != 1 then Some(ValueError)
    else if k >= |in_.affines| || k >= |in_.indices| then Some(IndexError)
    else None
  }

  /** The worker of slot k: `add_data_mp` on the slot's image, label and affine. */
  function SlotWork(k: nat, in_: Inputs): Result<Emitted>
    requires SlotError(k, in_).None?
  {
    AddDataMp(Item(in_.images[k], in_.truths[k]), in_.affines[k], in_.p, in_.tf)
  }

  /** The first slot of a round whose reading raises, in submission order. */
  function FirstSlotError(slots: seq<nat>, in_: Inputs): (e: Option<Error>)
    ensures e.None? <==> forall j :: 0 <= j < |slots| ==> SlotError(slots[j], in_).None?
  {
    if |slots| == 0 then None
    else if SlotError(slots[0], in_).Some? then SlotError(slots[0], in_)
    else
      assert forall j :: 1 <= j < |slots| ==> slots[j] == slots[1..][j - 1];
      FirstSlotError(slots[1..], in_)
  }

  function SlotResults(slots: seq<nat>, in_: Inputs): (rs: seq<Result<Emitted>>)
    requires forall j :: 0 <= j < |slots| ==> SlotError(slots[j], in_).None?
    ensures |rs| == |slots|
    ensures forall j :: 0 <= j < |slots| ==> rs[j] == SlotWork(slots[j], in_)
  {
    seq(|slots|, j requires 0 <= j < |slots| => SlotWork(slots[j], in_))
  }

  /** One round: every slot is read and submitted (a failed read raises at
      once), the results are read back in order (the first failed worker
      raises), and `results[h][0][0]` raises IndexError on a blank result. */
  function RoundOutcome(slots: seq<nat>, in_: Inputs): Result<Batch>
  {
    match FirstSlotError(slots, in_)
    case Some(e) => Err(e)
    case None =>
      var rs := SlotResults(slots, in_);
      match FirstError(rs)
      case Some(e) => Err(e)
      case None =>
        Unpacked(Values(rs))
  }

  /** Lines 407-409: `results[h][0][0]` for every result, in order; a blank
      result raises IndexError. */
  function Unpacked(es: seq<Emitted>): Result<Batch>
  {
    if exists j :: 0 <= j < |es| && es[j].xs == [] then Err(IndexError)
    else Ok(Batch(EmitsX(es), EmitsY(es)))
  }

  /** The rounds from a batch accumulated so far: the first error raises. */
  function AugmentFrom(acc: Batch, rounds: seq<seq<nat>>, in_: Inputs): Result<Batch>
    decreases |rounds|
  {
    if |rounds| == 0 then Ok(acc)
    else
      match RoundOutcome(rounds[0], in_)
      case Err(e) => Err(e)
      case Ok(b) => AugmentFrom(Batch(acc.x + b.x, acc.y + b.y), rounds[1..], in_)
  }

  /** The slots of one round. */
  function Slots(start: nat, n: nat): (r: seq<nat>)
    ensures |r| == n && forall j :: 0 <= j < n ==> r[j] == start + j
  {
    seq(n, j requires 0 <= j < n => start + j)
  }

  /** The rounds of the countdown with i items left out of `total`: each round
      takes `min(threads, i)` items; with `restart` (as written) a round reads
      slots from 0, otherwise from `total - i`. */
  function Schedule(i: nat, total: nat, threads: int, restart: bool): seq<seq<nat>>
    requires threads >= 1 && i <= total
    decreases i
  {
    if i == 0 then []
    else
      var n := if i > threads then threads else i;
      [Slots(if restart then 0 else total - i, n)] + Schedule(i - n, total, threads, restart)
  }

  function Concat(rounds: seq<seq<nat>>): seq<nat>
  {
    if |rounds| == 0 then [] else rounds[0] + Concat(rounds[1..])
  }

  /** What `multi_proc_augment_data` returns on the given inputs; `restart`
      selects the slot indexing as written or as intended. */
  function MultiProcAugment(in_: Inputs, threads: int, restart: bool): Result<Batch>
  {
    var total := |in_.images|;
    if total == 0 then ConvertData([], [], 1, None)
    else if threads < 1 then Err(ValueError)
    else
      match AugmentFrom(Batch([], []), Schedule(total, total, threads, restart), in_)
      case Err(e) => Err(e)
      case Ok(b) => ConvertData(b.x, b.y, 1, None)
  }

  /** Lines 394-402: read and submit every slot of a round; a failed read
      raises at once. */
  method SubmitRound(slots: seq<nat>, in_: Inputs) returns (results: seq<Result<Emitted>>, err: Option<Error>)
    ensures err == FirstSlotError(slots, in_)
    ensures err.None? ==> results == SlotResults(slots, in_)
  {
    results := [];
    for j := 0 to |slots|
      invariant forall j' :: 0 <= j' < j ==> SlotError(slots[j'], in_).None?
      invariant results == SlotResults(slots[..j], in_)
    {
      var e := SlotError(slots[j], in_);
      if e.Some? {
        FirstSlotErrorAt(slots, j, in_);
        return results, e;
      }
      results := results + [SlotWork(slots[j], in_)];
    }
    assert slots[..|slots|] == slots;
    err := None;
  }

  /** Lines 407-409: append `results[h][0][0]` and `results[h][1][0]`. */
  method UnpackRound(values: seq<Emitted>) returns (r: Result<Batch>)
    requires Paired(values)
    ensures r == Unpacked(values)
  {
    var x: seq<Cube> := [];
    var y: seq<Cube> := [];
    for h := 0 to |values|
      invariant forall h' :: 0 <= h' < h ==> values[h'].xs != []
      invariant x == EmitsX(values[..h]) && y == EmitsY(values[..h])
    {
      if values[h].xs == [] {
        return Err(IndexError);
      }
      EmitsAppend(values[..h], [values[h]]);
      assert values[..h + 1] == values[..h] + [values[h]];
      x := x + [values[h].xs[0]];
      y := y + [values[h].ys[0]];
    }
    assert values[..|values|] == values;
    r := Ok(Batch(x, y));
  }

  /** Lines 394-409 for one round of n slots from `start`. */
  method AugmentRound(start: nat, n: nat, in_: Inputs) returns (r: Result<Batch>)
    ensures r == RoundOutcome(Slots(start, n), in_)
  {
    var results, err := SubmitRound(Slots(start, n), in_);
    if err.Some? {
      return Err(err.value);
    }
    var values, failed := Collect(results);
    if failed.Some? {
      return Err(failed.value);
    }
    assert Paired(values);
    r := UnpackRound(values);
  }

  lemma FirstSlotErrorAt(slots: seq<nat>, j: nat, in_: Inputs)
    requires j < |slots| && SlotError(slots[j], in_).Some?
    requires forall i :: 0 <= i < j ==> SlotError(slots[i], in_).None?
    ensures FirstSlotError(slots, in_) == SlotError(slots[j], in_)
  {
    if j > 0 {
      FirstSlotErrorAt(slots[1..], j - 1, in_);
    }
  }

  /** One round of the countdown that raises: the whole countdown raises. */
  lemma AugmentStepErr(acc: Batch, i: nat, total: nat, threads: int, restart: bool, in_: Inputs, start: nat, n: nat, e: Error)
    requires threads >= 1 && 0 < i <= total
    requires n == (if i > threads then threads else i) && start == (if restart then 0 else total - i)
    requires RoundOutcome(Slots(start, n), in_) == Err(e)
    ensures AugmentFrom(acc, Schedule(i, total, threads, restart), in_) == Err(e)
  {
    var rounds := Schedule(i, total, threads, restart);
    assert rounds[0] == Slots(start, n);
  }

  /** One round of the countdown that returns: the batch grows by its
      result and the rounds after it remain. */
  lemma AugmentStepOk(acc: Batch, i: nat, total: nat, threads: int, restart: bool, in_: Inputs, start: nat, n: nat, b: Batch,
                      acc2: Batch, i2: nat)
    requires threads >= 1 && 0 < i <= total
    requires n == (if i > threads then threads else i) && start == (if restart then 0 else total - i)
    requires RoundOutcome(Slots(start, n), in_) == Ok(b)
    requires acc2 == Batch(acc.x + b.x, acc.y + b.y) && i2 == i - n
    ensures AugmentFrom(acc, Schedule(i, total, threads, restart), in_) == AugmentFrom(acc2, Schedule(i2, total, threads, restart), in_)
  {
    var rounds := Schedule(i, total, threads, restart);
    assert rounds[0] == Slots(start, n);
    assert rounds[1..] == Schedule(i2, total, threads, restart);
  }

  /** `multi_proc_augment_data` as written: slot `j` of every round is
      `images[j]`. */
  method MultiProcAugmentData(in_: Inputs, threads: int) returns (r: Result<Batch>)
    ensures r == MultiProcAugment(in_, threads, true)
  {
    var total := |in_.images|;
    var x: seq<Cube> := [];
    var y: seq<Cube> := [];
    var i := total;
    if i > 0 && threads < 1 {
      return Err(ValueError);
    }
    ghost var goal := if total == 0 then Ok(Batch([], [])) else AugmentFrom(Batch([], []), Schedule(total, total, threads, true), in_);
    while i > 0
      invariant 0 <= i <= total
      invariant i > 0 ==> threads >= 1
      invariant total > 0 ==> AugmentFrom(Batch(x, y), Schedule(i, total, threads, true), in_) == goal
      invariant total == 0 ==> x == [] && y == []
    {
      var n := if i > threads then threads else i;
      var start := 0;
      var round := AugmentRound(start, n, in_);
      if round.Err? {
        AugmentStepErr(Batch(x, y), i, total, threads, true, in_, start, n, round.error);
        return Err(round.error);
      }
      ghost var acc, i0 := Batch(x, y), i;
      x, y := x + round.value.x, y + round.value.y;
      i := i - n;
      AugmentStepOk(acc, i0, total, threads, true, in_, start, n, round.value, Batch(x, y), i);
    }
    r := ConvertData(x, y, 1, None);
  }

  /** The intended `multi_proc_augment_data`: slot `j` of a round that starts
      with `i` items left is `images[N - i + j]`. */
  method MultiProcAugmentDataFixed(in_: Inputs, threads: int) returns (r: Result<Batch>)
    ensures r == MultiProcAugment(in_, threads, false)
  {
    var total := |in_.images|;
    var x: seq<Cube> := [];
    var y: seq<Cube> := [];
    var i := total;
    if i > 0 && threads < 1 {
      return Err(ValueError);
    }
    ghost var goal := if total == 0 then Ok(Batch([], [])) else AugmentFrom(Batch([], []), Schedule(total, total, threads, false), in_);
    while i > 0
      invariant 0 <= i <= total
      invariant i > 0 ==> threads >= 1
      invariant total > 0 ==> AugmentFrom(Batch(x, y), Schedule(i, total, threads, false), in_) == goal
      invariant total == 0 ==> x == [] && y == []
    {
      var n := if i > threads then threads else i;
      var start := total - i;
      var round := AugmentRound(start, n, in_);
      if round.Err? {
        AugmentStepErr(Batch(x, y), i, total, threads, false, in_, start, n, round.error);
        return Err(round.error);
      }
      ghost var acc, i0 := Batch(x, y), i;
      x, y := x + round.value.x, y + round.value.y;
      i := i - n;
      AugmentStepOk(acc, i0, total, threads, false, in_, start, n, round.value, Batch(x, y), i);
    }
    r := ConvertData(x, y, 1, None);
  }

  /** As written, every round reads only slots below `min(threads, N)`, and
      the rounds read N slots in all: with more items than threads, slot
      `N - 1` is never read. */
  lemma {:induction false} RestartingScheduleSlots(i: nat, total: nat, threads: int)
    requires threads >= 1 && i <= total
    ensures var c := Concat(Schedule(i, total, threads, true));
      |c| == i && forall k :: 0 <= k < |c| ==> c[k] < threads && c[k] < i
    decreases i
  {
    if i > 0 {
      var n := if i > threads then threads else i;
      var rounds := Schedule(i, total, threads, true);
      assert rounds[1..] == Schedule(i - n, total, threads, true);
      RestartingScheduleSlots(i - n, total, threads);
    }
  }

  /** As intended, the rounds read every slot exactly once, in order. */
  lemma {:induction false} FixedScheduleSlots(i: nat, total: nat, threads: int)
    requires threads >= 1 && i <= total
    ensures Concat(Schedule(i, total, threads, false)) == Slots(total - i, i)
    decreases i
  {
    if i > 0 {
      var n := if i > threads then threads else i;
      var rounds := Schedule(i, total, threads, false);
      assert rounds[1..] == Schedule(i - n, total, threads, false);
      FixedScheduleSlots(i - n, total, threads);
      assert Slots(total - i, n) + Slots(total - (i - n), i - n) == Slots(total - i, i);
    }
  }

  /** Slot k can be read, its worker returns and its label is not blank. */
  ghost predicate Good(k: nat, in_: Inputs)
  {
    SlotError(k, in_).None? && SlotWork(k, in_).Ok? && SlotWork(k, in_).value.xs != []
  }

  /** The item `add_data_mp` makes of slot k. */
  function PreparedSlot(k: nat, in_: Inputs): Item
    requires Good(k, in_)
  {
    Prepared(Item(in_.images[k], in_.truths[k]), in_.affines[k], in_.p, in_.tf)
  }

  lemma RoundOfGoodSlots(slots: seq<nat>, in_: Inputs)
    requires forall j :: 0 <= j < |slots| ==> Good(slots[j], in_)
    ensures var r := RoundOutcome(slots, in_);
      r.Ok? && |r.value.x| == |r.value.y| == |slots| &&
      forall j :: 0 <= j < |slots| ==>
        r.value.x[j] == PreparedSlot(slots[j], in_).data && r.value.y[j] == PreparedSlot(slots[j], in_).truth
  {
    var rs := SlotResults(slots, in_);
    var es := Values(rs);
    assert Paired(es);
    forall j | 0 <= j < |es|
      ensures es[j] == SlotWork(slots[j], in_).value && es[j].xs != []
    {
    }
    EmitsLength(es);
    forall j | 0 <= j < |slots|
      ensures EmitsX(es)[j] == PreparedSlot(slots[j], in_).data && EmitsY(es)[j] == PreparedSlot(slots[j], in_).truth
    {
      EmitsXAt(es, j);
      EmitsYAt(es, j);
    }
  }

  /** The images `add_data_mp` makes of a run of good slots, in slot order. */
  ghost function PreparedData(c: seq<nat>, in_: Inputs): (r: seq<Cube>)
    requires forall k :: k in c ==> Good(k, in_)
    ensures |r| == |c| && forall j :: 0 <= j < |c| ==> r[j] == PreparedSlot(c[j], in_).data
  {
    seq(|c|, j requires 0 <= j < |c| => PreparedSlot(c[j], in_).data)
  }

  /** The labels `add_data_mp` makes of a run of good slots, in slot order. */
  ghost function PreparedTruth(c: seq<nat>, in_: Inputs): (r: seq<Cube>)
    requires forall k :: k in c ==> Good(k, in_)
    ensures |r| == |c| && forall j :: 0 <= j < |c| ==> r[j] == PreparedSlot(c[j], in_).truth
  {
    seq(|c|, j requires 0 <= j < |c| => PreparedSlot(c[j], in_).truth)
  }

  lemma AppendAssociates<T>(a: seq<T>, b: seq<T>, c: seq<T>)
    ensures (a + b) + c == a + (b + c)
  {
  }

  /** The prepared images and labels of two runs of slots, one after the other. */
  lemma PreparedAppend(a: seq<nat>, b: seq<nat>, in_: Inputs)
    requires forall k :: k in a + b ==> Good(k, in_)
    ensures forall k :: k in a ==> Good(k, in_)
    ensures forall k :: k in b ==> Good(k, in_)
    ensures PreparedData(a + b, in_) == PreparedData(a, in_) + PreparedData(b, in_)
    ensures PreparedTruth(a + b, in_) == PreparedTruth(a, in_) + PreparedTruth(b, in_)
  {
    assert forall k :: k in a ==> k in a + b;
    assert forall k :: k in b ==> k in a + b;
  }

  /** One round of good slots appends their prepared images and labels. */
  lemma AugmentFromGoodRound(acc: Batch, rounds: seq<seq<nat>>, in_: Inputs)
    requires |rounds| > 0
    requires forall k :: k in rounds[0] ==> Good(k, in_)
    ensures AugmentFrom(acc, rounds, in_) ==
      AugmentFrom(Batch(acc.x + PreparedData(rounds[0], in_), acc.y + PreparedTruth(rounds[0], in_)), rounds[1..], in_)
  {
    RoundOfGoodSlots(rounds[0], in_);
    var b := RoundOutcome(rounds[0], in_).value;
    assert b.x == PreparedData(rounds[0], in_);
    assert b.y == PreparedTruth(rounds[0], in_);
  }

  lemma {:induction false} AugmentFromGood(acc: Batch, rounds: seq<seq<nat>>, in_: Inputs)
    requires forall k :: k in Concat(rounds) ==> Good(k, in_)
    ensures var r := AugmentFrom(acc, rounds, in_);
      r.Ok? &&
      r.value.x == acc.x + PreparedData(Concat(rounds), in_) &&
      r.value.y == acc.y + PreparedTruth(Concat(rounds), in_)
    decreases |rounds|
  {
    if |rounds| == 0 {
      assert acc.x + PreparedData([], in_) == acc.x;
      assert acc.y + PreparedTruth([], in_) == acc.y;
    } else {
      var first, rest := rounds[0], Concat(rounds[1..]);
      assert Concat(rounds) == first + rest;
      PreparedAppend(first, rest, in_);
      AugmentFromGoodRound(acc, rounds, in_);
      var acc' := Batch(acc.x + PreparedData(first, in_), acc.y + PreparedTruth(first, in_));
      AugmentFromGood(acc', rounds[1..], in_);
      AppendAssociates(acc.x, PreparedData(first, in_), PreparedData(rest, in_));
      AppendAssociates(acc.y, PreparedTruth(first, in_), PreparedTruth(rest, in_));
    }
  }

  /** As intended, when every item can be read, its worker returns and its
      label is not blank, the batch holds every item once, in order, with its
      label binarised. */
  lemma FixedAugmentsEveryItem(in_: Inputs, threads: int)
    requires threads >= 1
    requires forall k :: 0 <= k < |in_.images| ==> Good(k, in_)
    ensures var r := MultiProcAugment(in_, threads, false);
      r.Ok? && |r.value.x| == |r.value.y| == |in_.images| &&
      forall k :: 0 <= k < |in_.images| ==>
        r.value.x[k] == PreparedSlot(k, in_).data && r.value.y[k] == Binarize(PreparedSlot(k, in_).truth)
  {
    if |in_.images| > 0 {
      FixedScheduleBatch(in_, threads);
    }
  }

  /** The batch the corrected schedule gathers before conversion: every item's
      prepared data and truth, once each, in item order. */
  lemma FixedScheduleBatch(in_: Inputs, threads: int)
    requires threads >= 1
    requires forall k :: 0 <= k < |in_.images| ==> Good(k, in_)
    ensures var total := |in_.images|;
      var r := AugmentFrom(Batch([], []), Schedule(total, total, threads, false), in_);
      r.Ok? && |r.value.x| == |r.value.y| == total &&
      forall k :: 0 <= k < total ==>
        r.value.x[k] == PreparedSlot(k, in_).data && r.value.y[k] == PreparedSlot(k, in_).truth
  {
    var total := |in_.images|;
    var rounds := Schedule(total, total, threads, false);
    FixedScheduleSlots(total, total, threads);
    var c := Slots(0, total);
    SlotsGood(total, in_);
    AugmentFromGood(Batch([], []), rounds, in_);
    var b := AugmentFrom(Batch([], []), rounds, in_).value;
    assert b.x == PreparedData(c, in_) && b.y == PreparedTruth(c, in_);
    forall k | 0 <= k < total
      ensures b.x[k] == PreparedSlot(k, in_).data && b.y[k] == PreparedSlot(k, in_).truth
    {
      assert c[k] == k;
    }
  }

  /** The slots of the whole countdown are the good items. */
  lemma SlotsGood(total: nat, in_: Inputs)
    requires total <= |in_.images|
    requires forall k :: 0 <= k < |in_.images| ==> Good(k, in_)
    ensures forall k :: k in Slots(0, total) ==> Good(k, in_)
  {
  }

  /** As written, with three good items and two threads the batch holds item
      0, item 1 and item 0 again: item 2 is never augmented. */
  lemma RestartRereadsFirstItem(in_: Inputs)
    requires |in_.images| == 3
    requires forall k :: 0 <= k < 3 ==> Good(k, in_)
    ensures var r := MultiProcAugment(in_, 2, true);
      r.Ok? && |r.value.x| == 3 &&
      r.value.x[0] == PreparedSlot(0, in_).data &&
      r.value.x[1] == PreparedSlot(1, in_).data &&
      r.value.x[2] == PreparedSlot(0, in_).data
  {
    assert Schedule(1, 3, 2, true) == [Slots(0, 1)];
    assert Schedule(3, 3, 2, true) == [Slots(0, 2), Slots(0, 1)];
    var rounds := Schedule(3, 3, 2, true);
    assert Concat(rounds) == [0, 1, 0] by {
      assert Concat(rounds[1..]) == [0];
    }
    AugmentFromGood(Batch([], []), rounds, in_);
    var b := AugmentFrom(Batch([], []), rounds, in_).value;
    assert b.x == PreparedData([0, 1, 0], in_);
  }
}
