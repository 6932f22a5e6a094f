/** The random draws the engine makes, as an explicit value threaded through
    every call. `draws` stands for Python's `random` module stream (used by
    `choice`, `choices`, `sample` and `shuffle`); `ndIndices` stands for the
    random start offsets `get_random_nd_index` draws from numpy's stream. Which
    element a draw picks is `Pick(d, n)`, the remainder of d by n, so every draw
    is valid for any population. */
module RandomSource {
  import opened Py
  import opened Volumes

  datatype Rng = Rng(draws: seq<nat>, ndIndices: seq<Coord>)

  /** A drawn value and the random stream after the draw. */
  datatype Drawn<T> = Drawn(value: T, rest: Rng)

  /** The position a draw d picks among n elements: d reduced by n until it
      fits, which is d modulo n. */
  function Pick(d: nat, n: nat): (i: nat)
    requires n > 0
    ensures i < n
    decreases d
  {
    if d < n then d else Pick(d - n, n)
  }

  function Skip(rng: Rng, k: nat): Rng
    requires k <= |rng.draws|
  {
    rng.(draws := rng.draws[k..])
  }

  /** `random.choice(population)` */
  function Choice<T>(population: seq<T>, rng: Rng): (r: Result<Drawn<T>>)
    ensures |population| == 0 ==> r.Err? && r.error == IndexError
    ensures r.Ok? <==> |population| > 0 && |rng.draws| > 0
    ensures r.Ok? ==> r.value.value in population && r.value.rest == Skip(rng, 1)
  {
    if |population| == 0 then Err(IndexError)
    else if |rng.draws| == 0 then Err(DrawsExhausted)
    else Ok(Drawn(population[Pick(rng.draws[0], |population|)], Skip(rng, 1)))
  }

  /** `random.choices(population, k=k)`: k draws with replacement. */
  function Choices<T>(population: seq<T>, k: nat, rng: Rng): (r: Result<Drawn<seq<T>>>)
    ensures |population| == 0 && k > 0 ==> r.Err? && r.error == IndexError
    ensures r.Ok? <==> (k == 0 || |population| > 0) && |rng.draws| >= k
    ensures r.Ok? ==> |r.value.value| == k && r.value.rest == Skip(rng, k)
    ensures r.Ok? ==> forall i :: 0 <= i < k ==> r.value.value[i] in population
    decreases k
  {
    if k == 0 then Ok(Drawn([], rng))
    else
      match Choice(population, rng)
      case Err(e) => Err(e)
      case Ok(first) =>
        match Choices(population, k - 1, first.rest)
        case Err(e) => Err(e)
        case Ok(others) =>
          assert rng.draws[1..][k - 1..] == rng.draws[k..];
          Ok(Drawn([first.value] + others.value, others.rest))
  }

  /** Draws k elements without replacement: each draw picks one of the elements
      not yet taken. */
  function DrawWithout<T(==)>(pool: seq<T>, k: nat, rng: Rng): (r: Result<Drawn<seq<T>>>)
    requires k <= |pool|
    ensures r.Ok? <==> |rng.draws| >= k
    ensures r.Err? ==> r.error == DrawsExhausted
    ensures r.Ok? ==> |r.value.value| == k && r.value.rest == Skip(rng, k)
    ensures r.Ok? ==> multiset(r.value.value) <= multiset(pool)
    ensures r.Ok? && k == |pool| ==> multiset(r.value.value) == multiset(pool)
    decreases k
  {
    if k == 0 then Ok(Drawn([], rng))
    else if |rng.draws| == 0 then Err(DrawsExhausted)
    else
      var i := Pick(rng.draws[0], |pool|);
      var others := pool[..i] + pool[i + 1..];
      assert pool == pool[..i] + [pool[i]] + pool[i + 1..];
      assert multiset(pool) == multiset(others) + multiset{pool[i]};
      match DrawWithout(others, k - 1, Skip(rng, 1))
      case Err(e) => Err(e)
      case Ok(d) =>
        assert rng.draws[1..][k - 1..] == rng.draws[k..];
        Ok(Drawn([pool[i]] + d.value, d.rest))
  }

  /** `random.sample(population, k)`: raises ValueError when k is negative or
      larger than the population. */
  function Sample<T(==)>(population: seq<T>, k: int, rng: Rng): (r: Result<Drawn<seq<T>>>)
    ensures k < 0 || k > |population| ==> r.Err? && r.error == ValueError
    ensures 0 <= k <= |population| ==> (r.Ok? <==> |rng.draws| >= k)
    ensures r.Ok? ==> |r.value.value| == k && r.value.rest == Skip(rng, k)
    ensures r.Ok? ==> multiset(r.value.value) <= multiset(population)
  {
    if k < 0 || k > |population| then Err(ValueError)
    else DrawWithout(population, k, rng)
  }

  /** `random.shuffle`: a permutation of the input. */
  function Shuffle<T(==)>(s: seq<T>, rng: Rng): (r: Result<Drawn<seq<T>>>)
    ensures r.Ok? <==> |rng.draws| >= |s|
    ensures r.Ok? ==> |r.value.value| == |s| && r.value.rest == Skip(rng, |s|)
    ensures r.Ok? ==> multiset(r.value.value) == multiset(s)
  {
    DrawWithout(s, |s|, rng)
  }

  /** Every element of a sample is an element of the population. */
  lemma SampleMembers<T>(population: seq<T>, k: int, rng: Rng)
    requires Sample(population, k, rng).Ok?
    ensures forall x :: x in Sample(population, k, rng).value.value ==> x in population
  {
    var s := Sample(population, k, rng).value.value;
    forall x | x in s ensures x in population {
      assert x in multiset(s);
    }
  }

  /** `get_random_nd_index(offset)`: the next numpy draw. */
  function RandomNdIndex(rng: Rng): (r: Result<Drawn<Coord>>)
    ensures r.Ok? <==> |rng.ndIndices| > 0
    ensures r.Ok? ==> r.value == Drawn(rng.ndIndices[0], rng.(ndIndices := rng.ndIndices[1..]))
  {
    if |rng.ndIndices| == 0 then Err(DrawsExhausted)
    else Ok(Drawn(rng.ndIndices[0], rng.(ndIndices := rng.ndIndices[1..])))
  }
}
