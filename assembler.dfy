/** The parallel batch assembler (`multi_proc_loop`), the per-domain generator
    around it and the domain-adaptation composer (`get_batch_jdot`).

    A round's worker pool is modelled as a sequential map over the popped refs:
    results are read back in submission order, as `[r.get() for r in results]`
    does, and the first worker exception in that order is the one raised. */
module Assembler {
  import opened Py
  import opened Volumes
  import opened PatchData
  import opened Labels
  import QualityFilter

  /** The arguments of `multi_proc_loop` that stay fixed during a call. */
  datatype LoopConfig = LoopConfig(stop: int, threads: int, policy: Policy, all: bool)

  /** The dataset store of one domain and the external transforms. */
  datatype Env = Env(store: Store, tf: Transforms)

  /** The caller's queue, the caller's x and y lists, the affines gathered so far
      and the `remaining_batch` counter. */
  datatype LoopState = LoopState(
    queue: seq<PatchRef>,
    xs: seq<Cube>,
    ys: seq<Cube>,
    affines: seq<Affine>,
    remaining: int)

  /** How a call ends: it returns, or a round raised. */
  datatype Exit = Finished | Raised(error: Error)

  /** With `all`, augmentation and permutation are switched off; skip_blank is kept. */
  function EffectivePolicy(p: Policy, all: bool): (q: Policy)
    ensures q.skipBlank == p.skipBlank
    ensures all ==> !q.augment && !q.permute
    ensures !all ==> q == p
  {
    if all then p.(augment := false, flip := false, distortion := None, permute := false) else p
  }

  /** The pool size of a round: `min(number_of_threads, len(index_list))`. */
  function RoundWidth(len: nat, threads: int): (n: int)
    ensures n <= threads && n <= len && (n == threads || n == len)
  {
    if len > threads then threads else len
  }

  /** The first n refs `index_list.pop()` hands out: the last element first. */
  function PopOrder<T>(q: seq<T>, n: nat): (r: seq<T>)
    requires n <= |q|
    ensures |r| == n
    ensures forall i :: 0 <= i < n ==> r[i] == q[|q| - 1 - i]
  {
    seq(n, i requires 0 <= i < n => q[|q| - 1 - i])
  }

  /** Popping n refs leaves the front of the list, and the popped refs, read
      backwards, are its tail: the two together give the list back. */
  lemma PopOrderRebuilds<T>(q: seq<T>, n: nat)
    requires n <= |q|
    ensures q[..|q| - n] + QualityFilter.Reversed(PopOrder(q, n)) == q
  {
    var r := PopOrder(q, n);
    var back := q[..|q| - n] + QualityFilter.Reversed(r);
    forall i | |q| - n <= i < |q|
      ensures back[i] == q[i]
    {
      assert back[i] == r[n - 1 - (i - (|q| - n))];
    }
  }

  /** One worker: `add_data_mp` on the fetched pair and its sample's affine. */
  function Work(ref: PatchRef, cfg: LoopConfig, env: Env): Result<Emitted>
  {
    AddDataMp(env.store.patch(ref), env.store.affine(ref.sample), EffectivePolicy(cfg.policy, cfg.all), env.tf)
  }

  function Results(popped: seq<PatchRef>, cfg: LoopConfig, env: Env): (rs: seq<Result<Emitted>>)
    ensures |rs| == |popped|
    ensures forall i :: 0 <= i < |popped| ==> rs[i] == Work(popped[i], cfg, env)
  {
    seq(|popped|, i requires 0 <= i < |popped| => Work(popped[i], cfg, env))
  }

  function AffinesOf(popped: seq<PatchRef>, env: Env): (r: seq<Affine>)
    ensures |r| == |popped|
    ensures forall i :: 0 <= i < |popped| ==> r[i] == env.store.affine(popped[i].sample)
  {
    seq(|popped|, i requires 0 <= i < |popped| => env.store.affine(popped[i].sample))
  }

  /** The exception `[r.get() for r in results]` raises: the first one in
      submission order. */
  function FirstError(rs: seq<Result<Emitted>>): (e: Option<Error>)
    ensures e.None? <==> forall i :: 0 <= i < |rs| ==> rs[i].Ok?
  {
    if |rs| == 0 then None
    else if rs[0].Err? then Some(rs[0].error)
    else
      assert forall i :: 1 <= i < |rs| ==> rs[i] == rs[1..][i - 1];
      FirstError(rs[1..])
  }

  function Values(rs: seq<Result<Emitted>>): (es: seq<Emitted>)
    requires forall i :: 0 <= i < |rs| ==> rs[i].Ok?
    ensures |es| == |rs|
    ensures forall i :: 0 <= i < |rs| ==> rs[i] == Ok(es[i])
  {
    seq(|rs|, i requires 0 <= i < |rs| => rs[i].value)
  }

  /** Every result is a pair of lists of equal length, at most one, as
      `add_data_mp` returns. */
  ghost predicate Paired(es: seq<Emitted>)
  {
    forall i :: 0 <= i < |es| ==> |es[i].xs| == |es[i].ys| <= 1
  }

  /** The x list, the y list and `remaining_batch` while a round's results are appended. */
  datatype Acc = Acc(xs: seq<Cube>, ys: seq<Cube>, remaining: int)

  /** Lines 365-369: a non-empty result is appended while `remaining_batch` is
      not zero, or always with `all`. */
  function Accumulate(a: Acc, es: seq<Emitted>, all: bool): Acc
    requires Paired(es)
    decreases |es|
  {
    if |es| == 0 then a
    else
      var a' :=
        if |es[0].xs| != 0 && (a.remaining != 0 || all)
        then Acc(a.xs + [es[0].xs[0]], a.ys + [es[0].ys[0]], a.remaining - 1)
        else a;
      Accumulate(a', es[1..], all)
  }

  lemma WorkPaired(popped: seq<PatchRef>, cfg: LoopConfig, env: Env)
    requires forall i :: 0 <= i < |popped| ==> Work(popped[i], cfg, env).Ok?
    ensures Paired(Values(Results(popped, cfg, env)))
  {
  }

  /** How a round ends: the loop stops (returns or raises) or goes on. */
  datatype Step = Stop(state: LoopState, exit: Exit) | Next(state: LoopState)

  /** One round of lines 342-377 on a non-empty queue. */
  function Round(s: LoopState, cfg: LoopConfig, env: Env): (st: Step)
    requires |s.queue| > 0
    ensures st.Next? ==> |st.state.queue| < |s.queue|
  {
    var n := RoundWidth(|s.queue|, cfg.threads);
    if n < 1 then Stop(s, Raised(ValueError))
    else
      var popped := PopOrder(s.queue, n);
      var rs := Results(popped, cfg, env);
      var s1 := s.(queue := s.queue[..|s.queue| - n], affines := s.affines + AffinesOf(popped, env));
      match FirstError(rs)
      case Some(e) => Stop(s1, Raised(e))
      case None =>
        WorkPaired(popped, cfg, env);
        var a := Accumulate(Acc(s.xs, s.ys, s.remaining), Values(rs), cfg.all);
        var s2 := s1.(xs := a.xs, ys := a.ys, remaining := a.remaining);
        if !cfg.all && (|s2.xs| == cfg.stop || (|s2.queue| == 0 && |s2.xs| > 0)) then Stop(s2, Finished)
        else Next(s2)
  }

  /** `multi_proc_loop`, round by round, from a given state: the state it leaves
      behind and how it ends. */
  function RunLoop(s: LoopState, cfg: LoopConfig, env: Env): (r: (LoopState, Exit))
    ensures |r.0.queue| <= |s.queue|
    decreases |s.queue|
  {
    if |s.queue| == 0 then (s, Finished)
    else
      match Round(s, cfg, env)
      case Stop(t, e) => (t, e)
      case Next(t) => RunLoop(t, cfg, env)
  }

  /** No worker of the popped refs fails. */
  ghost predicate AllOk(popped: seq<PatchRef>, cfg: LoopConfig, env: Env)
  {
    forall i :: 0 <= i < |popped| ==> Work(popped[i], cfg, env).Ok?
  }

  lemma FirstErrorAt(rs: seq<Result<Emitted>>, j: nat)
    requires j < |rs| && rs[j].Err?
    requires forall i :: 0 <= i < j ==> rs[i].Ok?
    ensures FirstError(rs) == Some(rs[j].error)
  {
    if j > 0 {
      assert forall i :: 0 <= i < j - 1 ==> rs[1..][i] == rs[i + 1];
      FirstErrorAt(rs[1..], j - 1);
    }
  }


  /** The results of popped refs whose workers all return; a failed worker's
      slot holds no pair (only used when no worker fails). */
  function Outcomes(popped: seq<PatchRef>, cfg: LoopConfig, env: Env): (es: seq<Emitted>)
    ensures |es| == |popped| && Paired(es)
  {
    seq(|popped|, i requires 0 <= i < |popped| =>
      match Work(popped[i], cfg, env)
      case Ok(v) => v
      case Err(_) => Emitted([], []))
  }

  /** The images a sequence of results would append, in order. */
  function EmitsX(es: seq<Emitted>): seq<Cube>
  {
    if |es| == 0 then [] else es[0].xs + EmitsX(es[1..])
  }

  /** The labels a sequence of results would append, in order. */
  function EmitsY(es: seq<Emitted>): seq<Cube>
  {
    if |es| == 0 then [] else es[0].ys + EmitsY(es[1..])
  }

  /** What the `remaining_batch` test lets through: everything with `all` or a
      counter that is already negative, otherwise the first `r`. */
  function Quota<T>(s: seq<T>, r: int, all: bool): seq<T>
  {
    if all || r < 0 || r >= |s| then s else s[..r]
  }

  lemma {:induction false} EmitsAppend(a: seq<Emitted>, b: seq<Emitted>)
    ensures EmitsX(a + b) == EmitsX(a) + EmitsX(b)
    ensures EmitsY(a + b) == EmitsY(a) + EmitsY(b)
  {
    if |a| == 0 {
      assert a + b == b;
    } else {
      assert (a + b)[0] == a[0];
      assert (a + b)[1..] == a[1..] + b;
      EmitsAppend(a[1..], b);
    }
  }

  lemma {:induction false} EmitsLength(es: seq<Emitted>)
    requires Paired(es)
    ensures |EmitsX(es)| == |EmitsY(es)| <= |es|
    ensures (forall i :: 0 <= i < |es| ==> es[i].xs != []) ==> |EmitsX(es)| == |es|
  {
    if |es| > 0 {
      EmitsLength(es[1..]);
    }
  }

  lemma QuotaSplit<T>(s1: seq<T>, s2: seq<T>, r: int, all: bool)
    ensures Quota(s1 + s2, r, all) == Quota(s1, r, all) + Quota(s2, r - |Quota(s1, r, all)|, all)
  {
    if !all && 0 <= r < |s1| {
      assert (s1 + s2)[..r] == s1[..r];
    } else if !all && |s1| <= r < |s1| + |s2| {
      assert (s1 + s2)[..r] == s1 + s2[..r - |s1|];
    }
  }

  /** Appending what one quota lets through, then what the rest of the counter
      lets through, is the quota of the whole. */
  lemma QuotaCompose<T>(x0: seq<T>, e1: seq<T>, e2: seq<T>, x1: seq<T>, x2: seq<T>, r: int, all: bool)
    requires x1 == x0 + Quota(e1, r, all)
    requires x2 == x1 + Quota(e2, r - |Quota(e1, r, all)|, all)
    ensures x2 == x0 + Quota(e1 + e2, r, all)
  {
    QuotaSplit(e1, e2, r, all);
  }

  lemma QuotaLength<T, U>(s: seq<T>, u: seq<U>, r: int, all: bool)
    requires |s| == |u|
    ensures |Quota(s, r, all)| == |Quota(u, r, all)|
    ensures !all && r >= 0 ==> |Quota(s, r, all)| <= r
  {
  }

  /** One result that is let through moves the counter down by one. */
  lemma QuotaCons<T>(x: T, rest: seq<T>, r: int, all: bool)
    requires r != 0 || all
    ensures Quota([x] + rest, r, all) == [x] + Quota(rest, r - 1, all)
  {
    if !all && 0 < r < |rest| + 1 {
      assert ([x] + rest)[..r] == [x] + rest[..r - 1];
    }
  }

  /** One round's appends: the images and labels the counter lets through,
      in result order, and the counter goes down by one per append. */
  lemma AccumulateContent(a: Acc, es: seq<Emitted>, all: bool)
    requires Paired(es)
    ensures var b := Accumulate(a, es, all);
      b.xs == a.xs + Quota(EmitsX(es), a.remaining, all) &&
      b.ys == a.ys + Quota(EmitsY(es), a.remaining, all) &&
      b.remaining == a.remaining - |Quota(EmitsX(es), a.remaining, all)|
  {
    AccumulateContentOf(a, es, all, Accumulate(a, es, all));
  }

  /** `AccumulateContent` with the appended state named, by induction on the
      results. */
  lemma {:induction false} AccumulateContentOf(a: Acc, es: seq<Emitted>, all: bool, b: Acc)
    requires Paired(es) && b == Accumulate(a, es, all)
    ensures b.xs == a.xs + Quota(EmitsX(es), a.remaining, all)
    ensures b.ys == a.ys + Quota(EmitsY(es), a.remaining, all)
    ensures b.remaining == a.remaining - |Quota(EmitsX(es), a.remaining, all)|
    decreases |es|
  {
    if |es| == 0 {
      assert b == a;
    } else {
      var e0, rest := es[0], es[1..];
      assert Paired(rest);
      assert EmitsX(es) == e0.xs + EmitsX(rest);
      assert EmitsY(es) == e0.ys + EmitsY(rest);
      EmitsLength(rest);
      if e0.xs != [] && (a.remaining != 0 || all) {
        var a' := Acc(a.xs + [e0.xs[0]], a.ys + [e0.ys[0]], a.remaining - 1);
        assert b == Accumulate(a', rest, all);
        AccumulateContentOf(a', rest, all, b);
        QuotaAppendStep(a, e0, EmitsX(rest), EmitsY(rest), all, b);
      } else {
        assert b == Accumulate(a, rest, all);
        AccumulateContentOf(a, rest, all, b);
        if e0.xs == [] {
          assert e0.ys == [];
          assert EmitsX(es) == EmitsX(rest) && EmitsY(es) == EmitsY(rest);
        } else {
          assert Quota(EmitsX(es), 0, false) == [] == Quota(EmitsX(rest), 0, false);
          assert Quota(EmitsY(es), 0, false) == [] == Quota(EmitsY(rest), 0, false);
        }
      }
    }
  }

  /** An appended result, then the rest: the counter let the result through. */
  lemma QuotaAppendStep(a: Acc, e0: Emitted, xs: seq<Cube>, ys: seq<Cube>, all: bool, b: Acc)
    requires |e0.xs| == |e0.ys| == 1 && (a.remaining != 0 || all) && |xs| == |ys|
    requires b.xs == a.xs + [e0.xs[0]] + Quota(xs, a.remaining - 1, all)
    requires b.ys == a.ys + [e0.ys[0]] + Quota(ys, a.remaining - 1, all)
    requires b.remaining == a.remaining - 1 - |Quota(xs, a.remaining - 1, all)|
    ensures b.xs == a.xs + Quota(e0.xs + xs, a.remaining, all)
    ensures b.ys == a.ys + Quota(e0.ys + ys, a.remaining, all)
    ensures b.remaining == a.remaining - |Quota(e0.xs + xs, a.remaining, all)|
  {
    assert e0.xs == [e0.xs[0]] && e0.ys == [e0.ys[0]];
    QuotaCons(e0.xs[0], xs, a.remaining, all);
    QuotaCons(e0.ys[0], ys, a.remaining, all);
  }

  lemma PopOrderSplit<T>(q: seq<T>, n1: nat, n2: nat)
    requires n1 + n2 <= |q|
    ensures PopOrder(q, n1) + PopOrder(q[..|q| - n1], n2) == PopOrder(q, n1 + n2)
  {
    var q' := q[..|q| - n1];
    forall i | 0 <= i < n2
      ensures PopOrder(q', n2)[i] == q[|q| - 1 - (n1 + i)]
    {
    }
  }

  /** What one round does: `Pool(n)` with n < 1 raises first; otherwise it
      pops n refs from the end and records their affines, then either a worker
      raised and nothing is appended, or the non-blank results the counter lets
      through are appended and the break test decides. */
  lemma RoundShape(s: LoopState, cfg: LoopConfig, env: Env)
    requires |s.queue| > 0
    ensures var n := RoundWidth(|s.queue|, cfg.threads);
      var st := Round(s, cfg, env);
      var t := st.state;
      var popped := PopOrder(s.queue, if n < 1 then 0 else n);
      var es := Outcomes(popped, cfg, env);
      (n < 1 ==> st == Stop(s, Raised(ValueError))) &&
      (n >= 1 ==>
        t.queue == s.queue[..|s.queue| - n] &&
        t.affines == s.affines + AffinesOf(popped, env) &&
        (st.Stop? && st.exit.Raised? ==>
          !AllOk(popped, cfg, env) && t.xs == s.xs && t.ys == s.ys && t.remaining == s.remaining) &&
        (st.Next? || st.exit == Finished ==>
          AllOk(popped, cfg, env) &&
          t.xs == s.xs + Quota(EmitsX(es), s.remaining, cfg.all) &&
          t.ys == s.ys + Quota(EmitsY(es), s.remaining, cfg.all) &&
          t.remaining == s.remaining - |Quota(EmitsX(es), s.remaining, cfg.all)|) &&
        (st.Stop? && st.exit == Finished ==>
          !cfg.all && (|t.xs| == cfg.stop || (|t.queue| == 0 && |t.xs| > 0))) &&
        (st.Next? ==> cfg.all || (|t.xs| != cfg.stop && !(|t.queue| == 0 && |t.xs| > 0))))
  {
    var n := RoundWidth(|s.queue|, cfg.threads);
    if n >= 1 {
      var popped := PopOrder(s.queue, n);
      var rs := Results(popped, cfg, env);
      if FirstError(rs).None? {
        WorkPaired(popped, cfg, env);
        assert Values(rs) == Outcomes(popped, cfg, env);
        AccumulateContent(Acc(s.xs, s.ys, s.remaining), Values(rs), cfg.all);
      }
    }
  }

  lemma AffinesAppend(p1: seq<PatchRef>, p2: seq<PatchRef>, env: Env)
    ensures AffinesOf(p1 + p2, env) == AffinesOf(p1, env) + AffinesOf(p2, env)
  {
  }

  /** The refs a run pops are the tail of the caller's queue, last first; the
      refs it leaves are the untouched front; `affine_list` gains one affine per
      popped ref, blank, surplus or failed alike. */
  lemma LoopPopsFromEnd(s: LoopState, cfg: LoopConfig, env: Env)
    ensures var t := RunLoop(s, cfg, env).0;
      t.queue == s.queue[..|t.queue|] &&
      t.affines == s.affines + AffinesOf(PopOrder(s.queue, |s.queue| - |t.queue|), env)
  {
    LoopPopsFromEndOf(s, RunLoop(s, cfg, env).0, RunLoop(s, cfg, env).1, cfg, env);
  }

  lemma {:induction false} LoopPopsFromEndOf(s: LoopState, t: LoopState, e: Exit, cfg: LoopConfig, env: Env)
    requires (t, e) == RunLoop(s, cfg, env)
    ensures t.queue == s.queue[..|t.queue|]
    ensures t.affines == s.affines + AffinesOf(PopOrder(s.queue, |s.queue| - |t.queue|), env)
    decreases |s.queue|
  {
    var q := s.queue;
    if |q| == 0 || RoundWidth(|q|, cfg.threads) < 1 {
      if |q| > 0 {
        RoundPops(s, cfg, env);
      }
      assert t == s;
      assert PopOrder(q, 0) == [];
    } else {
      RoundPops(s, cfg, env);
      var n := RoundWidth(|q|, cfg.threads);
      match Round(s, cfg, env)
      case Stop(s2, _) =>
        assert t == s2;
        assert |q| - |t.queue| == n;
      case Next(s2) =>
        LoopPopsFromEndOf(s2, t, e, cfg, env);
        PopsCompose(s, s2, t, n, env);
    }
  }

  /** The inductive step of `LoopPopsFromEnd`. */
  lemma PopsCompose(s: LoopState, s2: LoopState, t: LoopState, n: nat, env: Env)
    requires n <= |s.queue| && s2.queue == s.queue[..|s.queue| - n]
    requires s2.affines == s.affines + AffinesOf(PopOrder(s.queue, n), env)
    requires |t.queue| <= |s2.queue| && t.queue == s2.queue[..|t.queue|]
    requires t.affines == s2.affines + AffinesOf(PopOrder(s2.queue, |s2.queue| - |t.queue|), env)
    ensures t.queue == s.queue[..|t.queue|]
    ensures t.affines == s.affines + AffinesOf(PopOrder(s.queue, |s.queue| - |t.queue|), env)
  {
    var q, m := s.queue, |s2.queue| - |t.queue|;
    PopOrderSplit(q, n, m);
    AffinesAppend(PopOrder(q, n), PopOrder(s2.queue, m), env);
    assert |q| - |t.queue| == n + m;
    assert q[..|q| - n][..|t.queue|] == q[..|t.queue|];
  }

  /** `len(x_list) + remaining_batch` never changes, x and y grow together and
      only by appends; without `all` a non-negative counter stays non-negative,
      so at most `batch_size` entries are ever appended. */
  lemma LoopBatchBound(s: LoopState, cfg: LoopConfig, env: Env)
    ensures var t := RunLoop(s, cfg, env).0;
      |t.xs| + t.remaining == |s.xs| + s.remaining &&
      |s.xs| <= |t.xs| && t.xs[..|s.xs|] == s.xs &&
      |s.ys| <= |t.ys| && t.ys[..|s.ys|] == s.ys &&
      |t.xs| - |s.xs| == |t.ys| - |s.ys| &&
      (!cfg.all && s.remaining >= 0 ==> t.remaining >= 0)
  {
    LoopBatchBoundOf(s, RunLoop(s, cfg, env).0, RunLoop(s, cfg, env).1, cfg, env);
  }

  lemma {:induction false} LoopBatchBoundOf(s: LoopState, t: LoopState, e: Exit, cfg: LoopConfig, env: Env)
    requires (t, e) == RunLoop(s, cfg, env)
    ensures |t.xs| + t.remaining == |s.xs| + s.remaining
    ensures |s.xs| <= |t.xs| && t.xs[..|s.xs|] == s.xs
    ensures |s.ys| <= |t.ys| && t.ys[..|s.ys|] == s.ys
    ensures |t.xs| - |s.xs| == |t.ys| - |s.ys|
    ensures !cfg.all && s.remaining >= 0 ==> t.remaining >= 0
    decreases |s.queue|
  {
    if |s.queue| == 0 {
      assert t == s;
    } else {
      RoundBatchBound(s, cfg, env);
      match Round(s, cfg, env)
      case Stop(s2, _) =>
        assert t == s2;
      case Next(s2) =>
        LoopBatchBoundOf(s2, t, e, cfg, env);
        assert t.xs[..|s.xs|] == t.xs[..|s2.xs|][..|s.xs|];
        assert t.ys[..|s.ys|] == t.ys[..|s2.ys|][..|s.ys|];
    }
  }

  /** `LoopBatchBound` for one round. */
  lemma RoundBatchBound(s: LoopState, cfg: LoopConfig, env: Env)
    requires |s.queue| > 0
    ensures var t := Round(s, cfg, env).state;
      |t.xs| + t.remaining == |s.xs| + s.remaining &&
      |s.xs| <= |t.xs| && t.xs[..|s.xs|] == s.xs &&
      |s.ys| <= |t.ys| && t.ys[..|s.ys|] == s.ys &&
      |t.xs| - |s.xs| == |t.ys| - |s.ys| &&
      (!cfg.all && s.remaining >= 0 ==> t.remaining >= 0)
  {
    RoundShape(s, cfg, env);
    var q := s.queue;
    var n := RoundWidth(|q|, cfg.threads);
    if n >= 1 {
      var es := Outcomes(PopOrder(q, n), cfg, env);
      EmitsLength(es);
      QuotaLength(EmitsX(es), EmitsY(es), s.remaining, cfg.all);
    }
  }

  lemma OutcomesAppend(p1: seq<PatchRef>, p2: seq<PatchRef>, cfg: LoopConfig, env: Env)
    ensures Outcomes(p1 + p2, cfg, env) == Outcomes(p1, cfg, env) + Outcomes(p2, cfg, env)
  {
  }

  /** Two rounds' contents compose: the quota of the first round's results,
      then the quota of the later rounds' results with what is left of the
      counter, is the quota of all of them in pop order. */
  lemma ContentStep(
    q: seq<PatchRef>, n: nat, m: nat, cfg: LoopConfig, env: Env,
    x0: seq<Cube>, y0: seq<Cube>, r0: int,
    x1: seq<Cube>, y1: seq<Cube>, r1: int,
    x2: seq<Cube>, y2: seq<Cube>)
    requires n + m <= |q|
    requires var e1 := Outcomes(PopOrder(q, n), cfg, env);
      x1 == x0 + Quota(EmitsX(e1), r0, cfg.all) && y1 == y0 + Quota(EmitsY(e1), r0, cfg.all) &&
      r1 == r0 - |Quota(EmitsX(e1), r0, cfg.all)|
    requires var e2 := Outcomes(PopOrder(q[..|q| - n], m), cfg, env);
      x2 == x1 + Quota(EmitsX(e2), r1, cfg.all) && y2 == y1 + Quota(EmitsY(e2), r1, cfg.all)
    ensures var e := Outcomes(PopOrder(q, n + m), cfg, env);
      x2 == x0 + Quota(EmitsX(e), r0, cfg.all) && y2 == y0 + Quota(EmitsY(e), r0, cfg.all)
  {
    var p1, p2 := PopOrder(q, n), PopOrder(q[..|q| - n], m);
    var e1, e2 := Outcomes(p1, cfg, env), Outcomes(p2, cfg, env);
    PopOrderSplit(q, n, m);
    OutcomesAppend(p1, p2, cfg, env);
    EmitsAppend(e1, e2);
    EmitsLength(e1);
    QuotaLength(EmitsX(e1), EmitsY(e1), r0, cfg.all);
    QuotaCompose(x0, EmitsX(e1), EmitsX(e2), x1, x2, r0, cfg.all);
    QuotaCompose(y0, EmitsY(e1), EmitsY(e2), y1, y2, r0, cfg.all);
  }

  /** A queue with no failing worker has none among the refs a round pops
      and none among those it leaves. */
  lemma AllOkParts(q: seq<PatchRef>, n: nat, cfg: LoopConfig, env: Env)
    requires n <= |q| && AllOk(q, cfg, env)
    ensures AllOk(PopOrder(q, n), cfg, env) && AllOk(q[..|q| - n], cfg, env)
  {
    assert forall i :: 0 <= i < n ==> PopOrder(q, n)[i] == q[|q| - 1 - i];
  }

  lemma AllOkSplit(q: seq<PatchRef>, n: nat, m: nat, cfg: LoopConfig, env: Env)
    requires n + m <= |q|
    requires AllOk(PopOrder(q, n), cfg, env)
    requires AllOk(PopOrder(q[..|q| - n], m), cfg, env)
    ensures AllOk(PopOrder(q, n + m), cfg, env)
  {
    PopOrderSplit(q, n, m);
  }

  /** A run that returns normally met no failing worker, and its x and y lists
      gained exactly the non-blank results of the popped refs, in pop order, as
      many as the counter let through. */
  lemma LoopContent(s: LoopState, cfg: LoopConfig, env: Env)
    ensures var t := RunLoop(s, cfg, env).0;
      var popped := PopOrder(s.queue, |s.queue| - |t.queue|);
      RunLoop(s, cfg, env).1 == Finished ==>
        AllOk(popped, cfg, env) &&
        t.xs == s.xs + Quota(EmitsX(Outcomes(popped, cfg, env)), s.remaining, cfg.all) &&
        t.ys == s.ys + Quota(EmitsY(Outcomes(popped, cfg, env)), s.remaining, cfg.all)
  {
    LoopContentOf(s, RunLoop(s, cfg, env).0, RunLoop(s, cfg, env).1, cfg, env);
  }

  /** `LoopContent` with the run's outcome named, by induction on the queue. */
  lemma {:induction false} LoopContentOf(s: LoopState, t: LoopState, e: Exit, cfg: LoopConfig, env: Env)
    requires (t, e) == RunLoop(s, cfg, env)
    ensures var popped := PopOrder(s.queue, |s.queue| - |t.queue|);
      e == Finished ==>
        AllOk(popped, cfg, env) &&
        t.xs == s.xs + Quota(EmitsX(Outcomes(popped, cfg, env)), s.remaining, cfg.all) &&
        t.ys == s.ys + Quota(EmitsY(Outcomes(popped, cfg, env)), s.remaining, cfg.all)
    decreases |s.queue|
  {
    var q := s.queue;
    if |q| == 0 {
      assert PopOrder(q, 0) == [];
    } else if RoundWidth(|q|, cfg.threads) >= 1 {
      var n := RoundWidth(|q|, cfg.threads);
      RoundAppends(s, cfg, env);
      match Round(s, cfg, env)
      case Stop(s2, e2) =>
        if e == Finished {
          assert t == s2;
          assert PopOrder(q, |q| - |t.queue|) == PopOrder(q, n);
        }
      case Next(s2) =>
        LoopContentOf(s2, t, e, cfg, env);
        if e == Finished {
          ContentCompose(s, s2, t, n, cfg, env);
        }
    }
  }

  /** The inductive step of `LoopContent`: one round's appends followed by the
      rest of the run's appends. */
  lemma ContentCompose(s: LoopState, s2: LoopState, t: LoopState, n: nat, cfg: LoopConfig, env: Env)
    requires n <= |s.queue| && s2.queue == s.queue[..|s.queue| - n] && |t.queue| <= |s2.queue|
    requires var es := Outcomes(PopOrder(s.queue, n), cfg, env);
      AllOk(PopOrder(s.queue, n), cfg, env) &&
      s2.xs == s.xs + Quota(EmitsX(es), s.remaining, cfg.all) &&
      s2.ys == s.ys + Quota(EmitsY(es), s.remaining, cfg.all) &&
      s2.remaining == s.remaining - |Quota(EmitsX(es), s.remaining, cfg.all)|
    requires var popped := PopOrder(s2.queue, |s2.queue| - |t.queue|);
      AllOk(popped, cfg, env) &&
      t.xs == s2.xs + Quota(EmitsX(Outcomes(popped, cfg, env)), s2.remaining, cfg.all) &&
      t.ys == s2.ys + Quota(EmitsY(Outcomes(popped, cfg, env)), s2.remaining, cfg.all)
    ensures var popped := PopOrder(s.queue, |s.queue| - |t.queue|);
      AllOk(popped, cfg, env) &&
      t.xs == s.xs + Quota(EmitsX(Outcomes(popped, cfg, env)), s.remaining, cfg.all) &&
      t.ys == s.ys + Quota(EmitsY(Outcomes(popped, cfg, env)), s.remaining, cfg.all)
  {
    var q, m := s.queue, |s2.queue| - |t.queue|;
    assert PopOrder(s2.queue, |s2.queue| - |t.queue|) == PopOrder(q[..|q| - n], m);
    assert PopOrder(s.queue, |s.queue| - |t.queue|) == PopOrder(q, n + m);
    ContentStep(q, n, m, cfg, env, s.xs, s.ys, s.remaining, s2.xs, s2.ys, s2.remaining, t.xs, t.ys);
    AllOkSplit(q, n, m, cfg, env);
  }

  /** The appending half of `RoundShape`: a round that does not raise pops n
      refs from the end, meets no failing worker and appends what the counter
      lets through. */
  lemma RoundAppends(s: LoopState, cfg: LoopConfig, env: Env)
    requires |s.queue| > 0 && RoundWidth(|s.queue|, cfg.threads) >= 1
    ensures var n := RoundWidth(|s.queue|, cfg.threads);
      var st := Round(s, cfg, env);
      var es := Outcomes(PopOrder(s.queue, n), cfg, env);
      st.Next? || st.exit == Finished ==>
        st.state.queue == s.queue[..|s.queue| - n] &&
        AllOk(PopOrder(s.queue, n), cfg, env) &&
        st.state.xs == s.xs + Quota(EmitsX(es), s.remaining, cfg.all) &&
        st.state.ys == s.ys + Quota(EmitsY(es), s.remaining, cfg.all) &&
        st.state.remaining == s.remaining - |Quota(EmitsX(es), s.remaining, cfg.all)|
  {
    RoundShape(s, cfg, env);
  }

  /** The popping half of `RoundShape`. */
  lemma RoundPops(s: LoopState, cfg: LoopConfig, env: Env)
    requires |s.queue| > 0
    ensures var n := RoundWidth(|s.queue|, cfg.threads);
      var st := Round(s, cfg, env);
      (n < 1 ==> st == Stop(s, Raised(ValueError))) &&
      (n >= 1 ==>
        st.state.queue == s.queue[..|s.queue| - n] &&
        st.state.affines == s.affines + AffinesOf(PopOrder(s.queue, n), env))
  {
    RoundShape(s, cfg, env);
  }

  /** The exit half of `RoundShape`: when a round stops, and that it does not
      raise when no popped worker fails. */
  lemma RoundExit(s: LoopState, cfg: LoopConfig, env: Env)
    requires |s.queue| > 0
    ensures var n := RoundWidth(|s.queue|, cfg.threads);
      var st := Round(s, cfg, env);
      (n < 1 ==> st == Stop(s, Raised(ValueError))) &&
      (n >= 1 ==> st.state.queue == s.queue[..|s.queue| - n]) &&
      (st.Stop? && st.exit == Finished ==>
        !cfg.all && (|st.state.xs| == cfg.stop || (|st.state.queue| == 0 && |st.state.xs| > 0))) &&
      (n >= 1 && AllOk(PopOrder(s.queue, n), cfg, env) ==> st.Next? || st.exit == Finished)
  {
    RoundShape(s, cfg, env);
  }

  /** How a run ends: it returns with refs left only on a full batch (never
      with `all`); `Pool(n)` with n < 1 raises before anything is popped; and
      with at least one thread and no failing worker it always returns. */
  lemma LoopExit(s: LoopState, cfg: LoopConfig, env: Env)
    ensures var (t, e) := RunLoop(s, cfg, env);
      (e == Finished && |t.queue| > 0 ==> !cfg.all && |t.xs| == cfg.stop) &&
      (|s.queue| > 0 && cfg.threads < 1 ==> t == s && e == Raised(ValueError)) &&
      (cfg.threads >= 1 && AllOk(s.queue, cfg, env) ==> e == Finished)
  {
    LoopExitOf(s, RunLoop(s, cfg, env).0, RunLoop(s, cfg, env).1, cfg, env);
  }

  lemma {:induction false} LoopExitOf(s: LoopState, t: LoopState, e: Exit, cfg: LoopConfig, env: Env)
    requires (t, e) == RunLoop(s, cfg, env)
    ensures e == Finished && |t.queue| > 0 ==> !cfg.all && |t.xs| == cfg.stop
    ensures |s.queue| > 0 && cfg.threads < 1 ==> t == s && e == Raised(ValueError)
    ensures cfg.threads >= 1 && AllOk(s.queue, cfg, env) ==> e == Finished
    decreases |s.queue|
  {
    var q := s.queue;
    if |q| > 0 {
      RoundExit(s, cfg, env);
      var n := RoundWidth(|q|, cfg.threads);
      if n >= 1 {
        if AllOk(q, cfg, env) {
          AllOkParts(q, n, cfg, env);
        }
        match Round(s, cfg, env)
        case Stop(s2, e2) =>
          assert t == s2 && e == e2;
        case Next(s2) =>
          LoopExitOf(s2, t, e, cfg, env);
      }
    }
  }

  /** Lines 348-356 of one round: pop n refs, fetch each pair and affine, and
      submit the work. */
  method PopRound(indexList: List<PatchRef>, n: nat, cfg: LoopConfig, env: Env)
    returns (results: seq<Result<Emitted>>, roundAffines: seq<Affine>)
    requires n <= |indexList.items|
    modifies indexList
    ensures indexList.items == old(indexList.items)[..|old(indexList.items)| - n]
    ensures results == Results(PopOrder(old(indexList.items), n), cfg, env)
    ensures roundAffines == AffinesOf(PopOrder(old(indexList.items), n), env)
  {
    ghost var q0 := indexList.items;
    var p := EffectivePolicy(cfg.policy, cfg.all);
    results, roundAffines := [], [];
    for i := 0 to n
      invariant indexList.items == q0[..|q0| - i]
      invariant results == Results(PopOrder(q0, i), cfg, env)
      invariant roundAffines == AffinesOf(PopOrder(q0, i), env)
    {
      var index := indexList.Pop();
      var item := env.store.patch(index);
      var affine := env.store.affine(index.sample);
      roundAffines := roundAffines + [affine];
      results := results + [AddDataMp(item, affine, p, env.tf)];
      assert PopOrder(q0, i + 1) == PopOrder(q0, i) + [index];
    }
  }

  /** Line 362: read the results back in submission order; the first failed
      worker raises. */
  method Collect(results: seq<Result<Emitted>>) returns (values: seq<Emitted>, err: Option<Error>)
    ensures err == FirstError(results)
    ensures err.None? ==> values == Values(results)
  {
    values := [];
    for j := 0 to |results|
      invariant forall i :: 0 <= i < j ==> results[i].Ok?
      invariant values == Values(results[..j])
    {
      if results[j].Err? {
        FirstErrorAt(results, j);
        return values, Some(results[j].error);
      }
      values := values + [results[j].value];
    }
    assert results[..|results|] == results;
    err := None;
  }

  /** Lines 365-369: append the round's non-empty results to the caller's lists. */
  method AppendRound(xList: List<Cube>, yList: List<Cube>, values: seq<Emitted>, remaining: int, all: bool)
    returns (remaining': int)
    requires xList != yList
    requires Paired(values)
    modifies xList, yList
    ensures Acc(xList.items, yList.items, remaining') == Accumulate(Acc(old(xList.items), old(yList.items), remaining), values, all)
  {
    remaining' := remaining;
    for k := 0 to |values|
      invariant Accumulate(Acc(xList.items, yList.items, remaining'), values[k..], all)
        == Accumulate(Acc(old(xList.items), old(yList.items), remaining), values, all)
    {
      if |values[k].xs| != 0 && (remaining' != 0 || all) {
        remaining' := remaining' - 1;
        xList.Append(values[k].xs[0]);
        yList.Append(values[k].ys[0]);
      }
    }
  }

  /** A round whose results hold an error raises it after popping. */
  lemma RoundRaises(s: LoopState, cfg: LoopConfig, env: Env, e: Error)
    requires |s.queue| > 0 && RoundWidth(|s.queue|, cfg.threads) >= 1
    requires var popped := PopOrder(s.queue, RoundWidth(|s.queue|, cfg.threads));
      FirstError(Results(popped, cfg, env)) == Some(e)
    ensures var n := RoundWidth(|s.queue|, cfg.threads);
      Round(s, cfg, env) ==
        Stop(s.(queue := s.queue[..|s.queue| - n], affines := s.affines + AffinesOf(PopOrder(s.queue, n), env)), Raised(e))
  {
  }

  /** A round whose results hold no error appends them and then stops or
      goes on by the break test. */
  lemma RoundGoesOn(s: LoopState, cfg: LoopConfig, env: Env, a: Acc)
    requires |s.queue| > 0 && RoundWidth(|s.queue|, cfg.threads) >= 1
    requires var popped := PopOrder(s.queue, RoundWidth(|s.queue|, cfg.threads));
      var rs := Results(popped, cfg, env);
      FirstError(rs).None? && Paired(Values(rs)) &&
      a == Accumulate(Acc(s.xs, s.ys, s.remaining), Values(rs), cfg.all)
    ensures var n := RoundWidth(|s.queue|, cfg.threads);
      var t := LoopState(s.queue[..|s.queue| - n], a.xs, a.ys, s.affines + AffinesOf(PopOrder(s.queue, n), env), a.remaining);
      Round(s, cfg, env) ==
        if !cfg.all && (|t.xs| == cfg.stop || (|t.queue| == 0 && |t.xs| > 0)) then Stop(t, Finished) else Next(t)
  {
  }

  /** A round that stops ends the run where it stops. */
  lemma RunLoopStops(s: LoopState, cfg: LoopConfig, env: Env, t: LoopState, e: Exit)
    requires |s.queue| > 0 && Round(s, cfg, env) == Stop(t, e)
    ensures RunLoop(s, cfg, env) == (t, e)
  {
  }

  /** A round that goes on leaves the rest of the run to the next state. */
  lemma RunLoopGoesOn(s: LoopState, cfg: LoopConfig, env: Env, t: LoopState)
    requires |s.queue| > 0 && Round(s, cfg, env) == Next(t)
    ensures RunLoop(s, cfg, env) == RunLoop(t, cfg, env)
  {
  }

  /** `multi_proc_loop`: pops the caller's `index_list` in rounds, appends to the
      caller's `x_list` and `y_list`, and returns the affine of every popped ref. */
  method MultiProcLoop(
    indexList: List<PatchRef>, xList: List<Cube>, yList: List<Cube>,
    batchSize: int, stop: int, threads: int, policy: Policy, all: bool, env: Env)
    returns (affines: seq<Affine>, exit: Exit)
    requires xList != yList
    modifies indexList, xList, yList
    ensures
      var r := RunLoop(
        LoopState(old(indexList.items), old(xList.items), old(yList.items), [], batchSize),
        LoopConfig(stop, threads, policy, all), env);
      r == (LoopState(indexList.items, xList.items, yList.items, affines, r.0.remaining), exit)
  {
    var cfg := LoopConfig(stop, threads, policy, all);
    var remaining := batchSize;
    affines := [];
    ghost var goal := RunLoop(LoopState(indexList.items, xList.items, yList.items, [], batchSize), cfg, env);
    while |indexList.items| > 0
      invariant RunLoop(LoopState(indexList.items, xList.items, yList.items, affines, remaining), cfg, env) == goal
      decreases |indexList.items|
    {
      ghost var before := LoopState(indexList.items, xList.items, yList.items, affines, remaining);
      var n := RoundWidth(|indexList.items|, threads);
      if n < 1 {
        RunLoopStops(before, cfg, env, before, Raised(ValueError));
        exit := Raised(ValueError);
        return;
      }
      var results, roundAffines := PopRound(indexList, n, cfg, env);
      affines := affines + roundAffines;
      var values, err := Collect(results);
      if err.Some? {
        RoundRaises(before, cfg, env, err.value);
        RunLoopStops(before, cfg, env, LoopState(indexList.items, xList.items, yList.items, affines, remaining), Raised(err.value));
        exit := Raised(err.value);
        return;
      }
      WorkPaired(PopOrder(before.queue, n), cfg, env);
      remaining := AppendRound(xList, yList, values, remaining, all);
      RoundGoesOn(before, cfg, env, Acc(xList.items, yList.items, remaining));
      ghost var after := LoopState(indexList.items, xList.items, yList.items, affines, remaining);
      if !all && (|xList.items| == stop || (|indexList.items| == 0 && |xList.items| > 0)) {
        RunLoopStops(before, cfg, env, after, Finished);
        exit := Finished;
        return;
      }
      RunLoopGoesOn(before, cfg, env, after);
    }
    exit := Finished;
  }

  /** The images a run of non-blank results appends are their data, one per
      result, in order. */
  lemma {:induction false} EmitsXAt(es: seq<Emitted>, i: nat)
    requires Paired(es) && i < |es|
    requires forall k :: 0 <= k < |es| ==> es[k].xs != []
    ensures |EmitsX(es)| == |es| && EmitsX(es)[i] == es[i].xs[0]
    decreases i
  {
    EmitsLength(es);
    assert Paired(es[1..]);
    if i > 0 {
      EmitsXAt(es[1..], i - 1);
    }
  }

  lemma {:induction false} EmitsYAt(es: seq<Emitted>, i: nat)
    requires Paired(es) && i < |es|
    requires forall k :: 0 <= k < |es| ==> es[k].xs != []
    ensures |EmitsY(es)| == |es| && EmitsY(es)[i] == es[i].ys[0]
    decreases i
  {
    EmitsLength(es);
    assert Paired(es[1..]);
    if i > 0 {
      EmitsYAt(es[1..], i - 1);
    }
  }

  /** What `data_generator_jdot_multi_proc` hands back: the converted batch and
      the affine of every popped ref. */
  datatype Generated = Generated(batch: Batch, affines: seq<Affine>)

  /** The arguments `get_batch_jdot` passes on to the generator of each domain. */
  datatype Settings = Settings(
    batchSize: int,
    nLabels: int,
    labels: Option<seq<real>>,
    threads: int,
    policy: Policy,
    all: bool)

  /** The generator calls `multi_proc_loop` with the batch size as its
      stopping criterion. */
  function GeneratorConfig(st: Settings): LoopConfig
  {
    LoopConfig(st.batchSize, st.threads, st.policy, st.all)
  }

  /** `data_generator_jdot_multi_proc` on the caller's queue: its outcome and
      the refs left in the caller's list. */
  function Generate(queue: seq<PatchRef>, st: Settings, env: Env): (Result<Generated>, seq<PatchRef>)
  {
    var (t, e) := RunLoop(LoopState(queue, [], [], [], st.batchSize), GeneratorConfig(st), env);
    match e
    case Raised(err) => (Err(err), t.queue)
    case Finished =>
      match ConvertData(t.xs, t.ys, st.nLabels, st.labels)
      case Err(err) => (Err(err), t.queue)
      case Ok(b) => (Ok(Generated(b, t.affines)), t.queue)
  }

  /** Without `all`, a generated batch never holds more than `batch_size`
      entries; it holds exactly that many whenever refs are left over; the
      refs left are the front of the caller's list; and there is one affine
      per popped ref. */
  lemma GenerateBatchBound(queue: seq<PatchRef>, st: Settings, env: Env)
    requires !st.all && st.batchSize >= 0
    ensures var (r, left) := Generate(queue, st, env);
      left == queue[..|left|] &&
      (r.Ok? ==>
        |r.value.batch.x| == |r.value.batch.y| <= st.batchSize &&
        |r.value.affines| == |queue| - |left| &&
        (|left| > 0 ==> |r.value.batch.x| == st.batchSize))
  {
    var s, cfg := LoopState(queue, [], [], [], st.batchSize), GeneratorConfig(st);
    var t, e := RunLoop(s, cfg, env).0, RunLoop(s, cfg, env).1;
    LoopBatchBoundOf(s, t, e, cfg, env);
    LoopPopsFromEndOf(s, t, e, cfg, env);
    LoopExitOf(s, t, e, cfg, env);
  }

  /** With `all`, a generator that returns has consumed the whole queue and
      its batch holds every non-blank result, in pop order. */
  lemma GenerateAll(queue: seq<PatchRef>, st: Settings, env: Env)
    requires st.all
    ensures var (r, left) := Generate(queue, st, env);
      r.Ok? ==>
        left == [] &&
        r.value.batch.x == EmitsX(Outcomes(PopOrder(queue, |queue|), GeneratorConfig(st), env))
  {
    var s, cfg := LoopState(queue, [], [], [], st.batchSize), GeneratorConfig(st);
    var t, e := RunLoop(s, cfg, env).0, RunLoop(s, cfg, env).1;
    LoopContentOf(s, t, e, cfg, env);
    LoopExitOf(s, t, e, cfg, env);
  }

  /** Every ref of the queue yields a non-blank pair and no worker fails. */
  ghost predicate NonBlank(queue: seq<PatchRef>, cfg: LoopConfig, env: Env)
  {
    forall i :: 0 <= i < |queue| ==> Work(queue[i], cfg, env).Ok? && Work(queue[i], cfg, env).value.xs != []
  }

  /** Popping k refs that all yield a non-blank pair emits their images, one
      per ref, in pop order. */
  lemma NonBlankEmits(queue: seq<PatchRef>, k: nat, cfg: LoopConfig, env: Env)
    requires k <= |queue|
    requires NonBlank(queue, cfg, env)
    ensures var es := Outcomes(PopOrder(queue, k), cfg, env);
      |EmitsX(es)| == k &&
      forall i :: 0 <= i < k ==> EmitsX(es)[i] == Work(queue[|queue| - 1 - i], cfg, env).value.xs[0]
  {
    var popped := PopOrder(queue, k);
    var es := Outcomes(popped, cfg, env);
    forall j | 0 <= j < |es|
      ensures es[j].xs != [] && es[j] == Work(queue[|queue| - 1 - j], cfg, env).value
    {
      assert popped[j] == queue[|queue| - 1 - j];
    }
    EmitsLength(es);
    forall i | 0 <= i < k
      ensures EmitsX(es)[i] == Work(queue[|queue| - 1 - i], cfg, env).value.xs[0]
    {
      EmitsXAt(es, i);
    }
  }

  /** A run of the generator's loop where every ref yields a non-blank pair
      and no worker fails. */
  lemma NonBlankRun(queue: seq<PatchRef>, cfg: LoopConfig, env: Env)
    requires !cfg.all && cfg.stop >= 0 && cfg.threads >= 1
    requires forall i :: 0 <= i < |queue| ==> Work(queue[i], cfg, env).Ok? && Work(queue[i], cfg, env).value.xs != []
    ensures var r := RunLoop(LoopState(queue, [], [], [], cfg.stop), cfg, env);
      r.1 == Finished &&
      |r.0.xs| == (if cfg.stop < |queue| then cfg.stop else |queue|) &&
      forall i :: 0 <= i < |r.0.xs| ==> r.0.xs[i] == Work(queue[|queue| - 1 - i], cfg, env).value.xs[0]
  {
    var s := LoopState(queue, [], [], [], cfg.stop);
    NonBlankRunOf(queue, cfg, env, RunLoop(s, cfg, env).0, RunLoop(s, cfg, env).1);
  }

  lemma NonBlankRunOf(queue: seq<PatchRef>, cfg: LoopConfig, env: Env, t: LoopState, e: Exit)
    requires !cfg.all && cfg.stop >= 0 && cfg.threads >= 1
    requires NonBlank(queue, cfg, env)
    requires (t, e) == RunLoop(LoopState(queue, [], [], [], cfg.stop), cfg, env)
    ensures e == Finished
    ensures |t.xs| == (if cfg.stop < |queue| then cfg.stop else |queue|)
    ensures forall i :: 0 <= i < |t.xs| ==> t.xs[i] == Work(queue[|queue| - 1 - i], cfg, env).value.xs[0]
  {
    NonBlankRunFinishes(queue, cfg, env, t, e);
    NonBlankRunContent(queue, cfg, env, t, e);
    NonBlankBatch(queue, cfg, env, t.xs, |t.queue|);
  }

  /** The exit half of `NonBlankRunOf`: the run returns, with refs left only
      on a full batch. */
  lemma NonBlankRunFinishes(queue: seq<PatchRef>, cfg: LoopConfig, env: Env, t: LoopState, e: Exit)
    requires !cfg.all && cfg.threads >= 1
    requires NonBlank(queue, cfg, env)
    requires (t, e) == RunLoop(LoopState(queue, [], [], [], cfg.stop), cfg, env)
    ensures e == Finished && |t.queue| <= |queue| && (|t.queue| > 0 ==> |t.xs| == cfg.stop)
  {
    var s := LoopState(queue, [], [], [], cfg.stop);
    assert AllOk(s.queue, cfg, env);
    LoopExitOf(s, t, e, cfg, env);
  }

  /** The content half of `NonBlankRunOf`: the batch is the counter's share of
      the popped refs' images. */
  lemma NonBlankRunContent(queue: seq<PatchRef>, cfg: LoopConfig, env: Env, t: LoopState, e: Exit)
    requires !cfg.all && e == Finished
    requires (t, e) == RunLoop(LoopState(queue, [], [], [], cfg.stop), cfg, env)
    ensures |t.queue| <= |queue|
    ensures t.xs == Quota(EmitsX(Outcomes(PopOrder(queue, |queue| - |t.queue|), cfg, env)), cfg.stop, false)
  {
    var s := LoopState(queue, [], [], [], cfg.stop);
    LoopContentOf(s, t, e, cfg, env);
  }

  /** The images of a returned run over refs that all emit: the first
      `min(stop, n)` refs popped, one image each. */
  lemma NonBlankBatch(queue: seq<PatchRef>, cfg: LoopConfig, env: Env, xs: seq<Cube>, left: nat)
    requires !cfg.all && cfg.stop >= 0
    requires NonBlank(queue, cfg, env) && left <= |queue|
    requires xs == Quota(EmitsX(Outcomes(PopOrder(queue, |queue| - left), cfg, env)), cfg.stop, false)
    requires left > 0 ==> |xs| == cfg.stop
    ensures |xs| == (if cfg.stop < |queue| then cfg.stop else |queue|)
    ensures forall i :: 0 <= i < |xs| ==> xs[i] == Work(queue[|queue| - 1 - i], cfg, env).value.xs[0]
  {
    var k := |queue| - left;
    NonBlankEmits(queue, k, cfg, env);
    var ex := EmitsX(Outcomes(PopOrder(queue, k), cfg, env));
    QuotaOfNonBlank(ex, cfg.stop, |queue|, left, xs);
  }

  /** The batch limit on a run whose every popped ref emitted: the first
      `min(stop, n)` emitted images, when refs are left only on a full batch. */
  lemma QuotaOfNonBlank<T>(ex: seq<T>, stop: nat, n: nat, left: nat, xs: seq<T>)
    requires left <= n && |ex| == n - left
    requires xs == Quota(ex, stop, false)
    requires left > 0 ==> |xs| == stop
    ensures |xs| == (if stop < n then stop else n)
    ensures forall i :: 0 <= i < |xs| ==> xs[i] == ex[i]
  {
  }

  /** When every ref yields a non-blank pair and no worker fails, the batch
      holds the first `min(batch_size, len(queue))` refs popped, each
      prepared by `add_data_mp`; with several labels an empty batch (no ref,
      or a zero batch size) fails in `get_multi_class_labels`. */
  lemma FullBatchWithoutBlanks(queue: seq<PatchRef>, st: Settings, env: Env)
    requires !st.all && st.batchSize >= 0 && st.threads >= 1
    requires !(st.nLabels > 1 && st.labels.Some? && |st.labels.value| < st.nLabels)
    requires forall i :: 0 <= i < |queue| ==>
      Work(queue[i], GeneratorConfig(st), env).Ok? && Work(queue[i], GeneratorConfig(st), env).value.xs != []
    ensures var (r, left) := Generate(queue, st, env);
      var n := if st.batchSize < |queue| then st.batchSize else |queue|;
      var p := EffectivePolicy(st.policy, st.all);
      (r.Ok? <==> !(st.nLabels > 1 && n == 0)) &&
      (r.Err? ==> r.error == IndexError) &&
      (r.Ok? ==>
        |r.value.batch.x| == n &&
        forall i :: 0 <= i < n ==>
          r.value.batch.x[i] == Prepared(
            env.store.patch(queue[|queue| - 1 - i]), env.store.affine(queue[|queue| - 1 - i].sample), p, env.tf).data)
  {
    var cfg := GeneratorConfig(st);
    var s := LoopState(queue, [], [], [], st.batchSize);
    NonBlankRun(queue, cfg, env);
    LoopBatchBound(s, cfg, env);
  }

  /** When every ref's label is blank under skip_blank, a generator with a
      positive batch size pops the whole queue and converts an empty batch:
      an empty result with at most one label, IndexError with several. */
  lemma AllBlankExhaustsQueue(queue: seq<PatchRef>, st: Settings, env: Env)
    requires !st.all && st.batchSize > 0 && st.threads >= 1
    requires AllOk(queue, GeneratorConfig(st), env)
    requires forall i :: 0 <= i < |queue| ==> Work(queue[i], GeneratorConfig(st), env).value.xs == []
    ensures var (r, left) := Generate(queue, st, env);
      left == [] &&
      (st.nLabels > 1 ==> r == Err(IndexError)) &&
      (st.nLabels <= 1 ==> r.Ok? && r.value.batch.x == [] && |r.value.affines| == |queue|)
  {
    AllBlankRunFinishes(queue, st, env);
    AllBlankRun(queue, st, env);
    LoopPopsFromEnd(LoopState(queue, [], [], [], st.batchSize), GeneratorConfig(st), env);
  }

  /** The loop of such a generator finishes with the queue consumed. */
  lemma AllBlankRunFinishes(queue: seq<PatchRef>, st: Settings, env: Env)
    requires !st.all && st.threads >= 1
    requires AllOk(queue, GeneratorConfig(st), env)
    ensures var (t, e) := RunLoop(LoopState(queue, [], [], [], st.batchSize), GeneratorConfig(st), env);
      e == Finished && (t.queue == [] || |t.xs| == st.batchSize)
  {
    var cfg := GeneratorConfig(st);
    var s := LoopState(queue, [], [], [], st.batchSize);
    assert AllOk(s.queue, cfg, env);
    LoopExitOf(s, RunLoop(s, cfg, env).0, RunLoop(s, cfg, env).1, cfg, env);
  }

  /** A finished loop of such a generator appends nothing to x or y. */
  lemma AllBlankRun(queue: seq<PatchRef>, st: Settings, env: Env)
    requires !st.all && st.batchSize > 0 && st.threads >= 1
    requires AllOk(queue, GeneratorConfig(st), env)
    requires forall i :: 0 <= i < |queue| ==> Work(queue[i], GeneratorConfig(st), env).value.xs == []
    requires RunLoop(LoopState(queue, [], [], [], st.batchSize), GeneratorConfig(st), env).1 == Finished
    ensures var t := RunLoop(LoopState(queue, [], [], [], st.batchSize), GeneratorConfig(st), env).0;
      t.xs == [] && t.ys == []
  {
    var cfg := GeneratorConfig(st);
    var s := LoopState(queue, [], [], [], st.batchSize);
    var t, e := RunLoop(s, cfg, env).0, RunLoop(s, cfg, env).1;
    LoopContentOf(s, t, e, cfg, env);
    var popped := PopOrder(queue, |queue| - |t.queue|);
    var es := Outcomes(popped, cfg, env);
    forall k | 0 <= k < |es|
      ensures es[k].xs == []
    {
      assert popped[k] == queue[|queue| - 1 - k];
    }
    AllBlankEmitsNothing(es);
    LoopBatchBound(s, cfg, env);
  }

  lemma {:induction false} AllBlankEmitsNothing(es: seq<Emitted>)
    ensures (forall k :: 0 <= k < |es| ==> es[k].xs == []) ==> EmitsX(es) == []
  {
    if |es| > 0 {
      AllBlankEmitsNothing(es[1..]);
    }
  }

  /** `data_generator_jdot_multi_proc`: assembles one batch from the caller's
      list into fresh x and y lists, then converts the labels. */
  method DataGenerator(selected: List<PatchRef>, st: Settings, env: Env) returns (r: Result<Generated>)
    modifies selected
    ensures (r, selected.items) == Generate(old(selected.items), st, env)
  {
    var xList := new List<Cube>([]);
    var yList := new List<Cube>([]);
    var affines, exit := MultiProcLoop(selected, xList, yList, st.batchSize, st.batchSize, st.threads, st.policy, st.all, env);
    if exit.Raised? {
      return Err(exit.error);
    }
    var converted := ConvertData(xList.items, yList.items, st.nLabels, st.labels);
    if converted.Err? {
      return Err(converted.error);
    }
    r := Ok(Generated(converted.value, affines));
  }

  /** A stacked batch. Two batches of sub-cubes stack into one; two empty
      batches (each a one-dimensional array of length 0, which `np.vstack`
      widens to one row of width 0) stack into two empty rows. */
  datatype Stacked = Cubes(batch: Batch) | EmptyRows(rows: nat)

  /** `np.vstack` on the x arrays, then on the y arrays, of two converted
      batches: an empty batch stacks only with another empty one; against
      sub-cubes the widths differ and it raises ValueError. */
  function Stack(a: Batch, b: Batch): (r: Result<Stacked>)
    ensures r.Err? <==> (a.x == []) != (b.x == [])
    ensures r.Err? ==> r.error == ValueError
    ensures r.Ok? && a.x == [] ==> r.value == EmptyRows(2)
    ensures r.Ok? && a.x != [] ==>
      r.value.Cubes? &&
      |r.value.batch.x| == |a.x| + |b.x| && r.value.batch.x[..|a.x|] == a.x && r.value.batch.x[|a.x|..] == b.x &&
      |r.value.batch.y| == |a.y| + |b.y| && r.value.batch.y[..|a.y|] == a.y && r.value.batch.y[|a.y|..] == b.y
  {
    if a.x == [] && b.x == [] then Ok(EmptyRows(2))
    else if a.x == [] || b.x == [] then Err(ValueError)
    else Ok(Cubes(Batch(a.x + b.x, a.y + b.y)))
  }

  /** What `get_batch_jdot` returns: the training batch, the source affines and,
      when the target domain was used, the target affines, kept apart. */
  datatype Joint = Joint(batch: Stacked, sourceAffines: seq<Affine>, targetAffines: Option<seq<Affine>>)

  /** `get_batch_jdot` on the two callers' queues (`same` when both are one list
      object): its outcome and the refs left in each list. The source domain
      runs first; a failure there means the target list is not touched. */
  function JointBatch(
    sq: seq<PatchRef>, tq: seq<PatchRef>, same: bool, st: Settings, withTarget: bool, envS: Env, envT: Env)
    : (Result<Joint>, seq<PatchRef>, seq<PatchRef>)
  {
    var (rs, ls) := Generate(sq, st, envS);
    var tq' := if same then ls else tq;
    if rs.Err? then (Err(rs.error), ls, tq')
    else if !withTarget then (Ok(Joint(Cubes(rs.value.batch), rs.value.affines, None)), ls, tq')
    else
      var (rt, lt) := Generate(tq', st, envT);
      var ls' := if same then lt else ls;
      if rt.Err? then (Err(rt.error), ls', lt)
      else
        match Stack(rs.value.batch, rt.value.batch)
        case Err(e) => (Err(e), ls', lt)
        case Ok(b) => (Ok(Joint(b, rs.value.affines, Some(rt.value.affines))), ls', lt)
  }

  /** A joint batch of sub-cubes stacks the source batch on top of the target
      batch, so without `all` it holds at most `batch_size` entries per domain
      used; two empty rows come only from two empty domain batches; the target
      affines are present exactly when the target domain was used. */
  lemma JointBatchBound(
    sq: seq<PatchRef>, tq: seq<PatchRef>, same: bool, st: Settings, withTarget: bool, envS: Env, envT: Env)
    requires !st.all && st.batchSize >= 0
    ensures var (r, ls, lt) := JointBatch(sq, tq, same, st, withTarget, envS, envT);
      var (rs, ls0) := Generate(sq, st, envS);
      var rt := Generate(if same then ls0 else tq, st, envT).0;
      r.Ok? ==>
        rs.Ok? && (withTarget ==> rt.Ok?) &&
        (r.value.targetAffines.Some? <==> withTarget) &&
        |r.value.sourceAffines| == |sq| - |ls0| &&
        match r.value.batch
        case Cubes(b) =>
          |b.x| == |b.y| <= (if withTarget then 2 * st.batchSize else st.batchSize) &&
          |rs.value.batch.x| <= |b.x| &&
          b.x[..|rs.value.batch.x|] == rs.value.batch.x &&
          b.x[|rs.value.batch.x|..] == (if withTarget then rt.value.batch.x else [])
        case EmptyRows(n) =>
          withTarget && n == 2 && rs.value.batch.x == [] && rt.value.batch.x == []
  {
    GenerateBatchBound(sq, st, envS);
    var (rs, ls) := Generate(sq, st, envS);
    if rs.Ok? && withTarget {
      GenerateBatchBound(if same then ls else tq, st, envT);
    }
  }

  /** With the target domain used and both generators done, the stacking
      raises ValueError when exactly one domain's batch is empty (an
      exhausted or all-blank list), and yields two empty rows when both are. */
  lemma JointBatchEmptyDomain(
    sq: seq<PatchRef>, tq: seq<PatchRef>, same: bool, st: Settings, envS: Env, envT: Env)
    ensures var (rs, ls) := Generate(sq, st, envS);
      var rt := Generate(if same then ls else tq, st, envT).0;
      var r := JointBatch(sq, tq, same, st, true, envS, envT).0;
      rs.Ok? && rt.Ok? ==>
        ((rs.value.batch.x == []) != (rt.value.batch.x == []) ==> r == Err(ValueError)) &&
        (rs.value.batch.x == [] && rt.value.batch.x == [] ==> r.Ok? && r.value.batch == EmptyRows(2)) &&
        (rs.value.batch.x != [] && rt.value.batch.x != [] ==> r.Ok? && r.value.batch.Cubes?)
  {
  }

  /** `get_batch_jdot`: runs the generator on the source list and, when
      `target` is set, on the target list, and stacks the two batches. */
  method GetBatchJdot(
    source: List<PatchRef>, target: List<PatchRef>, st: Settings, withTarget: bool, envS: Env, envT: Env)
    returns (r: Result<Joint>)
    modifies source, target
    ensures var (r', ls, lt) := JointBatch(old(source.items), old(target.items), source == target, st, withTarget, envS, envT);
      r == r' && source.items == ls && target.items == lt
  {
    var rs := DataGenerator(source, st, envS);
    if rs.Err? {
      return Err(rs.error);
    }
    if !withTarget {
      return Ok(Joint(Cubes(rs.value.batch), rs.value.affines, None));
    }
    var rt := DataGenerator(target, st, envT);
    if rt.Err? {
      return Err(rt.error);
    }
    var stacked := Stack(rs.value.batch, rt.value.batch);
    if stacked.Err? {
      return Err(stacked.error);
    }
    r := Ok(Joint(stacked.value, rs.value.affines, Some(rt.value.affines)));
  }
}
