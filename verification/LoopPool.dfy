/** EventLoopThreadPool: which loop each new connection goes to. */
module LoopPool {

  /** getNextLoop wraps on `next_ > size`; indices stay in range only with `>=`. */
  datatype Wrap = AsWritten | Meant

  function Advance(form: Wrap, n: nat, next: nat): nat {
    if (if form.AsWritten? then next + 1 > n else next + 1 >= n) then 0 else next + 1
  }

  /** The index used by call number `k`, counted from 0. */
  function IndexAt(form: Wrap, n: nat, k: nat): nat {
    if k == 0 then 0 else Advance(form, n, IndexAt(form, n, k - 1))
  }

  /** How often loop `i` has been chosen in the first `k` calls. */
  function Chosen(form: Wrap, n: nat, k: nat, i: nat): nat {
    if k == 0 then 0 else Chosen(form, n, k - 1, i) + if IndexAt(form, n, k - 1) == i then 1 else 0
  }

  lemma {:induction false} MulMono(n: nat, x: nat, y: nat)
    requires x <= y
    ensures n * x <= n * y
  {
    if x < y {
      MulMono(n, x, y - 1);
      assert n * y == n * (y - 1) + n;
    }
  }

  lemma DivModUnique(a: nat, n: nat, q: nat, r: nat)
    requires n > 0 && r < n && a == n * q + r
    ensures a / n == q && a % n == r
  {
    var p := a / n;
    assert n * p <= a < n * p + n;
    assert n * (p + 1) == n * p + n && n * (q + 1) == n * q + n;
    if p < q {
      MulMono(n, p + 1, q);
    } else if q < p {
      MulMono(n, q + 1, p);
    }
  }

  lemma DivModStep(k: nat, n: nat)
    requires n > 0
    ensures (k + 1) / n == k / n + (if k % n == n - 1 then 1 else 0)
    ensures (k + 1) % n == if k % n == n - 1 then 0 else k % n + 1
  {
    var q, r := k / n, k % n;
    if r == n - 1 {
      assert n * (q + 1) == n * q + n;
      DivModUnique(k + 1, n, q + 1, 0);
    } else {
      DivModUnique(k + 1, n, q, r + 1);
    }
  }

  lemma {:induction false} MeantIndex(n: nat, k: nat)
    requires n > 0
    ensures IndexAt(Meant, n, k) == k % n
  {
    if k > 0 {
      MeantIndex(n, k - 1);
      DivModStep(k - 1, n);
    }
  }

  lemma {:induction false} AsWrittenIndex(n: nat, k: nat)
    ensures IndexAt(AsWritten, n, k) == k % (n + 1)
  {
    if k > 0 {
      AsWrittenIndex(n, k - 1);
      DivModStep(k - 1, n + 1);
    }
  }

  /** Every index is in range, and after any number of calls the loops have been used as evenly as can be. */
  lemma {:induction false} RoundRobinFair(n: nat, k: nat, i: nat)
    requires i < n
    ensures IndexAt(Meant, n, k) < n
    ensures Chosen(Meant, n, k, i) == k / n + if i < k % n then 1 else 0
  {
    MeantIndex(n, k);
    if k > 0 {
      RoundRobinFair(n, k - 1, i);
      MeantIndex(n, k - 1);
      DivModStep(k - 1, n);
    }
  }

  /** As written, call `k` is in range exactly when it is not the last of a cycle one too long. */
  lemma AsWrittenInRangeIff(n: nat, k: nat)
    ensures IndexAt(AsWritten, n, k) < n <==> k % (n + 1) != n
  {
    AsWrittenIndex(n, k);
  }

  /** As written, the first calls are all in range exactly as long as no loop has been used twice. */
  lemma AsWrittenSafeIff(n: nat, calls: nat)
    ensures (forall k | 0 <= k < calls :: IndexAt(AsWritten, n, k) < n) <==> calls <= n
  {
    if calls > n {
      var k: nat := n;
      DivModUnique(k, n + 1, 0, k);
      AsWrittenIndex(n, k);
      assert 0 <= k < calls && !(IndexAt(AsWritten, n, k) < n);
    } else {
      forall k | 0 <= k < calls ensures IndexAt(AsWritten, n, k) < n {
        DivModUnique(k, n + 1, 0, k);
        AsWrittenIndex(n, k);
      }
    }
  }

  datatype Choice<L> = Chosen(loop: L) | OutOfRange

  /** What call number `k` of getNextLoop yields. */
  function ChoiceAt<L>(form: Wrap, baseLoop: L, loops: seq<L>, k: nat): Choice<L> {
    if loops == [] then Choice.Chosen(baseLoop) else
    var i := IndexAt(form, |loops|, k);
    if i < |loops| then Choice.Chosen(loops[i]) else OutOfRange
  }

  /** Which loop each call yields, in either form, and when it reaches past the last one. */
  lemma ChoiceExact<L>(baseLoop: L, loops: seq<L>, k: nat)
    ensures loops == [] ==>
              ChoiceAt(Meant, baseLoop, loops, k) == ChoiceAt(AsWritten, baseLoop, loops, k) == Choice.Chosen(baseLoop)
    ensures loops != [] ==> ChoiceAt(Meant, baseLoop, loops, k) == Choice.Chosen(loops[k % |loops|])
    ensures loops != [] && k % (|loops| + 1) < |loops| ==>
              ChoiceAt(AsWritten, baseLoop, loops, k) == Choice.Chosen(loops[k % (|loops| + 1)])
    ensures loops != [] && k % (|loops| + 1) == |loops| ==> ChoiceAt(AsWritten, baseLoop, loops, k) == OutOfRange
  {
    if loops != [] {
      MeantIndex(|loops|, k);
      AsWrittenIndex(|loops|, k);
    }
  }

  /** Some call of getNextLoop yields `x`. */
  ghost predicate Yields<L>(form: Wrap, baseLoop: L, loops: seq<L>, x: L) {
    exists k: nat :: ChoiceAt(form, baseLoop, loops, k) == Choice.Chosen(x)
  }

  /** The loops that getNextLoop ever yields, in either form, are all the loops, or the base loop without any. */
  lemma YieldsIff<L>(form: Wrap, baseLoop: L, loops: seq<L>, x: L)
    ensures Yields(form, baseLoop, loops, x) <==> x in (if loops == [] then [baseLoop] else loops)
  {
    if loops == [] {
      assert ChoiceAt(form, baseLoop, loops, 0) == Choice.Chosen(baseLoop);
    } else if x in loops {
      var i :| 0 <= i < |loops| && loops[i] == x;
      MeantIndex(|loops|, i);
      AsWrittenIndex(|loops|, i);
      DivModUnique(i, |loops|, 0, i);
      DivModUnique(i, |loops| + 1, 0, i);
      assert ChoiceAt(form, baseLoop, loops, i) == Choice.Chosen(x);
    }
  }

  class EventLoopThreadPool<L> {
    const baseLoop: L
    const form: Wrap
    var started: bool
    var numThreads: nat
    var loops: seq<L>
    var next: nat
    ghost var calls: nat

    ghost predicate Valid()
      reads this
    {
      |loops| > 0 ==> next == IndexAt(form, |loops|, calls)
    }

    constructor (baseLoop: L, form: Wrap)
      ensures Valid() && this.baseLoop == baseLoop && this.form == form
      ensures !started && numThreads == 0 && loops == [] && next == 0 && calls == 0
    {
      this.baseLoop, this.form := baseLoop, form;
      started, numThreads, loops, next, calls := false, 0, [], 0, 0;
    }

    method SetThreadNum(n: nat)
      modifies this`numThreads
      ensures numThreads == n
    {
      numThreads := n;
    }

    /** `delivered` are the loops the started threads hand over; the result says whether `cb` ran on the base loop. */
    method Start(delivered: nat -> L, hasCallback: bool) returns (onBase: bool)
      requires Valid() && !started && loops == [] && calls == 0 && next == 0
      modifies this`started, this`loops
      ensures Valid() && started
      ensures |loops| == numThreads && forall k | 0 <= k < numThreads :: loops[k] == delivered(k)
      ensures onBase <==> numThreads == 0 && hasCallback
    {
      started := true;
      for i := 0 to numThreads
        invariant started && |loops| == i && forall k | 0 <= k < i :: loops[k] == delivered(k)
      {
        loops := loops + [delivered(i)];
      }
      onBase := numThreads == 0 && hasCallback;
    }

    method GetNextLoop() returns (choice: Choice<L>)
      requires Valid()
      modifies this`next, this`calls
      ensures Valid() && calls == old(calls) + 1
      ensures choice == ChoiceAt(form, baseLoop, loops, old(calls))
    {
      choice := Choice.Chosen(baseLoop);
      if |loops| > 0 {
        choice := if next < |loops| then Choice.Chosen(loops[next]) else OutOfRange;
        next := next + 1;
        if (if form.AsWritten? then next > |loops| else next >= |loops|) {
          next := 0;
        }
      }
      calls := calls + 1;
    }

    /** After start, exactly the loops that getNextLoop ever yields, one for each thread. */
    method GetAllLoops() returns (all: seq<L>)
      ensures |loops| == numThreads ==> forall x :: x in all <==> Yields(form, baseLoop, loops, x)
      ensures |loops| == numThreads > 0 ==> |all| == numThreads
    {
      forall x ensures Yields(form, baseLoop, loops, x) <==> x in (if loops == [] then [baseLoop] else loops) {
        YieldsIff(form, baseLoop, loops, x);
      }
      if numThreads == 0 {
        all := [baseLoop];
      } else {
        all := loops;
      }
    }
  }
}
