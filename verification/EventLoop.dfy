/** The EventLoop object; `history` replays its methods as runs of the TaskQueue machine. */
module EventLoops {
  import opened TaskQueue

  /** A functor queued while another one runs, by that functor itself or by another thread. */
  datatype Arrival = Arrival(f: Functor, inLoopThread: bool)

  /** What arrives while each of the first `n` functors of a batch runs. */
  function Arrivals(during: nat -> seq<Arrival>, n: nat): seq<Functor> {
    if n == 0 then [] else Arrivals(during, n - 1) + Functors(during(n - 1))
  }

  /** How many arrivals call wakeup: all of them while a batch runs, otherwise those from other threads. */
  function WakeCalls(arrivals: seq<Arrival>, calling: bool): nat {
    if arrivals == [] then 0 else
    WakeCalls(arrivals[..|arrivals| - 1], calling)
    + if calling || !arrivals[|arrivals| - 1].inLoopThread then 1 else 0
  }

  lemma WakeCallsStep(arrivals: seq<Arrival>, calling: bool, i: nat)
    requires i < |arrivals|
    ensures WakeCalls(arrivals[..i + 1], calling)
            == WakeCalls(arrivals[..i], calling) + if calling || !arrivals[i].inLoopThread then 1 else 0
  {
    assert arrivals[..i + 1][..i] == arrivals[..i];
  }

  lemma {:induction false} WakeCallsAll(arrivals: seq<Arrival>)
    ensures WakeCalls(arrivals, true) == |arrivals|
  {
    if arrivals != [] {
      WakeCallsAll(arrivals[..|arrivals| - 1]);
    }
  }

  function Functors(arrivals: seq<Arrival>): (r: seq<Functor>)
    ensures |r| == |arrivals|
  {
    seq(|arrivals|, i requires 0 <= i < |arrivals| => arrivals[i].f)
  }

  lemma {:induction false} RunTrans(v: Wakeup, s: State, r1: seq<Label>, s1: State, r2: seq<Label>, s2: State)
    requires Reaches(v, s, r1, s1) && Reaches(v, s1, r2, s2)
    ensures Reaches(v, s, r1 + r2, s2)
    decreases |r1|
  {
    if r1 == [] {
      assert r1 + r2 == r2;
    } else {
      RunTrans(v, Apply(v, s, r1[0]), r1[1..], s1, r2, s2);
      Then(v, s, r1[0], r1[1..] + r2, s2);
      assert [r1[0]] + (r1[1..] + r2) == r1 + r2;
    }
  }

  /** `s'` is where some run of the machine leads from `s`. */
  ghost predicate Later(v: Wakeup, s: State, s': State) {
    exists run :: Reaches(v, s, run, s')
  }

  lemma LaterStep(v: Wakeup, s: State, s1: State, a: Label)
    requires Later(v, s, s1) && Enabled(s1, a)
    ensures Later(v, s, Apply(v, s1, a))
  {
    var run :| Reaches(v, s, run, s1);
    var s2 := Apply(v, s1, a);
    assert Reaches(v, s2, [], s2);
    Then(v, s1, a, [], s2);
    RunTrans(v, s, run, s1, [a] + [], s2);
  }

  lemma LaterRefl(v: Wakeup, s: State)
    ensures Later(v, s, s)
  {
    assert Reaches(v, s, [], s);
  }

  lemma LaterTrans(v: Wakeup, s: State, s1: State, s2: State)
    requires Later(v, s, s1) && Later(v, s1, s2)
    ensures Later(v, s, s2)
  {
    var r1 :| Reaches(v, s, r1, s1);
    var r2 :| Reaches(v, s1, r2, s2);
    RunTrans(v, s, r1, s1, r2, s2);
  }

  /** A call of quit, by the loop's own thread or another. */
  datatype QuitCall = NoQuit | QuitBy(inLoopThread: bool)

  /**
   * What happens in one turn: whether epoll reports the eventfd, what the handlers and other threads
   * queue before the swap, whether somebody quits, and what arrives while each functor runs.
   */
  datatype Turn = Turn(readable: bool, before: seq<Arrival>, quits: QuitCall, during: nat -> seq<Arrival>)

  class EventLoop {
    const form: Wakeup
    var quit: bool
    var callingPendingFunctors: bool
    var pendingFunctor: seq<Functor>
    var eventCount: nat
    ghost var history: State

    ghost predicate Valid()
      reads this
    {
      && history.pending == pendingFunctor && history.calling == callingPendingFunctors
      && history.quit == quit && history.counter == eventCount
      && Fifo(history) && LoopThreadFree(history)
    }

    constructor (form: Wakeup)
      ensures Valid() && history == INIT && this.form == form
    {
      this.form := form;
      quit, callingPendingFunctors, pendingFunctor, eventCount := false, false, [], 0;
      history := INIT;
    }

    method Wakeup()
      modifies this`eventCount
      ensures eventCount == if form.Meant? then old(eventCount) + 1 else 0
    {
      if form.Meant? {
        eventCount := eventCount + 1;
      } else {
        eventCount := 0;
      }
    }

    method QueueInLoop(cb: Functor, inLoopThread: bool)
      requires Valid() && (inLoopThread ==> Enabled(history, PushSelf(cb)))
      modifies this
      ensures Valid() && Later(form, old(history), history)
      ensures pendingFunctor == old(pendingFunctor) + [cb]
      ensures history.pushed == old(history.pushed) + [cb]
      ensures history.phase == old(history.phase) && history.batch == old(history.batch)
      ensures history.executed == old(history.executed) && quit == old(quit)
      ensures history.waking == old(history.waking) && history.swaps == old(history.swaps)
      ensures eventCount == if !inLoopThread || old(callingPendingFunctors)
                            then WakeCounter(form, old(eventCount)) else old(eventCount)
      ensures callingPendingFunctors == old(callingPendingFunctors)
    {
      LaterRefl(form, history);
      pendingFunctor := pendingFunctor + [cb];
      Record(if inLoopThread then PushSelf(cb) else Push(cb));
      if !inLoopThread || callingPendingFunctors {
        Wakeup();
        Record(if inLoopThread then WakeSelf else Wake);
      }
    }

    /** One more step of the machine has been taken. */
    ghost method Record(a: Label)
      requires Fifo(history) && Enabled(history, a)
      modifies this`history
      ensures history == Apply(form, old(history), a) && Fifo(history)
      ensures forall s :: Later(form, s, old(history)) ==> Later(form, s, history)
    {
      FifoStep(form, history, a);
      forall s | Later(form, s, history) ensures Later(form, s, Apply(form, history, a)) {
        LaterStep(form, s, history, a);
      }
      history := Apply(form, history, a);
    }

    method RunInLoop(cb: Functor, inLoopThread: bool) returns (runNow: bool)
      requires Valid()
      modifies this
      ensures Valid() && Later(form, old(history), history)
      ensures runNow == inLoopThread
      ensures runNow ==> history == old(history)
      ensures !runNow ==> pendingFunctor == old(pendingFunctor) + [cb]
                          && history.pushed == old(history.pushed) + [cb]
                          && eventCount == WakeCounter(form, old(eventCount))
    {
      if inLoopThread {
        runNow := true;
        LaterRefl(form, history);
      } else {
        runNow := false;
        QueueInLoop(cb, false);
      }
    }

    method Quit(inLoopThread: bool)
      requires Valid() && (inLoopThread ==> Enabled(history, QuitSelf))
      modifies this
      ensures Valid() && Later(form, old(history), history)
      ensures quit && pendingFunctor == old(pendingFunctor)
      ensures history.phase == old(history.phase) && history.pushed == old(history.pushed)
      ensures history.executed == old(history.executed) && history.swaps == old(history.swaps)
      ensures callingPendingFunctors == old(callingPendingFunctors)
      ensures eventCount == if inLoopThread then old(eventCount) else WakeCounter(form, old(eventCount))
    {
      LaterRefl(form, history);
      quit := true;
      Record(if inLoopThread then QuitSelf else QuitOutside);
      if !inLoopThread {
        Wakeup();
        Record(Wake);
      }
    }

    /** The wakeup channel's read callback. */
    method HandleRead()
      requires Valid() && history.phase == Handling(true)
      modifies this
      ensures Valid() && Later(form, old(history), history) && history == Apply(form, old(history), ReadWakeup)
      ensures eventCount == 0 && callingPendingFunctors == old(callingPendingFunctors)
      ensures pendingFunctor == old(pendingFunctor) && quit == old(quit)
    {
      LaterRefl(form, history);
      eventCount := 0;
      Record(ReadWakeup);
    }

    /** Queues, through queueInLoop, all that arrives while one functor, or the handlers, run. */
    method Receive(arrivals: seq<Arrival>)
      requires Valid() && (history.phase.Running? || history.phase.Handling?)
      modifies this
      ensures Valid() && Later(form, old(history), history) && history.phase == old(history.phase)
      ensures pendingFunctor == old(pendingFunctor) + Functors(arrivals)
      ensures history.pushed == old(history.pushed) + Functors(arrivals)
      ensures history.batch == old(history.batch) && history.executed == old(history.executed)
      ensures history.swaps == old(history.swaps) && quit == old(quit)
      ensures callingPendingFunctors == old(callingPendingFunctors)
      ensures form.Meant? ==> eventCount == old(eventCount) + WakeCalls(arrivals, callingPendingFunctors)
    {
      hide Fifo, Later;
      LaterRefl(form, history);
      for i := 0 to |arrivals|
        invariant Valid() && Later(form, old(history), history) && history.phase == old(history.phase)
        invariant pendingFunctor == old(pendingFunctor) + Functors(arrivals)[..i]
        invariant history.pushed == old(history.pushed) + Functors(arrivals)[..i]
        invariant history.batch == old(history.batch) && history.executed == old(history.executed)
        invariant history.swaps == old(history.swaps) && quit == old(quit)
        invariant callingPendingFunctors == old(callingPendingFunctors)
        invariant form.Meant? ==> eventCount == old(eventCount) + WakeCalls(arrivals[..i], callingPendingFunctors)
      {
        label before:
        WakeCallsStep(arrivals, callingPendingFunctors, i);
        QueueInLoop(arrivals[i].f, arrivals[i].inLoopThread);
        LaterTrans(form, old(history), old@before(history), history);
        assert Functors(arrivals)[..i + 1] == Functors(arrivals)[..i] + [arrivals[i].f];
      }
      assert Functors(arrivals)[..|arrivals|] == Functors(arrivals) && arrivals[..|arrivals|] == arrivals;
    }

    /** One functor of the batch, with what arrives while it runs. */
    method Call(arrivals: seq<Arrival>)
      requires Valid() && history.phase.Running? && history.batch != []
      modifies this
      ensures Valid() && Later(form, old(history), history) && history.phase.Running?
      ensures history.executed == old(history.executed) + [old(history.batch)[0]]
      ensures history.batch == old(history.batch)[1..] && history.swaps == old(history.swaps)
      ensures quit == old(quit)
      ensures pendingFunctor == old(pendingFunctor) + Functors(arrivals)
      ensures history.pushed == old(history.pushed) + Functors(arrivals)
      ensures callingPendingFunctors == old(callingPendingFunctors)
      ensures form.Meant? && callingPendingFunctors ==> eventCount == old(eventCount) + |arrivals|
    {
      hide Fifo, Later;
      WakeCallsAll(arrivals);
      LaterRefl(form, history);
      Record(RunNext);
      label running:
      Receive(arrivals);
      LaterTrans(form, old(history), old@running(history), history);
    }

    /** The critical section of doPendingFunctors. */
    method SwapOut() returns (functors: seq<Functor>)
      requires Valid() && history.phase == Handling(false)
      modifies this
      ensures Valid() && Later(form, old(history), history) && history.phase.Running?
      ensures functors == old(pendingFunctor) && history.batch == functors && pendingFunctor == []
      ensures history.executed == old(history.executed) && history.pushed == old(history.pushed)
      ensures history.executed + functors == history.pushed
      ensures callingPendingFunctors && history.swaps == old(history.swaps) + 1 && quit == old(quit)
      ensures eventCount == old(eventCount)
    {
      hide Later;
      LaterRefl(form, history);
      functors := [];
      callingPendingFunctors := true;
      functors, pendingFunctor := pendingFunctor, functors;
      Record(Swap);
    }

    method Finish()
      requires Valid() && history.phase.Running? && history.batch == []
      modifies this
      ensures Valid() && Later(form, old(history), history) && history.phase.Testing?
      ensures history.executed == old(history.executed) && history.pushed == old(history.pushed)
      ensures pendingFunctor == old(pendingFunctor) && history.swaps == old(history.swaps)
      ensures !callingPendingFunctors && quit == old(quit) && eventCount == old(eventCount)
    {
      hide Fifo, Later;
      LaterRefl(form, history);
      callingPendingFunctors := false;
      Record(EndBatch);
    }

    /**
     * Runs what was queued at the swap, in order and exactly once; what arrives meanwhile, from the
     * functors themselves or from other threads, is left queued in its order of arrival.
     */
    method DoPendingFunctors(during: nat -> seq<Arrival>)
      requires Valid() && history.phase == Handling(false)
      modifies this
      ensures Valid() && history.phase.Testing?
      ensures Later(form, old(history), history)
      ensures history.executed == old(history.executed) + old(pendingFunctor)
      ensures pendingFunctor == Arrivals(during, |old(pendingFunctor)|)
      ensures history.pushed == old(history.pushed) + pendingFunctor
      ensures !callingPendingFunctors && history.swaps == old(history.swaps) + 1 && quit == old(quit)
      ensures form.Meant? ==> eventCount == old(eventCount) + |pendingFunctor|
    {
      hide Fifo, Later, Apply, Enabled;
      var functors := SwapOut();
      for i := 0 to |functors|
        invariant Valid() && Later(form, old(history), history) && history.phase.Running?
        invariant functors == old(pendingFunctor) && history.batch == functors[i..]
        invariant history.executed + history.batch == old(history.executed) + functors
        invariant pendingFunctor == Arrivals(during, i)
        invariant history.pushed == old(history.pushed) + pendingFunctor
        invariant history.swaps == old(history.swaps) + 1 && quit == old(quit) && callingPendingFunctors
        invariant form.Meant? ==> eventCount == old(eventCount) + |pendingFunctor|
      {
        ghost var before := history;
        Call(during(i));
        LaterTrans(form, old(history), before, history);
      }
      ghost var before := history;
      Finish();
      LaterTrans(form, old(history), before, history);
    }

    /** One turn of the loop, from poll to the end of the batch: whatever was queued before the swap has run. */
    method TakeTurn(turn: Turn)
      requires Valid() && history.phase.Polling? && LoopThreadFree(history)
      modifies this
      ensures Valid() && history.phase.Testing? && Later(form, old(history), history)
      ensures history.executed == old(history.pushed) + Functors(turn.before)
      ensures history.swaps == old(history.swaps) + 1
      ensures quit == (old(quit) || turn.quits.QuitBy?)
      ensures form.Meant? ==>
                eventCount == (if turn.readable then 0 else old(eventCount))
                              + WakeCalls(turn.before, false)
                              + (if turn.quits == QuitBy(false) then 1 else 0) + |pendingFunctor|
    {
      hide Fifo, Later;
      ghost var s0 := history;
      LaterRefl(form, s0);
      var readable := turn.readable && eventCount > 0;
      Record(Poll(readable));
      ghost var s1 := history;
      if readable {
        HandleRead();
        LaterTrans(form, s0, s1, history);
      }
      ghost var s2 := history;
      Receive(turn.before);
      LaterTrans(form, s0, s2, history);
      ghost var s3 := history;
      if turn.quits.QuitBy? {
        Quit(turn.quits.inLoopThread);
        LaterTrans(form, s0, s3, history);
      }
      ghost var s4 := history;
      NoBatch(s4);
      DoPendingFunctors(turn.during);
      LaterTrans(form, s0, s4, history);
    }

    /**
     * The loop for as long as the turns last. Once it has taken a turn, everything queued before it
     * started has run, in order; a quit ends it after the turn it falls in, and one from before the
     * loop is forgotten.
     */
    method Loop(turns: seq<Turn>)
      requires Valid() && Enabled(history, StartLoop)
      modifies this
      ensures Valid() && Later(form, old(history), history)
      ensures history.phase == if quit then Exited else Polling
      ensures history.executed + pendingFunctor == history.pushed
      ensures turns != [] ==> old(history.pushed) <= history.executed
      ensures quit <==> exists i | 0 <= i < |turns| :: turns[i].quits.QuitBy?
      ensures !quit ==> history.swaps == old(history.swaps) + |turns|
      ensures quit ==> exists i | 0 <= i < |turns| && turns[i].quits.QuitBy? ::
                history.swaps == old(history.swaps) + i + 1 && forall j | 0 <= j < i :: !turns[j].quits.QuitBy?
    {
      hide Fifo, Later;
      LaterRefl(form, history);
      quit := false;
      Record(StartLoop);
      Record(Test);
      var i := 0;
      while !quit && i < |turns|
        invariant 0 <= i <= |turns| && Valid() && Later(form, old(history), history)
        invariant history.phase == if quit then Exited else Polling
        invariant history.swaps == old(history.swaps) + i
        invariant old(history.pushed) <= history.pushed && (i > 0 ==> old(history.pushed) <= history.executed)
        invariant forall j | 0 <= j < i - 1 :: !turns[j].quits.QuitBy?
        invariant i > 0 ==> (quit <==> turns[i - 1].quits.QuitBy?)
        invariant i == 0 ==> !quit
      {
        ghost var before := history;
        TakeTurn(turns[i]);
        LaterTrans(form, old(history), before, history);
        Record(Test);
        i := i + 1;
      }
      NoBatch(history);
    }
  }

  lemma NoBatch(s: State)
    requires Fifo(s) && !s.phase.Running?
    ensures s.executed + s.pending == s.pushed && LoopThreadFree(s)
  {
  }
}
