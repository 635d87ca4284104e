/**
 * The task queue and wakeup protocol of EventLoop: one loop thread, any number of other threads,
 * every interleaving of their atomic steps.
 */
module TaskQueue {

  /** A queued functor, named by a number. */
  type Functor = nat

  /** EventLoop::wakeup reads the eventfd; a write of 1 is what every caller relies on. */
  datatype Wakeup = AsWritten | Meant

  /** Where the loop thread stands; `readable` says epoll_wait has reported the eventfd. */
  datatype Phase = Idle | Testing | Polling | Handling(readable: bool) | Running | Exited

  /**
   * `counter` is the eventfd; `waking` counts other threads between their store and their wakeup,
   * `selfWaking` says the loop thread is there itself. The rest is history: the order of pushes,
   * what has run, and in the how-manieth batch each was pushed and run.
   */
  datatype State = State(
    phase: Phase,
    pending: seq<Functor>, batch: seq<Functor>, calling: bool, quit: bool,
    counter: nat, waking: nat, selfWaking: bool,
    pushed: seq<Functor>, executed: seq<Functor>,
    pushedIn: seq<nat>, ranIn: seq<nat>, swaps: nat, outside: nat)

  datatype Label =
    | Push(f: Functor) | Wake | QuitOutside
    | PushSelf(f: Functor) | WakeSelf | QuitSelf
    | StartLoop | Test | Poll(readable: bool) | ReadWakeup | Swap | RunNext | EndBatch

  const INIT: State := State(Idle, [], [], false, false, 0, 0, false, [], [], [], [], 0, 0)

  predicate LoopThreadFree(s: State) { !s.selfWaking }

  predicate Enabled(s: State, a: Label) {
    match a
    case Push(_) => true
    case Wake => s.waking > 0
    case QuitOutside => true
    case PushSelf(_) => LoopThreadFree(s) && (s.phase.Idle? || s.phase.Handling? || s.phase.Running?)
    case WakeSelf => s.selfWaking
    case QuitSelf => LoopThreadFree(s) && (s.phase.Idle? || s.phase.Handling? || s.phase.Running?)
    case StartLoop => LoopThreadFree(s) && s.phase.Idle?
    case Test => LoopThreadFree(s) && s.phase.Testing?
    case Poll(readable) => LoopThreadFree(s) && s.phase.Polling? && (readable ==> s.counter > 0)
    case ReadWakeup => LoopThreadFree(s) && s.phase == Handling(true)
    case Swap => LoopThreadFree(s) && s.phase == Handling(false)
    case RunNext => LoopThreadFree(s) && s.phase.Running? && s.batch != []
    case EndBatch => LoopThreadFree(s) && s.phase.Running? && s.batch == []
  }

  function Enqueue(s: State, f: Functor): State {
    s.(pending := s.pending + [f], pushed := s.pushed + [f], pushedIn := s.pushedIn + [s.swaps])
  }

  /** What EventLoop::wakeup does to the eventfd. */
  function WakeCounter(v: Wakeup, counter: nat): nat {
    if v.Meant? then counter + 1 else 0
  }

  function Apply(v: Wakeup, s: State, a: Label): State
    requires Enabled(s, a)
  {
    match a
    case Push(f) => Enqueue(s, f).(waking := s.waking + 1, outside := s.outside + 1)
    case Wake => s.(waking := s.waking - 1, counter := WakeCounter(v, s.counter))
    case QuitOutside => s.(quit := true, waking := s.waking + 1, outside := s.outside + 1)
    case PushSelf(f) => Enqueue(s, f).(selfWaking := s.calling)
    case WakeSelf => s.(selfWaking := false, counter := WakeCounter(v, s.counter))
    case QuitSelf => s.(quit := true)
    case StartLoop => s.(quit := false, phase := Testing)
    case Test => s.(phase := if s.quit then Exited else Polling)
    case Poll(readable) => s.(phase := Handling(readable))
    case ReadWakeup => s.(counter := 0, phase := Handling(false))
    case Swap => s.(calling := true, batch := s.pending, pending := [], phase := Running, swaps := s.swaps + 1)
    case RunNext =>
      s.(batch := s.batch[1..], executed := s.executed + [s.batch[0]], ranIn := s.ranIn + [s.swaps])
    case EndBatch => s.(calling := false, phase := Testing)
  }

  ghost predicate Executes(v: Wakeup, s: State, run: seq<Label>)
    decreases |run|
  {
    run == [] || (Enabled(s, run[0]) && Executes(v, Apply(v, s, run[0]), run[1..]))
  }

  ghost function Final(v: Wakeup, s: State, run: seq<Label>): State
    requires Executes(v, s, run)
    decreases |run|
  {
    if run == [] then s else Final(v, Apply(v, s, run[0]), run[1..])
  }

  ghost predicate Reaches(v: Wakeup, s: State, run: seq<Label>, s': State) {
    Executes(v, s, run) && Final(v, s, run) == s'
  }

  lemma Then(v: Wakeup, s: State, a: Label, rest: seq<Label>, s': State)
    requires Enabled(s, a) && Reaches(v, Apply(v, s, a), rest, s')
    ensures Reaches(v, s, [a] + rest, s')
  {
    assert ([a] + rest)[1..] == rest;
  }

  // ---------------------------------------------------------------- exactly once, in order

  /** Nothing is lost, doubled or reordered, and each functor runs in the batch after the one it was pushed in. */
  ghost predicate Fifo(s: State) {
    && s.executed + s.batch + s.pending == s.pushed
    && |s.pushedIn| == |s.pushed| && |s.ranIn| == |s.executed|
    && (forall i | 0 <= i < |s.executed| :: s.ranIn[i] == s.pushedIn[i] + 1)
    && (forall i | |s.executed| <= i < |s.executed| + |s.batch| :: s.pushedIn[i] + 1 == s.swaps)
    && (forall i | |s.executed| + |s.batch| <= i < |s.pushed| :: s.pushedIn[i] == s.swaps)
    && (!s.phase.Running? ==> s.batch == [])
    && (s.calling <==> s.phase.Running?)
    && (s.selfWaking ==> s.phase.Running?)
  }

  lemma FifoStep(v: Wakeup, s: State, a: Label)
    requires Fifo(s) && Enabled(s, a)
    ensures Fifo(Apply(v, s, a))
  {
    if a.RunNext? {
      assert s.batch == [s.batch[0]] + s.batch[1..];
    }
  }

  lemma {:induction false} FifoFrom(v: Wakeup, s: State, run: seq<Label>)
    requires Fifo(s) && Executes(v, s, run)
    ensures Fifo(Final(v, s, run))
    decreases |run|
  {
    if run != [] {
      FifoStep(v, s, run[0]);
      FifoFrom(v, Apply(v, s, run[0]), run[1..]);
    }
  }

  /** The order of execution is the order of pushes, whichever form wakeup has. */
  lemma ExactlyOnceFifo(v: Wakeup, run: seq<Label>)
    requires Executes(v, INIT, run)
    ensures var s := Final(v, INIT, run);
            && s.executed + s.batch + s.pending == s.pushed
            && (forall i | 0 <= i < |s.executed| :: s.executed[i] == s.pushed[i])
  {
    FifoFrom(v, INIT, run);
    var s := Final(v, INIT, run);
    assert s.executed <= s.pushed;
  }

  /**
   * A functor queued while a batch runs is never run by that batch but by the very next one; once a
   * later batch than that has been swapped in, it has run.
   */
  lemma NextBatchRunsIt(v: Wakeup, run: seq<Label>, i: nat)
    requires Executes(v, INIT, run) && i < |Final(v, INIT, run).pushed|
    ensures var s := Final(v, INIT, run);
            && |s.pushedIn| == |s.pushed| && |s.ranIn| == |s.executed|
            && (i < |s.executed| ==> s.ranIn[i] == s.pushedIn[i] + 1)
            && (s.pushedIn[i] + 1 < s.swaps ==> i < |s.executed|)
            && (s.pushedIn[i] < s.swaps && !s.phase.Running? ==> i < |s.executed|)
  {
    FifoFrom(v, INIT, run);
  }

  // ---------------------------------------------------------------- no lost wakeup

  /** Something will make epoll_wait return: the eventfd, or a thread about to write it. */
  predicate Covered(s: State) {
    s.counter > 0 || s.waking > 0 || s.selfWaking
  }

  /** Asleep in poll with work queued, or told to quit, and nobody left to wake it. */
  predicate Lost(s: State) {
    s.phase.Polling? && (s.pending != [] || s.quit) && !Covered(s)
  }

  ghost predicate WakeInv(s: State) {
    && (s.phase.Polling? || s.phase.Testing? || s.phase.Running? ==> s.pending != [] ==> Covered(s))
    && (s.phase.Polling? && s.quit ==> Covered(s))
    && (s.phase.Running? <==> s.calling)
    && (s.phase.Idle? ==> (s.outside > 0 <==> Covered(s)))
  }

  /** loop() is not entered with work that only its own thread has queued. */
  predicate GoodStart(s: State, a: Label) {
    a.StartLoop? ==> s.pending == [] || s.outside > 0
  }

  lemma WakeStepIff(s: State, a: Label)
    requires WakeInv(s) && Enabled(s, a)
    ensures WakeInv(Apply(Meant, s, a)) <==> GoodStart(s, a)
  {
  }

  ghost predicate GoodStarts(s: State, run: seq<Label>)
    requires Executes(Meant, s, run)
    decreases |run|
  {
    run == [] || (GoodStart(s, run[0]) && GoodStarts(Apply(Meant, s, run[0]), run[1..]))
  }

  lemma {:induction false} WakeFrom(s: State, run: seq<Label>)
    requires WakeInv(s) && Executes(Meant, s, run) && GoodStarts(s, run)
    ensures WakeInv(Final(Meant, s, run))
    decreases |run|
  {
    if run != [] {
      WakeStepIff(s, run[0]);
      WakeFrom(Apply(Meant, s, run[0]), run[1..]);
    }
  }

  /** With the write that wakeup means, no interleaving loses a push or a quit. */
  lemma NoLostWakeup(run: seq<Label>)
    requires Executes(Meant, INIT, run) && GoodStarts(INIT, run)
    ensures !Lost(Final(Meant, INIT, run))
  {
    WakeFrom(INIT, run);
  }

  /** Entering loop() puts it to sleep over queued work exactly when only its own thread has queued. */
  lemma StartLosesIff(s: State)
    requires WakeInv(s) && s.phase.Idle? && Enabled(s, StartLoop)
    ensures var s1 := Apply(Meant, s, StartLoop);
            Lost(Apply(Meant, s1, Test)) <==> !GoodStart(s, StartLoop)
  {
  }

  lemma OwnEarlyPushIsLost(f: Functor)
    ensures var run := [PushSelf(f)] + ([StartLoop] + ([Test] + []));
            Executes(Meant, INIT, run) && Lost(Final(Meant, INIT, run))
  {
    var s1 := Apply(Meant, INIT, PushSelf(f));
    var s2 := Apply(Meant, s1, StartLoop);
    var s3 := Apply(Meant, s2, Test);
    Then(Meant, s2, Test, [], s3);
    Then(Meant, s1, StartLoop, [Test] + [], s3);
    Then(Meant, INIT, PushSelf(f), [StartLoop] + ([Test] + []), s3);
  }

  /** A quit() that another thread makes before loop() starts is wiped out by it. */
  lemma EarlyQuitForgotten()
    ensures var run := [QuitOutside] + ([StartLoop] + ([Test] + []));
            Executes(Meant, INIT, run) && Final(Meant, INIT, run).phase.Polling? && !Final(Meant, INIT, run).quit
  {
    var s1 := Apply(Meant, INIT, QuitOutside);
    var s2 := Apply(Meant, s1, StartLoop);
    var s3 := Apply(Meant, s2, Test);
    Then(Meant, s2, Test, [], s3);
    Then(Meant, s1, StartLoop, [Test] + [], s3);
    Then(Meant, INIT, QuitOutside, [StartLoop] + ([Test] + []), s3);
  }

  // ---------------------------------------------------------------- wakeup as written

  lemma {:induction false} CounterStaysZero(s: State, run: seq<Label>)
    requires s.counter == 0 && Executes(AsWritten, s, run)
    ensures Final(AsWritten, s, run).counter == 0
    decreases |run|
  {
    if run != [] {
      CounterStaysZero(Apply(AsWritten, s, run[0]), run[1..]);
    }
  }

  /** As written the eventfd is never reported, whoever has called wakeup. */
  lemma AsWrittenNeverReported(run: seq<Label>)
    requires Executes(AsWritten, INIT, run)
    ensures !Enabled(Final(AsWritten, INIT, run), Poll(true))
  {
    CounterStaysZero(INIT, run);
  }

  /** In poll with something to do, and the eventfd not set. */
  ghost predicate Asleep(s: State) {
    Fifo(s) && s.counter == 0 && s.phase.Polling? && (s.pending != [] || s.quit)
  }

  /** Nothing but epoll returning without the eventfd, by timeout or for another channel, gets the loop out of poll. */
  lemma AsleepStep(s: State, a: Label)
    requires Asleep(s) && Enabled(s, a)
    ensures a != Poll(false) <==> Apply(AsWritten, s, a).phase.Polling?
    ensures a != Poll(false) ==>
              var s' := Apply(AsWritten, s, a);
              Asleep(s') && s'.executed == s.executed && s.pending <= s'.pending
  {
    FifoStep(AsWritten, s, a);
  }

  /** The loop is in poll all along the run. */
  ghost predicate StaysPolling(v: Wakeup, s: State, run: seq<Label>)
    requires Executes(v, s, run)
    decreases |run|
  {
    s.phase.Polling? && (run == [] || StaysPolling(v, Apply(v, s, run[0]), run[1..]))
  }

  lemma {:induction false} AsleepRun(s: State, run: seq<Label>)
    requires Asleep(s) && Executes(AsWritten, s, run)
    ensures StaysPolling(AsWritten, s, run) <==> Poll(false) !in run
    ensures Poll(false) !in run ==>
              var s' := Final(AsWritten, s, run);
              Asleep(s') && s'.executed == s.executed && s.pending <= s'.pending
    decreases |run|
  {
    hide Asleep;
    AsleepFacts(s);
    if run != [] {
      AsleepStep(s, run[0]);
      assert run == [run[0]] + run[1..];
      if run[0] != Poll(false) {
        AsleepRun(Apply(AsWritten, s, run[0]), run[1..]);
      }
    }
  }

  lemma AsleepFacts(s: State)
    requires Asleep(s)
    ensures s.phase.Polling? && (Lost(s) <==> s.waking == 0)
  {
  }

  /**
   * As written, a loop that has gone into poll with work, or a quit, leaves it exactly if epoll times
   * out or reports another channel. Until then it runs nothing, however many threads push and wake, and
   * whenever they are done with waking it is lost.
   */
  lemma AsWrittenLostIff(run: seq<Label>, rest: seq<Label>)
    requires Executes(AsWritten, INIT, run)
    requires var s := Final(AsWritten, INIT, run);
             s.phase.Polling? && (s.pending != [] || s.quit) && Executes(AsWritten, s, rest)
    ensures var s := Final(AsWritten, INIT, run);
            var s' := Final(AsWritten, s, rest);
            && (StaysPolling(AsWritten, s, rest) <==> Poll(false) !in rest)
            && (Poll(false) !in rest ==>
                  s'.executed == s.executed && s.pending <= s'.pending && (Lost(s') <==> s'.waking == 0))
  {
    hide Fifo, Executes, Final;
    CounterStaysZero(INIT, run);
    FifoFrom(AsWritten, INIT, run);
    var s := Final(AsWritten, INIT, run);
    AsleepRun(s, rest);
    if Poll(false) !in rest {
      AsleepFacts(Final(AsWritten, s, rest));
    }
  }

  function Wakes(n: nat): seq<Label> {
    if n == 0 then [] else [Wake] + Wakes(n - 1)
  }

  /** Every thread that owes a wakeup makes it, and the loop sleeps on. */
  lemma {:induction false} WakesInVain(s: State)
    requires Asleep(s)
    ensures Executes(AsWritten, s, Wakes(s.waking)) && Lost(Final(AsWritten, s, Wakes(s.waking)))
    decreases s.waking
  {
    if s.waking > 0 {
      AsleepStep(s, Wake);
      WakesInVain(Apply(AsWritten, s, Wake));
      assert Wakes(s.waking)[1..] == Wakes(s.waking - 1);
    }
  }

  /** From every such state the outstanding wakeups can be made, and they leave the loop lost. */
  lemma AsWrittenWakesInVain(run: seq<Label>)
    requires Executes(AsWritten, INIT, run)
    requires var s := Final(AsWritten, INIT, run); s.phase.Polling? && (s.pending != [] || s.quit)
    ensures var s := Final(AsWritten, INIT, run);
            Executes(AsWritten, s, Wakes(s.waking)) && Lost(Final(AsWritten, s, Wakes(s.waking)))
  {
    hide Fifo, Executes, Final;
    CounterStaysZero(INIT, run);
    FifoFrom(AsWritten, INIT, run);
    WakesInVain(Final(AsWritten, INIT, run));
  }

  lemma AsWrittenLoses(f: Functor)
    ensures var run := [StartLoop] + ([Test] + ([Push(f)] + ([Wake] + [])));
            Executes(AsWritten, INIT, run) && Lost(Final(AsWritten, INIT, run))
  {
    var s1 := Apply(AsWritten, INIT, StartLoop);
    var s2 := Apply(AsWritten, s1, Test);
    var s3 := Apply(AsWritten, s2, Push(f));
    var s4 := Apply(AsWritten, s3, Wake);
    Then(AsWritten, s3, Wake, [], s4);
    Then(AsWritten, s2, Push(f), [Wake] + [], s4);
    Then(AsWritten, s1, Test, [Push(f)] + ([Wake] + []), s4);
    Then(AsWritten, INIT, StartLoop, [Test] + ([Push(f)] + ([Wake] + [])), s4);
  }

  // ---------------------------------------------------------------- told from the labels

  /** The functors queued in a run, in order. */
  function Pushes(run: seq<Label>): seq<Functor> {
    if run == [] then [] else
    (match run[0]
     case Push(f) => [f]
     case PushSelf(f) => [f]
     case _ => []) + Pushes(run[1..])
  }

  /** Everything ever queued is what the labels say was queued. */
  lemma PushedIsAsked(v: Wakeup, run: seq<Label>)
    requires Executes(v, INIT, run)
    ensures var s := Final(v, INIT, run);
            s.executed + s.batch + s.pending == Pushes(run) && |s.executed| == Count(a => a == RunNext, run)
  {
    PushesFrom(v, INIT, run);
    FifoFrom(v, INIT, run);
    RanCount(v, INIT, run);
  }

  /** How many labels of the run satisfy `p`. */
  function Count(p: Label -> bool, run: seq<Label>): nat {
    if run == [] then 0 else (if p(run[0]) then 1 else 0) + Count(p, run[1..])
  }

  lemma {:induction false} Split(v: Wakeup, s: State, run: seq<Label>, i: nat)
    requires i <= |run| && Executes(v, s, run)
    ensures Executes(v, s, run[..i]) && Executes(v, Final(v, s, run[..i]), run[i..])
    ensures Final(v, s, run) == Final(v, Final(v, s, run[..i]), run[i..])
    decreases |run|
  {
    hide Enabled, Apply;
    if i == 0 {
      assert run[0..] == run;
    } else {
      Split(v, Apply(v, s, run[0]), run[1..], i - 1);
      assert run[..i][1..] == run[1..][..i - 1];
    }
  }

  lemma {:induction false} PushesFrom(v: Wakeup, s: State, run: seq<Label>)
    requires Executes(v, s, run)
    ensures Final(v, s, run).pushed == s.pushed + Pushes(run)
    decreases |run|
  {
    if run != [] {
      PushesFrom(v, Apply(v, s, run[0]), run[1..]);
    }
  }

  lemma OwesStep(v: Wakeup, s: State, a: Label)
    requires Enabled(s, a) && a != Swap
    ensures var s' := Apply(v, s, a);
            s'.executed + s'.batch == s.executed + s.batch && s'.pending == s.pending + Pushes([a])
  {
    if a == RunNext {
      assert s.batch == [s.batch[0]] + s.batch[1..];
    }
  }

  lemma {:induction false} UntilSwap(v: Wakeup, s: State, run: seq<Label>)
    requires Executes(v, s, run) && Swap !in run
    ensures var s' := Final(v, s, run);
            && s'.executed + s'.batch == s.executed + s.batch
            && s'.pending == s.pending + Pushes(run)
    decreases |run|
  {
    hide Apply, Enabled;
    if run != [] {
      assert run == [run[0]] + run[1..];
      OwesStep(v, s, run[0]);
      UntilSwap(v, Apply(v, s, run[0]), run[1..]);
    }
  }

  /**
   * A batch is all that was queued before the swap that began it: after the last swap of a run, what
   * has run or is about to is what was queued before that swap, and what waits was queued after it.
   */
  lemma SwapTakesAll(v: Wakeup, run: seq<Label>, i: nat)
    requires Executes(v, INIT, run) && i < |run| && run[i] == Swap && Swap !in run[i + 1..]
    ensures var s := Final(v, INIT, run);
            && s.executed + s.batch == Pushes(run[..i]) && s.pending == Pushes(run[i + 1..])
            && |s.executed| == Count(a => a == RunNext, run)
  {
    hide Enabled, Apply, Executes, Final, Pushes, Fifo;
    Split(v, INIT, run, i);
    var s1 := Final(v, INIT, run[..i]);
    PushesFrom(v, INIT, run[..i]);
    FifoFrom(v, INIT, run[..i]);
    RanCount(v, INIT, run);
    AtSwap(v, s1, run[i..]);
    assert run[i..][1..] == run[i + 1..];
    UntilSwap(v, Apply(v, s1, Swap), run[i + 1..]);
  }

  lemma AtSwap(v: Wakeup, s: State, run: seq<Label>)
    requires Executes(v, s, run) && run != [] && run[0] == Swap && Fifo(s)
    ensures Enabled(s, Swap) && Executes(v, Apply(v, s, Swap), run[1..])
    ensures Final(v, s, run) == Final(v, Apply(v, s, Swap), run[1..])
    ensures var s1 := Apply(v, s, Swap);
            s1.executed + s1.batch == s.pushed && s1.pending == [] && s1.executed == s.executed
  {
  }

  lemma {:induction false} RanCount(v: Wakeup, s: State, run: seq<Label>)
    requires Executes(v, s, run)
    ensures |Final(v, s, run).executed| == |s.executed| + Count(a => a == RunNext, run)
    decreases |run|
  {
    if run != [] {
      RanCount(v, Apply(v, s, run[0]), run[1..]);
    }
  }

  predicate Quits(a: Label) { a == QuitOutside || a == QuitSelf }

  ghost predicate QuitSince(run: seq<Label>) {
    exists i | 0 <= i < |run| :: Quits(run[i]) && StartLoop !in run[i + 1..]
  }

  lemma QuitStep(v: Wakeup, s: State, a: Label)
    requires Enabled(s, a)
    ensures Apply(v, s, a).quit <==> Quits(a) || (s.quit && a != StartLoop)
  {
  }

  lemma {:induction false} QuitFrom(v: Wakeup, s: State, run: seq<Label>)
    requires Executes(v, s, run)
    ensures Final(v, s, run).quit <==>
              (s.quit && StartLoop !in run) || QuitSince(run)
    decreases |run|
  {
    hide Apply, Enabled;
    if run != [] {
      var rest := run[1..];
      QuitStep(v, s, run[0]);
      QuitFrom(v, Apply(v, s, run[0]), rest);
      assert run[0 + 1..] == rest;
      assert run == [run[0]] + rest;
      assert forall i | 0 <= i < |rest| :: rest[i] == run[i + 1] && rest[i + 1..] == run[i + 2..];
      assert QuitSince(rest) ==> QuitSince(run) by {
        if i :| 0 <= i < |rest| && Quits(rest[i]) && StartLoop !in rest[i + 1..] {
          assert Quits(run[i + 1]) && run[i + 1 + 1..] == rest[i + 1..];
        }
      }
      assert QuitSince(run) ==> QuitSince(rest) || (Quits(run[0]) && StartLoop !in rest) by {
        if i :| 0 <= i < |run| && Quits(run[i]) && StartLoop !in run[i + 1..] {
          if i > 0 {
            assert Quits(rest[i - 1]) && rest[i - 1 + 1..] == run[i + 1..];
          }
        }
      }
    }
  }

  /** The flag is set exactly by a quit that no entry into `loop` has followed. */
  lemma QuitIff(v: Wakeup, run: seq<Label>)
    requires Executes(v, INIT, run)
    ensures Final(v, INIT, run).quit <==> QuitSince(run)
  {
    QuitFrom(v, INIT, run);
  }

  // ---------------------------------------------------------------- a woken loop catches up

  /** The loop thread on its own: read the eventfd, swap, run everything. */
  function RunAll(n: nat): seq<Label> {
    if n == 0 then [EndBatch] else [RunNext] + RunAll(n - 1)
  }

  function Round(s: State): seq<Label> {
    [Poll(true)] + ([ReadWakeup] + ([Swap] + RunAll(|s.pending|)))
  }

  lemma {:induction false} RunAllRuns(v: Wakeup, s: State)
    requires Fifo(s) && s.phase.Running? && LoopThreadFree(s)
    ensures var run := RunAll(|s.batch|);
            && Executes(v, s, run)
            && Final(v, s, run) == s.(
                 phase := Testing, calling := false, batch := [], executed := s.executed + s.batch,
                 ranIn := Final(v, s, run).ranIn)
    decreases |s.batch|
  {
    var run := RunAll(|s.batch|);
    if s.batch == [] {
      assert run[1..] == [];
      assert s.executed + s.batch == s.executed;
      assert Executes(v, Apply(v, s, EndBatch), []);
    } else {
      var s' := Apply(v, s, RunNext);
      FifoStep(v, s, RunNext);
      RunAllRuns(v, s');
      assert run[1..] == RunAll(|s'.batch|);
      assert s'.executed + s'.batch == s.executed + s.batch;
    }
  }

  /** A return without the eventfd does what the wakeup should have: the turn after it runs everything ever pushed. */
  lemma TimeoutCatchesUp(v: Wakeup, s: State)
    requires Fifo(s) && s.phase.Polling?
    ensures var turn := [Poll(false)] + ([Swap] + RunAll(|s.pending|));
            && Executes(v, s, turn)
            && Final(v, s, turn).executed == s.pushed && Final(v, s, turn).pending == []
  {
    var s1 := Apply(v, s, Poll(false));
    var s2 := Apply(v, s1, Swap);
    FifoStep(v, s, Poll(false));
    FifoStep(v, s1, Swap);
    RunAllRuns(v, s2);
    var rest := RunAll(|s.pending|);
    var s' := Final(v, s2, rest);
    assert s2.executed + s2.batch == s.pushed;
    Then(v, s1, Swap, rest, s');
    Then(v, s, Poll(false), [Swap] + rest, s');
  }

  /** From poll with the eventfd set, one turn of the loop left to itself runs everything ever pushed. */
  lemma WokenLoopCatchesUp(v: Wakeup, s: State)
    requires Fifo(s) && s.phase.Polling? && s.counter > 0
    ensures Executes(v, s, Round(s))
    ensures var s' := Final(v, s, Round(s)); s'.executed == s.pushed && s'.pending == [] && s'.phase.Testing?
  {
    var s1 := Apply(v, s, Poll(true));
    var s2 := Apply(v, s1, ReadWakeup);
    var s3 := Apply(v, s2, Swap);
    FifoStep(v, s, Poll(true));
    FifoStep(v, s1, ReadWakeup);
    FifoStep(v, s2, Swap);
    RunAllRuns(v, s3);
    var rest := RunAll(|s.pending|);
    var s' := Final(v, s3, rest);
    assert s3.executed + s3.batch == s.pushed;
    Then(v, s2, Swap, rest, s');
    Then(v, s1, ReadWakeup, [Swap] + rest, s');
    Then(v, s, Poll(true), [ReadWakeup] + ([Swap] + rest), s');
  }
}
