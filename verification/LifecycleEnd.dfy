/** Every closed connection is erased and destroyed, as soon as its loops have worked off what is queued. */
module LifecycleEnd {
  import opened Registry
  import opened Dispatch
  import opened Naming
  import opened Lifecycle
  import opened LifecycleInv
  import opened LifecycleSteps
  import opened LifecyclePush

  /** `t` is task number `n` of loop `l`. */
  predicate Due(w: World, l: nat, t: Task, n: nat) {
    l < |w.loops| && n < |w.loops[l].Queue()| && w.loops[l].Queue()[n] == t
  }

  lemma DueStep(w: World, a: Label, l: nat, t: Task, n: nat)
    requires Sound(w) && Enabled(w, a) && Due(w, l, t, n) && t.c < |w.conns| && (Takes(a, l) ==> n > 0)
    ensures Due(Apply(w, a), l, t, if Takes(a, l) then n - 1 else n)
  {
    hide Sound, Enabled, Apply;
    StepMoved(w, a, t.c, l);
    var q, d := w.loops[l].Queue(), if Takes(a, l) then 1 else 0;
    assert Left(w, a, l) == q[d..];
    assert q[d..][n - d] == q[n];
  }

  // ---------------------------------------------------------------- connectionMap_ only forgets

  lemma NewName(w: World, c: nat)
    requires w.addr.Valid() && c < |w.conns| < INT_MAX
    ensures Name(w, c) != Name(w, |w.conns|)
  {
    NamesDistinct(w.server, w.addr, c + 1, |w.conns| + 1);
  }

  lemma TaskNames(w: World, t: Task, o: Outcome)
    requires Sound(w) && t.c < |w.conns|
    ensures RunOne(w, t, o).names.Keys <= w.names.Keys
  {
    hide LoopSound, Name, SetEvents, RemoveChannel;
  }

  lemma CloseNames(w: World, c: nat)
    requires Sound(w) && c < |w.conns|
    ensures HandleClose(w, c).names.Keys <= w.names.Keys
  {
    hide LoopSound, Name, SetEvents;
  }

  lemma CallbackNames(w: World, l: nat, o: Outcome)
    requires Sound(w) && Enabled(w, RunCallback(l, o))
    ensures CallNext(w, l, o).names.Keys <= w.names.Keys
  {
    hide LoopSound, Name, SetEvents, HandleClose;
    var ph := w.loops[l].phase;
    PhaseInRange(w, l);
    var w1 := SetPhase(w, l, ph.(todo := ph.todo[1..]));
    CloseNames(w1, ph.c);
  }

  lemma PhaseInRange(w: World, l: nat)
    requires Sound(w) && l < |w.loops| && w.loops[l].phase.Handling? && w.loops[l].phase.todo != []
    ensures var ph := w.loops[l].phase;
            ph.c < |w.conns| && Sound(SetPhase(w, l, ph.(todo := ph.todo[1..])))
  {
    assert LoopSound(w.loops[l], |w.conns|);
  }

  lemma HeadInRange(w: World, l: nat)
    requires Sound(w) && l < |w.loops| && w.loops[l].batch != []
    ensures w.loops[l].batch[0].c < |w.conns|
  {
    assert LoopSound(w.loops[l], |w.conns|);
  }

  lemma DropNames(w: World, c: nat)
    requires Sound(w) && c < |w.conns|
    ensures Drop(w, c).names.Keys <= w.names.Keys
  {
    hide LoopSound, Name, SetEvents, RemoveChannel;
  }

  /** No step but accept adds a name, and accept adds that of the new connection only. */
  lemma StepNames(w: World, a: Label)
    requires Sound(w) && Enabled(w, a)
    ensures Apply(w, a).names.Keys <= w.names.Keys + (if a.Accept? then {Name(w, |w.conns|)} else {})
  {
    hide Sound, Name, Owned, RunOne, CallNext, Drop, NewConnection, SendInLoop, HandleEvent;
    match a
    case Accept(fd, io) => AcceptNames(w, fd, io);
    case RunTask(l, o) =>
      HeadInRange(w, l);
      TaskNames(TakeTask(w, l), w.loops[l].batch[0], o);
    case RunCallback(l, o) => CallbackNames(w, l, o);
    case DropConnection(c) => DropNames(w, c);
    case LocalSend(c, o) => SendNames(w, c, o);
    case BeginEvent(l, eof) => EventNames(w, l, eof);
    case _ =>
  }

  lemma AcceptNames(w: World, fd: nat, io: nat)
    requires Sound(w) && io < |w.loops|
    ensures NewConnection(w, fd, io).names.Keys <= w.names.Keys + {Name(w, |w.conns|)}
  {
    hide Name, SetEvents, NewConnection, LoopSound;
    NewConnectionShape(w, fd, io);
  }

  lemma SendNames(w: World, c: nat, o: Outcome)
    requires Sound(w) && c < |w.conns|
    ensures SendInLoop(w, c, o).names == w.names
  {
    hide SetEvents, LoopSound;
  }

  lemma EventNames(w: World, l: nat, eof: bool)
    requires Sound(w) && Enabled(w, BeginEvent(l, eof))
    ensures HandleEvent(w, l, eof).names == w.names
  {
    hide Owned, Callbacks, LoopSound;
  }

  lemma UnlistedStep(w: World, a: Label, c: nat)
    requires Sound(w) && Enabled(w, a) && c < |w.conns| <= INT_MAX && !Listed(w, c)
    ensures !Listed(Apply(w, a), c) && c < |Apply(w, a).conns| <= INT_MAX
  {
    hide Sound, Apply, ConnName;
    AddressValid(w);
    StepNames(w, a);
    StepMoved(w, a, c, 0);
    GoneStep(w, a);
    if a.Accept? {
      NewName(w, c);
    }
    assert Name(Apply(w, a), c) == Name(w, c);
  }

  lemma AddressValid(w: World)
    requires Sound(w)
    ensures w.addr.Valid() && |w.loops| > 0 && forall c | 0 <= c < |w.conns| :: w.conns[c].loop < |w.loops|
  {
  }

  // ---------------------------------------------------------------- erased, and destroyed in turn

  /** connectionMap_ has forgotten `c`, and its destruction is done or queued on its loop. */
  ghost predicate Erased(w: World, c: nat, l: nat) {
    && Sound(w) && c < |w.conns| <= INT_MAX && l == w.conns[c].loop && l < |w.loops| && !Listed(w, c)
    && (w.conns[c].destroyed > 0 || Destroy(c) in w.loops[l].Queue())
  }

  /** Its destruction is done, or task number `n` of its loop. */
  ghost predicate DestroyDue(w: World, c: nat, l: nat, n: nat) {
    && Sound(w) && c < |w.conns| <= INT_MAX && l == w.conns[c].loop && l < |w.loops| && !Listed(w, c)
    && (w.conns[c].destroyed > 0 || Due(w, l, Destroy(c), n))
  }

  lemma ErasedDue(w: World, c: nat, l: nat)
    requires Erased(w, c, l)
    ensures exists n | 0 <= n <= |w.loops[l].Queue()| ::
              DestroyDue(w, c, l, n) && (n < |w.loops[l].Queue()| || w.conns[c].destroyed > 0)
  {
    hide Sound;
    var q := w.loops[l].Queue();
    if Destroy(c) in q {
      var n :| 0 <= n < |q| && q[n] == Destroy(c);
      assert DestroyDue(w, c, l, n);
    } else {
      assert DestroyDue(w, c, l, |q|);
    }
  }

  /** Taking the destruction off the queue is running it. */
  lemma TakenDestroys(w: World, a: Label, c: nat, l: nat)
    requires Sound(w) && Enabled(w, a) && Takes(a, l) && Due(w, l, Destroy(c), 0) && c < |w.conns|
    ensures Destroys(w, a, c)
  {
    hide Sound;
    assert w.loops[l].Queue()[0] == w.loops[l].batch[0];
  }

  lemma DestroyDueStep(w: World, a: Label, c: nat, l: nat, n: nat)
    requires DestroyDue(w, c, l, n) && Enabled(w, a)
    ensures DestroyDue(Apply(w, a), c, l, if Takes(a, l) && n > 0 then n - 1 else n)
    ensures Takes(a, l) && n == 0 ==> Apply(w, a).conns[c].destroyed > 0
  {
    hide Sound, Apply, Listed, Enabled, Due;
    UnlistedStep(w, a, c);
    StepMoved(w, a, c, l);
    if w.conns[c].destroyed == 0 {
      if Takes(a, l) && n == 0 {
        TakenDestroys(w, a, c, l);
      } else {
        DueStep(w, a, l, Destroy(c), n);
      }
    }
  }

  lemma {:induction false} DestroyDueRun(w: World, c: nat, l: nat, n: nat, run: seq<Label>)
    requires Sound(w) && DestroyDue(w, c, l, n) && Executes(w, run)
    ensures var r := Final(w, run);
            && c < |r.conns| && l < |r.loops| && !Listed(r, c) && Erased(r, c, l)
            && (TasksTaken(run, l) > n ==> r.conns[c].destroyed > 0)
            && (w.conns[c].destroyed > 0 ==> r.conns[c].destroyed > 0)
    decreases |run|
  {
    hide DestroyDue, Sound, Apply, Enabled, Erased, Listed;
    DueErased(w, c, l, n);
    if run != [] {
      var a := run[0];
      DestroyDueStep(w, a, c, l, n);
      StepMoved(w, a, c, l);
      DestroyDueRun(Apply(w, a), c, l, if Takes(a, l) && n > 0 then n - 1 else n, run[1..]);
    }
  }

  lemma DueErased(w: World, c: nat, l: nat, n: nat)
    requires DestroyDue(w, c, l, n)
    ensures Erased(w, c, l) && c < |w.conns| && l < |w.loops| && !Listed(w, c)
  {
    hide Sound, Listed;
  }

  // ---------------------------------------------------------------- the removal before

  /** The removal of `c`, a connection of loop `l`, is task number `n` of the main loop. */
  ghost predicate RemoveDue(w: World, c: nat, l: nat, n: nat) {
    && Sound(w) && c < |w.conns| <= INT_MAX && l == w.conns[c].loop && Due(w, 0, Remove(c), n)
  }

  lemma RemoveRuns(w: World, o: Outcome, c: nat, l: nat)
    requires RemoveDue(w, c, l, 0) && Enabled(w, RunTask(0, o))
    ensures Erased(Apply(w, RunTask(0, o)), c, l)
  {
    hide LoopSound, ConnName;
    assert w.loops[0].Queue()[0] == w.loops[0].batch[0];
    var r := Apply(w, RunTask(0, o));
    var q := r.loops[l].Queue();
    assert q[|q| - 1] == Destroy(c);
  }

  lemma RemoveDueStep(w: World, a: Label, c: nat, l: nat, n: nat)
    requires RemoveDue(w, c, l, n) && Enabled(w, a)
    ensures Takes(a, 0) && n == 0 ==> Erased(Apply(w, a), c, l)
    ensures !(Takes(a, 0) && n == 0) ==> RemoveDue(Apply(w, a), c, l, if Takes(a, 0) then n - 1 else n)
  {
    hide Sound, Apply, Enabled, Due, Erased;
    if Takes(a, 0) && n == 0 {
      RemoveRuns(w, a.o, c, l);
    } else {
      AddressValid(w);
      DueStep(w, a, 0, Remove(c), n);
      StepMoved(w, a, c, 0);
      GoneStep(w, a);
    }
  }

  lemma {:induction false} RemoveDueRun(w: World, c: nat, l: nat, n: nat, run: seq<Label>)
    requires Sound(w) && RemoveDue(w, c, l, n) && Executes(w, run) && TasksTaken(run, 0) > n
    ensures Erased(Final(w, run), c, l)
    decreases |run|
  {
    hide RemoveDue, Sound, Apply, Enabled, Erased;
    var a := run[0];
    RemoveDueStep(w, a, c, l, n);
    if Takes(a, 0) && n == 0 {
      ErasedRun(Apply(w, a), c, l, run[1..]);
    } else {
      RemoveDueRun(Apply(w, a), c, l, if Takes(a, 0) then n - 1 else n, run[1..]);
    }
  }

  lemma ErasedRun(w: World, c: nat, l: nat, run: seq<Label>)
    requires Sound(w) && Erased(w, c, l) && Executes(w, run)
    ensures Erased(Final(w, run), c, l)
  {
    hide Sound, Executes, Final, DestroyDue, Listed;
    ErasedDue(w, c, l);
    var n: nat :| n <= |w.loops[l].Queue()| && DestroyDue(w, c, l, n);
    DestroyDueRun(w, c, l, n, run);
  }

  // ---------------------------------------------------------------- from the close on

  /** After a close the connection is erased, or its removal is queued on the main loop. */
  lemma ClosedDue(w: World, c: nat, l: nat)
    requires Inv(w) && c < |w.conns| && w.conns[c].closes > 0 && l == w.conns[c].loop
    ensures Erased(w, c, l) || exists n | 0 <= n < |w.loops[0].Queue()| :: RemoveDue(w, c, l, n)
  {
    hide Agreement, Views, OpenFdsDistinct, DispatchInv, TasksPlaced, GoneInv, Mine, LoopSound, QueueInv, StateInv;
    hide ConnName;
    InvView(w, c);
    DestroyPlaced(w, c, l);
    var v := ViewOf(w, c);
    if v.listed {
      assert Remove(c) in multiset(v.main);
      MineHas(w.loops[0].Queue(), c);
      var q := w.loops[0].Queue();
      var n :| 0 <= n < |q| && q[n] == Remove(c);
      assert RemoveDue(w, c, l, n);
    }
  }

  /**
   * In every continuation from a close on, whatever all threads do: once the main loop has taken what
   * was queued on it, and then the connection's loop what was queued there, the connection is out of
   * connectionMap_ and connectDestroyed has run.
   */
  lemma ClosedIsDestroyed(w: World, c: nat, l: nat, first: seq<Label>, w1: World, second: seq<Label>)
    requires Sound(w) && c < |w.conns| && w.conns[c].closes > 0 && l == w.conns[c].loop
    requires Executes(w, first) && w1 == Final(w, first) && TasksTaken(first, 0) >= |w.loops[0].Queue()|
    requires l < |w1.loops| && Executes(w1, second) && TasksTaken(second, l) >= |w1.loops[l].Queue()|
    requires Inv(w)
    ensures var r := Final(w1, second);
            c < |r.conns| && r.conns[c].destroyed > 0 && !Listed(r, c)
  {
    hide Inv, Sound, Executes, Final, TasksTaken, Erased, RemoveDue, DestroyDue, Listed;
    AddressValid(w);
    ClosedDue(w, c, l);
    if Erased(w, c, l) {
      ErasedRun(w, c, l, first);
    } else {
      var n: nat :| n < |w.loops[0].Queue()| && RemoveDue(w, c, l, n);
      RemoveDueRun(w, c, l, n, first);
    }
    ErasedThenDestroyed(w1, c, l, second);
  }

  lemma ErasedThenDestroyed(w: World, c: nat, l: nat, run: seq<Label>)
    requires Sound(w) && Erased(w, c, l) && l < |w.loops| && Executes(w, run)
    requires TasksTaken(run, l) >= |w.loops[l].Queue()|
    ensures var r := Final(w, run);
            c < |r.conns| && r.conns[c].destroyed > 0 && !Listed(r, c)
  {
    hide Sound, Executes, Final, TasksTaken, DestroyDue, Listed;
    ErasedDue(w, c, l);
    var n: nat :| n <= |w.loops[l].Queue()| && DestroyDue(w, c, l, n)
                  && (n < |w.loops[l].Queue()| || w.conns[c].destroyed > 0);
    DestroyDueRun(w, c, l, n, run);
  }
}
