/** Exactly-once close: what the environment must not do, and what then holds in every run. */
module LifecycleOnce {
  import opened ConnState
  import opened Registry
  import opened Dispatch
  import opened Lifecycle
  import opened LifecycleInv
  import opened LifecycleSteps
  import opened LifecycleRuns

  function Closes(w: World, c: nat): nat {
    if c < |w.conns| then w.conns[c].closes else 0
  }

  /** A batch is only there while it runs. */
  ghost predicate Rested(w: World) {
    forall l | 0 <= l < |w.loops| :: !w.loops[l].phase.Running? ==> w.loops[l].batch == []
  }

  /** A closed connection cannot be reported again: it asks for nothing, or it is gone before the next poll. */
  ghost predicate Hushed(w: World, c: nat)
    requires Sound(w) && c < |w.conns|
  {
    var k := w.conns[c];
    k.closes == 1 ==>
      || k.destroyed > 0
      || (w.poller.chans[c].index == New && w.poller.chans[c].events == NO_EVENT)
      || Destroy(c) in w.loops[k.loop].batch
  }

  /** What a loop has left to dispatch can still close each connection once at most. */
  ghost predicate PhaseOnce(w: World, phase: Phase) {
    match phase
    case Dispatching(active) => forall r <- active :: Closes(w, r.c) == 0
    case Handling(c, todo, eof, rest) =>
      Closes(w, c) + CountClosing(todo, eof) <= 1 && forall r <- rest :: Closes(w, r.c) == 0
    case _ => true
  }

  ghost predicate AllHushed(w: World)
    requires Sound(w)
  {
    forall c | 0 <= c < |w.conns| :: Hushed(w, c)
  }

  ghost predicate PhasesOnce(w: World) {
    forall l | 0 <= l < |w.loops| :: PhaseOnce(w, w.loops[l].phase)
  }

  /** Nothing has closed twice. */
  ghost predicate ClosedOnce(w: World) {
    forall c: nat :: Closes(w, c) <= 1
  }

  /** Once the server is gone nothing closes any more. */
  ghost predicate OnceInv(w: World)
    requires Sound(w)
  {
    ClosedOnce(w) && Rested(w) && (w.gone || (AllHushed(w) && PhasesOnce(w)))
  }

  /** A send that falls short here puts the closed `c` back into the epoll set, and a poll precedes its destruction. */
  predicate Reopens(w: World, l: nat, c: nat) {
    && c < |w.conns| && l < |w.loops|
    && w.conns[c].closes > 0 && w.conns[c].state != Disconnecting && Destroy(c) !in w.loops[l].batch
  }

  /**
   * The step is neither a dispatch of EPOLLHUP and EPOLLPRI without EPOLLIN on a finished stream nor
   * a queued send that reopens a closed connection.
   */
  predicate SingleLabel(w: World, a: Label) {
    match a
    case BeginEvent(l, eof) =>
      || w.gone
      || (l < |w.loops| && w.loops[l].phase.Dispatching? && w.loops[l].phase.active != []
          && !ClosesTwice(w.loops[l].phase.active[0].revents, eof))
    case RunTask(l, o) =>
      || w.gone
      || (l < |w.loops| && w.loops[l].batch != []
          && !(w.loops[l].batch[0].Send? && o.Partial? && Reopens(w, l, w.loops[l].batch[0].c)))
    case _ => true
  }

  // ---------------------------------------------------------------- frames

  lemma PhasesKept(w: World, w': World)
    requires PhasesOnce(w) && |w'.loops| == |w.loops|
    requires forall c: nat :: Closes(w', c) == Closes(w, c)
    requires forall l | 0 <= l < |w.loops| :: w'.loops[l].phase == w.loops[l].phase
    ensures PhasesOnce(w')
  {
    forall l | 0 <= l < |w'.loops| ensures PhaseOnce(w', w'.loops[l].phase) {
      assert PhaseOnce(w, w.loops[l].phase);
    }
  }

  /** A change to one connection that adds no close. */
  lemma OneConnOnce(w: World, w': World, c: nat)
    requires Sound(w) && Sound(w') && OnceInv(w) && c < |w.conns| == |w'.conns| && |w'.loops| == |w.loops|
    requires w'.gone == w.gone && Rested(w')
    requires forall d | 0 <= d < |w.conns| && d != c ::
               && w'.conns[d] == w.conns[d] && w'.poller.chans[d] == w.poller.chans[d]
               && (Destroy(d) in w.loops[w.conns[d].loop].batch ==> Destroy(d) in w'.loops[w.conns[d].loop].batch)
    requires w'.conns[c].closes == w.conns[c].closes && (w.gone || Hushed(w', c))
    requires forall l | 0 <= l < |w.loops| :: w'.loops[l].phase == w.loops[l].phase
    ensures OnceInv(w')
  {
    hide PhaseOnce;
    assert forall d: nat :: Closes(w', d) == Closes(w, d);
    if !w.gone {
      PhasesKept(w, w');
      forall d | 0 <= d < |w'.conns| ensures Hushed(w', d) {
        assert Hushed(w, d);
      }
    }
  }

  lemma PhaseStepOnce(w: World, l: nat, phase: Phase)
    requires Sound(w) && OnceInv(w) && l < |w.loops| && PhaseSound(phase, |w.conns|)
    requires w.gone || PhaseOnce(w, phase)
    requires phase.Running? || w.loops[l].batch == []
    ensures OnceInv(SetPhase(w, l, phase))
  {
    var w' := SetPhase(w, l, phase);
    assert forall c: nat :: Closes(w', c) == Closes(w, c);
    if !w.gone {
      forall i | 0 <= i < |w'.loops| ensures PhaseOnce(w', w'.loops[i].phase) {
        assert PhaseOnce(w, w.loops[i].phase);
      }
      forall c | 0 <= c < |w'.conns| ensures Hushed(w', c) {
        assert Hushed(w, c);
      }
    }
  }

  /** Neither connections, channels, phases nor batches have changed. */
  lemma LoopsAloneOnce(w: World, w': World)
    requires Sound(w) && Sound(w') && OnceInv(w) && w'.conns == w.conns && w'.poller == w.poller
    requires w.gone ==> w'.gone
    requires |w'.loops| == |w.loops|
    requires forall l | 0 <= l < |w.loops| ::
               w'.loops[l].phase == w.loops[l].phase && w'.loops[l].batch == w.loops[l].batch
    ensures OnceInv(w')
  {
    hide PhaseOnce;
    assert forall d: nat :: Closes(w', d) == Closes(w, d);
    if !w'.gone {
      PhasesKept(w, w');
      forall d | 0 <= d < |w'.conns| ensures Hushed(w', d) {
        assert Hushed(w, d);
      }
    }
  }

  // ---------------------------------------------------------------- polling and dispatch

  lemma RegisteredOpen(w: World, l: nat, r: Ready)
    requires Inv(w) && OnceInv(w) && !w.gone && l < |w.loops| && w.loops[l].batch == []
    requires r.c < |w.conns| && Reportable(w, l, r)
    ensures Closes(w, r.c) == 0
  {
    hide OpenFdsDistinct, TasksPlaced, DispatchInv, NamesInv, GoneInv, QueueInv, CountInv, PhasesOnce, LoopSound;
    assert Registered(w.poller, r.c);
    InvView(w, r.c);
    assert Hushed(w, r.c);
  }

  lemma PollReturnOnce(w: World, l: nat, active: seq<Ready>)
    requires Inv(w) && OnceInv(w) && Enabled(w, PollReturn(l, active))
    ensures OnceInv(Apply(w, PollReturn(l, active)))
  {
    hide Agreement, Views, OpenFdsDistinct, TasksPlaced, DispatchInv, NamesInv, GoneInv, AllHushed, PhasesOnce;
    if !w.gone {
      forall r <- active ensures Closes(w, r.c) == 0 {
        RegisteredOpen(w, l, r);
      }
    }
    PhaseStepOnce(w, l, Dispatching(active));
  }

  lemma BeginEventOnce(w: World, l: nat, eof: bool)
    requires Sound(w) && OnceInv(w) && Enabled(w, BeginEvent(l, eof)) && SingleLabel(w, BeginEvent(l, eof))
    ensures OnceInv(Apply(w, BeginEvent(l, eof)))
  {
    hide Owned, AllHushed, CountClosing, Callbacks;
    var active := w.loops[l].phase.active;
    assert PhasesOnce(w) ==> PhaseOnce(w, w.loops[l].phase);
    assert active[0] in active;
    assert LoopSound(w.loops[l], |w.conns|);
    DispatchClosesOnceIff(active[0].revents, eof);
    PhaseStepOnce(w, l, Handling(active[0].c, Callbacks(active[0].revents), eof, active[1..]));
    PhaseStepOnce(w, l, Dispatching(active[1..]));
  }

  lemma CloseEffect(w: World, c: nat)
    requires Sound(w) && c < |w.conns| && w.poller.chans[c].index == Added
    ensures var r := HandleClose(w, c);
            && |r.conns| == |w.conns| && |r.loops| == |w.loops| && r.gone == w.gone
            && (forall d | 0 <= d < |w.conns| && d != c ::
                  r.conns[d] == w.conns[d] && r.poller.chans[d] == w.poller.chans[d])
            && r.conns[c].closes == w.conns[c].closes + 1
            && r.poller.chans[c].index == New && r.poller.chans[c].events == NO_EVENT
            && (forall i | 0 <= i < |w.loops| ::
                  r.loops[i].phase == w.loops[i].phase && r.loops[i].batch == w.loops[i].batch)
  {
    hide LoopSound, Name, HandleClose;
    HandleCloseShape(w, c);
  }

  lemma HandlingReady(w: World, l: nat)
    requires Inv(w) && OnceInv(w) && !w.gone && l < |w.loops| && w.loops[l].phase.Handling?
    ensures var c := w.loops[l].phase.c;
            && c < |w.conns| && w.conns[c].established == 1 && w.conns[c].destroyed == 0
            && w.conns[c].loop == l && w.loops[l].batch == []
            && (w.conns[c].closes == 0 ==> w.poller.chans[c].index == Added)
            && (w.conns[c].closes > 0 ==> w.poller.chans[c].events == NO_EVENT)
            && (CountClosing(w.loops[l].phase.todo, w.loops[l].phase.eof) > 0 ==> w.conns[c].closes == 0)
  {
    hide Agreement, OpenFdsDistinct, TasksPlaced, NamesInv, GoneInv, Mine, QueueInv, CountInv;
    var ph := w.loops[l].phase;
    assert PhaseOnce(w, ph) && Active(ph)[0] == ph.c && Undestroyed(w, l, ph.c);
    InvView(w, ph.c);
    assert Hushed(w, ph.c) && Closes(w, ph.c) <= 1;
  }

  /** `c` is neither on the list of this phase nor, unless it is the handling one, being handled. */
  ghost predicate Elsewhere(phase: Phase, c: nat) {
    match phase
    case Dispatching(active) => forall r <- active :: r.c != c
    case Handling(d, _, _, rest) => d != c && forall r <- rest :: r.c != c
    case _ => true
  }

  lemma ElsewhereKept(w: World, w': World, phase: Phase, c: nat)
    requires PhaseOnce(w, phase) && Elsewhere(phase, c)
    requires forall d: nat | d != c :: Closes(w', d) == Closes(w, d)
    ensures PhaseOnce(w', phase)
  {
  }

  lemma HandlingKept(w: World, w': World, ph: Phase)
    requires ph.Handling? && ph.todo != [] && Closing(ph.todo[0], ph.eof) && PhaseOnce(w, ph)
    requires forall r <- ph.rest :: r.c != ph.c
    requires forall d: nat | d != ph.c :: Closes(w', d) == Closes(w, d)
    requires Closes(w', ph.c) == Closes(w, ph.c) + 1
    ensures PhaseOnce(w', ph.(todo := ph.todo[1..]))
  {
  }

  /** The connection a loop handles is on nobody's active list, not even further down its own. */
  lemma HandlingElsewhere(w: World, l: nat, i: nat)
    requires DispatchInv(w) && l < |w.loops| && i < |w.loops| && w.loops[l].phase.Handling?
    ensures i != l ==> Elsewhere(w.loops[i].phase, w.loops[l].phase.c)
    ensures i == l ==> forall r <- w.loops[l].phase.rest :: r.c != w.loops[l].phase.c
  {
    hide DispatchInv, Undestroyed, Active, Ids;
    var c := w.loops[l].phase.c;
    AllActive(w, l);
    AllActive(w, i);
    ActiveHas(w.loops[l].phase);
    ActiveHas(w.loops[i].phase);
    forall d <- Active(w.loops[i].phase) ensures i != l ==> d != c {
      LoopsDiffer(w, l, c, i, d);
    }
  }

  lemma LoopsDiffer(w: World, l: nat, c: nat, i: nat, d: nat)
    requires Undestroyed(w, l, c) && Undestroyed(w, i, d)
    ensures i != l ==> d != c
  {
  }

  lemma AllActive(w: World, l: nat)
    requires DispatchInv(w) && l < |w.loops|
    ensures forall d <- Active(w.loops[l].phase) :: Undestroyed(w, l, d)
    ensures var a := Active(w.loops[l].phase);
            forall i, j | 0 <= i < j < |a| :: a[i] != a[j]
  {
  }

  /** What is on the list of a phase, and for a handling one that the head is not among the rest if all differ. */
  lemma ActiveHas(phase: Phase)
    ensures phase.Dispatching? ==> forall r <- phase.active :: r.c in Active(phase)
    ensures phase.Handling? ==> phase.c in Active(phase) && forall r <- phase.rest :: r.c in Active(phase)
    ensures phase.Handling? && (forall i, j | 0 <= i < j < |Active(phase)| :: Active(phase)[i] != Active(phase)[j]) ==>
              forall r <- phase.rest :: r.c != phase.c
  {
    match phase
    case Dispatching(active) =>
      forall r <- active ensures r.c in Active(phase) {
        var k :| 0 <= k < |active| && active[k] == r;
        assert Active(phase)[k] == r.c;
      }
    case Handling(c, _, _, rest) =>
      assert Active(phase)[0] == c;
      forall r <- rest ensures r.c in Active(phase)
                               && (r.c == c ==> exists i, j | 0 <= i < j < |Active(phase)| ::
                                     Active(phase)[i] == Active(phase)[j])
      {
        var k :| 0 <= k < |rest| && rest[k] == r;
        assert Active(phase)[k + 1] == r.c;
      }
    case _ =>
  }

  lemma ClosePhases(w: World, l: nat, w': World)
    requires DispatchInv(w) && PhasesOnce(w) && l < |w.loops| == |w'.loops| && w.loops[l].phase.Handling?
    requires w.loops[l].phase.todo != [] && Closing(w.loops[l].phase.todo[0], w.loops[l].phase.eof)
    requires forall d: nat :: Closes(w', d) == Closes(w, d) + if d == w.loops[l].phase.c then 1 else 0
    requires forall i | 0 <= i < |w.loops| ::
               w'.loops[i].phase == if i == l then w.loops[l].phase.(todo := w.loops[l].phase.todo[1..])
                                    else w.loops[i].phase
    ensures PhasesOnce(w')
  {
    hide DispatchInv, PhaseOnce, Elsewhere, CountClosing;
    forall i | 0 <= i < |w'.loops| ensures PhaseOnce(w', w'.loops[i].phase) {
      assert PhaseOnce(w, w.loops[i].phase);
      HandlingElsewhere(w, l, i);
      if i == l {
        HandlingKept(w, w', w.loops[l].phase);
      } else {
        ElsewhereKept(w, w', w.loops[i].phase, w.loops[l].phase.c);
      }
    }
  }

  lemma CloseHushed(w: World, w': World, c: nat)
    requires Sound(w) && Sound(w') && AllHushed(w) && c < |w.conns| == |w'.conns| && |w'.loops| == |w.loops|
    requires forall d | 0 <= d < |w.conns| && d != c ::
               w'.conns[d] == w.conns[d] && w'.poller.chans[d] == w.poller.chans[d]
    requires w'.poller.chans[c].index == New && w'.poller.chans[c].events == NO_EVENT
    requires forall i | 0 <= i < |w.loops| :: w'.loops[i].batch == w.loops[i].batch
    ensures AllHushed(w')
  {
    hide LoopSound;
    forall d | 0 <= d < |w'.conns| ensures Hushed(w', d) {
      assert Hushed(w, d);
    }
  }

  lemma HandleCloseOnce(w: World, l: nat, w1: World)
    requires Sound(w) && Sound(w1) && OnceInv(w) && !w.gone && l < |w.loops| && w.loops[l].phase.Handling?
    requires w.loops[l].phase.todo != [] && Closing(w.loops[l].phase.todo[0], w.loops[l].phase.eof)
    requires w1 == SetPhase(w, l, w.loops[l].phase.(todo := w.loops[l].phase.todo[1..]))
    requires w.loops[l].phase.c < |w.conns| && Inv(w)
    ensures OnceInv(HandleClose(w1, w.loops[l].phase.c))
  {
    hide Inv, HandleClose, PhaseOnce, Hushed, LoopSound, CountClosing;
    var ph := w.loops[l].phase;
    var c := ph.c;
    assert CountClosing(ph.todo, ph.eof) > 0 by { FirstCloses(ph.todo, ph.eof); }
    HandlingReady(w, l);
    InvDispatch(w);
    CloseEffect(w1, c);
    var w' := HandleClose(w1, c);
    assert forall d: nat :: Closes(w', d) == Closes(w, d) + if d == c then 1 else 0;
    ClosePhases(w, l, w');
    CloseHushed(w, w', c);
  }

  lemma InvDispatch(w: World)
    requires Inv(w)
    ensures DispatchInv(w)
  {
    hide DispatchInv, Agreement, Views, OpenFdsDistinct, TasksPlaced, NamesInv, GoneInv;
  }

  lemma FirstCloses(todo: seq<Callback>, eof: bool)
    requires todo != [] && Closing(todo[0], eof)
    ensures CountClosing(todo, eof) > 0
  {
  }

  lemma RunCallbackOnce(w: World, l: nat, o: Outcome)
    requires Sound(w) && Inv(w) && OnceInv(w) && Enabled(w, RunCallback(l, o))
    ensures OnceInv(Apply(w, RunCallback(l, o)))
  {
    hide Inv, HandleClose, HandleWrite, AllHushed;
    var ph := w.loops[l].phase;
    assert LoopSound(w.loops[l], |w.conns|);
    var w1 := SetPhase(w, l, ph.(todo := ph.todo[1..]));
    if Closing(ph.todo[0], ph.eof) {
      HandleCloseOnce(w, l, w1);
    } else {
      assert w.gone || PhaseOnce(w, ph);
      PhaseStepOnce(w, l, ph.(todo := ph.todo[1..]));
      if !w.gone {
        HandlingReady(w, l);
      }
      HandleWriteOnce(w1, ph.c, o);
    }
  }

  lemma HandleWriteOnce(w: World, c: nat, o: Outcome)
    requires Sound(w) && OnceInv(w) && c < |w.conns|
    requires w.gone || w.conns[c].closes == 0 || w.poller.chans[c].events == NO_EVENT
    ensures OnceInv(HandleWrite(w, c, o))
  {
    hide OnceInv, LoopSound, SetEvents, Hushed;
    WriteLeaves(w, c, o);
    HushedNow(w, c);
    OneConnOnce(w, HandleWrite(w, c, o), c);
  }

  lemma HushedNow(w: World, c: nat)
    requires Sound(w) && OnceInv(w) && c < |w.conns|
    ensures w.gone || Hushed(w, c)
    ensures Rested(w)
  {
    hide Hushed, PhasesOnce, Rested, ClosedOnce, LoopSound;
  }

  /** handleWrite moves nothing but the channel of its own connection, and not even that without write interest. */
  lemma WriteLeaves(w: World, c: nat, o: Outcome)
    requires Sound(w) && OnceInv(w) && c < |w.conns|
    requires w.gone || w.conns[c].closes == 0 || w.poller.chans[c].events == NO_EVENT
    ensures var r := HandleWrite(w, c, o);
            && r.conns == w.conns && |r.loops| == |w.loops| && r.gone == w.gone && Rested(r)
            && (forall d | 0 <= d < |w.conns| && d != c :: r.poller.chans[d] == w.poller.chans[d])
            && (forall i | 0 <= i < |w.loops| ::
                  r.loops[i].phase == w.loops[i].phase && r.loops[i].batch == w.loops[i].batch)
            && (w.gone || Hushed(r, c))
  {
    hide LoopSound, SetEvents, PhasesOnce, ClosedOnce;
    HushedNow(w, c);
    ChansLeft(w.poller, c, w.poller.chans[c].events - WRITE_EVENT);
    if w.poller.chans[c].events == NO_EVENT {
      assert !w.poller.chans[c].IsWriting();
    }
  }

  lemma SendInLoopOnce(w: World, c: nat, o: Outcome)
    requires Sound(w) && OnceInv(w) && c < |w.conns| && w.conns[c].closes == 0
    ensures OnceInv(SendInLoop(w, c, o))
  {
    hide OnceInv, LoopSound, SetEvents;
    ChansLeft(w.poller, c, w.poller.chans[c].events + WRITE_EVENT);
    HushedNow(w, c);
    RestedStays(w, SendInLoop(w, c, o));
    OneConnOnce(w, SendInLoop(w, c, o), c);
  }

  lemma RestedStays(w: World, w': World)
    requires Rested(w) && |w'.loops| == |w.loops|
    requires forall i | 0 <= i < |w.loops| ::
               w'.loops[i].phase == w.loops[i].phase && w'.loops[i].batch == w.loops[i].batch
    ensures Rested(w')
  {
  }

  // ---------------------------------------------------------------- queued tasks

  /** `b` is `w` without the task of `c` at the head of the batch of loop `l`. */
  ghost predicate Took(w: World, l: nat, b: World, c: nat) {
    && Sound(w) && Sound(b) && l < |w.loops| && c < |w.conns| && w.loops[l].batch != []
    && w.loops[l].batch[0].c == c && b == TakeTask(w, l) && w.loops[l].phase.Running?
  }

  /** What the task does to its own connection decides. */
  lemma TaskOnce(w: World, l: nat, b: World, c: nat, w': World)
    requires Took(w, l, b, c) && OnceInv(w) && Sound(w')
    requires |w'.conns| == |w.conns| && |w'.loops| == |w.loops| && w'.gone == w.gone
    requires forall d | 0 <= d < |w.conns| && d != c ::
               w'.conns[d] == w.conns[d] && w'.poller.chans[d] == w.poller.chans[d]
    requires forall i | 0 <= i < |w.loops| ::
               w'.loops[i].phase == b.loops[i].phase && w'.loops[i].batch == b.loops[i].batch
    requires w'.conns[c].closes == w.conns[c].closes && (w.gone || Hushed(w', c))
    ensures OnceInv(w')
  {
    hide LoopSound, PhaseOnce, AllHushed, PhasesOnce, Hushed, ClosedOnce;
    forall d | 0 <= d < |w.conns| && d != c && Destroy(d) in w.loops[w.conns[d].loop].batch
      ensures Destroy(d) in w'.loops[w.conns[d].loop].batch
    {
      if w.conns[d].loop == l {
        var i :| 0 <= i < |w.loops[l].batch| && w.loops[l].batch[i] == Destroy(d);
        assert i > 0 && b.loops[l].batch[i - 1] == Destroy(d);
      }
    }
    OneConnOnce(w, w', c);
  }

  lemma EstablishOnce(w: World, l: nat, b: World, c: nat)
    requires Took(w, l, b, c) && OnceInv(w) && w.conns[c].closes == 0
    ensures OnceInv(ConnectEstablished(b, c))
  {
    hide LoopSound, OnceInv;
    TaskOnce(w, l, b, c, ConnectEstablished(b, c));
  }

  lemma RemoveOnce(w: World, l: nat, b: World, c: nat)
    requires Took(w, l, b, c) && OnceInv(w) && w.loops[l].batch[0].Remove?
    ensures OnceInv(RemoveInLoop(b, c))
  {
    hide LoopSound, Name, OnceInv;
    HushedHead(w, l, b, c);
    TaskOnce(w, l, b, c, RemoveInLoop(b, c));
  }

  /** Unless it is the destruction itself, the task at the head is not what keeps `c` from being reported. */
  lemma HushedHead(w: World, l: nat, b: World, c: nat)
    requires Took(w, l, b, c) && OnceInv(w) && !w.loops[l].batch[0].Destroy?
    ensures w.gone || Hushed(b, c)
  {
    hide LoopSound, PhasesOnce;
    if !w.gone {
      assert Hushed(w, c);
      if w.conns[c].loop == l && Destroy(c) in w.loops[l].batch {
        DestroyStays(w, l, b, c);
      }
    }
  }

  lemma DestroyOnce(w: World, l: nat, b: World, c: nat)
    requires Took(w, l, b, c) && OnceInv(w)
    ensures OnceInv(ConnectDestroyed(b, c))
  {
    hide LoopSound, OnceInv, SetEvents, RemoveChannel;
    ChansLeft(b.poller, c, NO_EVENT);
    ChansLeft(DisableAll(b.poller, c), c, NO_EVENT);
    TaskOnce(w, l, b, c, ConnectDestroyed(b, c));
  }

  lemma PlainTaskOnce(w: World, l: nat, b: World, c: nat)
    requires Took(w, l, b, c) && OnceInv(w) && !w.loops[l].batch[0].Destroy?
    ensures OnceInv(b)
  {
    hide LoopSound, OnceInv;
    HushedHead(w, l, b, c);
    TaskOnce(w, l, b, c, b);
  }

  lemma DestroyStays(w: World, l: nat, b: World, c: nat)
    requires Took(w, l, b, c) && !w.loops[l].batch[0].Destroy? && Destroy(c) in w.loops[l].batch
    ensures Destroy(c) in b.loops[l].batch
  {
    hide LoopSound;
    var i :| 0 <= i < |w.loops[l].batch| && w.loops[l].batch[i] == Destroy(c);
    assert i > 0 && b.loops[l].batch[i - 1] == Destroy(c);
  }

  lemma OpenOrNot(w: World, c: nat)
    requires Sound(w) && OnceInv(w) && c < |w.conns|
    ensures w.conns[c].closes <= 1
  {
    assert Closes(w, c) <= 1;
  }

  lemma TookSound(w: World, l: nat, b: World, c: nat)
    requires Took(w, l, b, c)
    ensures Sound(b) && c < |b.conns| && b.conns == w.conns && b.poller == w.poller && b.gone == w.gone
    ensures |b.loops| == |w.loops|
  {
    hide LoopSound;
  }

  /** sendInLoop moves nothing but the channel of its own connection. */
  lemma SendLeaves(w: World, c: nat, o: Outcome)
    requires Sound(w) && c < |w.conns|
    ensures var r := SendInLoop(w, c, o);
            && r.conns == w.conns && |r.loops| == |w.loops| && r.gone == w.gone
            && (forall d | 0 <= d < |w.conns| && d != c :: r.poller.chans[d] == w.poller.chans[d])
            && (!o.Partial? || w.conns[c].state == Disconnecting ==> r.poller == w.poller)
            && (forall i | 0 <= i < |w.loops| ::
                  r.loops[i].phase == w.loops[i].phase && r.loops[i].batch == w.loops[i].batch)
  {
    hide LoopSound, SetEvents;
    ChansLeft(w.poller, c, w.poller.chans[c].events + WRITE_EVENT);
  }

  lemma SendHushed(w: World, l: nat, b: World, c: nat, o: Outcome)
    requires Took(w, l, b, c) && OnceInv(w) && w.loops[l].batch[0].Send? && w.conns[c].loop == l
    requires w.gone || !(o.Partial? && Reopens(w, l, c))
    ensures w.gone || Hushed(SendInLoop(b, c, o), c)
  {
    hide LoopSound, OnceInv, SendInLoop;
    TookSound(w, l, b, c);
    SendLeaves(b, c, o);
    HushedHead(w, l, b, c);
    OpenOrNot(w, c);
    if Destroy(c) in w.loops[l].batch {
      DestroyStays(w, l, b, c);
    }
  }

  lemma SendOnce(w: World, l: nat, b: World, c: nat, o: Outcome)
    requires Took(w, l, b, c) && OnceInv(w) && w.loops[l].batch[0].Send? && w.conns[c].loop == l
    requires w.gone || !(o.Partial? && Reopens(w, l, c))
    ensures OnceInv(SendInLoop(b, c, o))
  {
    hide LoopSound, OnceInv, SendInLoop, Hushed;
    TookSound(w, l, b, c);
    SendLeaves(b, c, o);
    SendHushed(w, l, b, c, o);
    TaskOnce(w, l, b, c, SendInLoop(b, c, o));
  }

  /** What the invariant says about the task that is about to run. */
  lemma HeadClosedFacts(w: World, l: nat)
    requires Inv(w) && l < |w.loops| && w.loops[l].batch != []
    ensures var t := w.loops[l].batch[0];
            && t.c < |w.conns| && (t.Establish? ==> w.conns[t.c].closes == 0)
            && (t.Send? ==> w.conns[t.c].loop == l && w.conns[t.c].destroyed == 0)
  {
    hide Agreement, OpenFdsDistinct, TasksPlaced, NamesInv, GoneInv, Mine, DispatchInv;
    HeadFacts(w, l);
  }

  lemma RunTaskOnce(w: World, l: nat, o: Outcome)
    requires Sound(w) && Inv(w) && OnceInv(w) && Enabled(w, RunTask(l, o)) && SingleLabel(w, RunTask(l, o))
    ensures OnceInv(Apply(w, RunTask(l, o)))
  {
    hide Inv, OnceInv, Sound, ConnectEstablished, ConnectDestroyed, RemoveInLoop, SendInLoop;
    var t := w.loops[l].batch[0];
    var b := TakeTask(w, l);
    HeadClosedFacts(w, l);
    match t
    case Establish(c) => EstablishOnce(w, l, b, c);
    case Remove(c) => RemoveOnce(w, l, b, c);
    case Destroy(c) => DestroyOnce(w, l, b, c);
    case Send(c) => SendOnce(w, l, b, c, o);
    case Notify(c) => PlainTaskOnce(w, l, b, c);
    case HalfClose(c) => PlainTaskOnce(w, l, b, c);
  }

  // ---------------------------------------------------------------- the other steps

  lemma AcceptOnce(w: World, fd: nat, io: nat)
    requires Sound(w) && OnceInv(w) && io < |w.loops|
    ensures OnceInv(NewConnection(w, fd, io))
  {
    hide Name, SetEvents, NewConnection, PhaseOnce;
    var w' := NewConnection(w, fd, io);
    NewConnectionShape(w, fd, io);
    assert forall d | 0 <= d < |w.conns| :: w'.conns[d] == w.conns[d];
    assert forall c: nat :: Closes(w', c) == Closes(w, c);
    if !w.gone {
      PhasesKept(w, w');
      AcceptHushed(w, fd, io);
    }
  }

  lemma AcceptHushed(w: World, fd: nat, io: nat)
    requires Sound(w) && AllHushed(w) && io < |w.loops|
    ensures AllHushed(NewConnection(w, fd, io))
  {
    hide Name, NewConnection, LoopSound;
    var w' := NewConnection(w, fd, io);
    NewConnectionShape(w, fd, io);
    forall d | 0 <= d < |w'.conns| ensures Hushed(w', d) {
      if d < |w.conns| {
        assert Hushed(w, d);
        assert w'.conns[d] == w.conns[d] && w'.poller.chans[d] == w.poller.chans[d];
        assert w'.loops[w.conns[d].loop].batch == w.loops[w.conns[d].loop].batch;
      }
    }
  }

  lemma DropOnce(w: World, c: nat)
    requires Sound(w) && OnceInv(w) && w.gone && c < |w.conns|
    ensures OnceInv(Drop(w, c))
  {
    hide Name, LoopSound, SetEvents, RemoveChannel, AllHushed, PhasesOnce;
    var w' := Drop(w, c);
    assert forall d: nat :: Closes(w', d) == Closes(w, d);
  }

  lemma NextOnce(w: World, l: nat)
    requires Sound(w) && OnceInv(w) && l < |w.loops| && w.loops[l].phase.Handling?
    ensures OnceInv(NextChannel(w, l))
  {
    hide AllHushed;
    assert LoopSound(w.loops[l], |w.conns|);
    assert w.gone || PhaseOnce(w, w.loops[l].phase);
    PhaseStepOnce(w, l, Dispatching(w.loops[l].phase.rest));
  }

  lemma SwapOnce(w: World, l: nat)
    requires Sound(w) && OnceInv(w) && l < |w.loops| && w.loops[l].phase.Dispatching?
    ensures OnceInv(Swap(w, l))
  {
    hide PhaseOnce, LoopSound;
    var w' := Swap(w, l);
    assert forall d: nat :: Closes(w', d) == Closes(w, d);
    if !w.gone {
      forall i | 0 <= i < |w'.loops| ensures PhaseOnce(w', w'.loops[i].phase) {
        assert PhaseOnce(w, w.loops[i].phase);
        SameCloses(w, w', w.loops[i].phase);
        RunningOnce(w');
      }
      forall d | 0 <= d < |w'.conns| ensures Hushed(w', d) {
        assert Hushed(w, d);
      }
    }
  }

  lemma SameCloses(w: World, w': World, phase: Phase)
    requires PhaseOnce(w, phase) && forall c: nat :: Closes(w', c) == Closes(w, c)
    ensures PhaseOnce(w', phase)
  {
  }

  lemma RunningOnce(w: World)
    ensures PhaseOnce(w, Running)
  {
  }

  lemma StoreOnce(w: World, c: nat, local: bool)
    requires Sound(w) && OnceInv(w) && c < |w.conns|
    ensures OnceInv(StoreDisconnecting(w, c, local))
  {
    hide PhaseOnce, LoopSound;
    assert w.gone || Hushed(w, c);
    OneConnOnce(w, StoreDisconnecting(w, c, local), c);
  }

  lemma LocalSendOnce(w: World, c: nat, o: Outcome)
    requires Sound(w) && OnceInv(w) && Enabled(w, LocalSend(c, o)) && c < |w.conns| && Inv(w)
    ensures OnceInv(SendInLoop(w, c, o))
  {
    hide Inv, OnceInv, Sound;
    ConnectedFacts(w, c);
    SendInLoopOnce(w, c, o);
  }

  lemma PushOnce(w: World, t: Task)
    requires Sound(w) && OnceInv(w) && t.c < |w.conns|
    ensures OnceInv(QueueRaw(w, t))
  {
    hide OnceInv, LoopSound;
    LoopsAloneOnce(w, QueueRaw(w, t));
  }

  lemma PlainStepOnce(w: World, a: Label)
    requires Sound(w) && OnceInv(w) && Enabled(w, a)
    requires a.EndEvent? || a.SwapPending? || a.EndBatch? || a.CheckSend? || a.PushRaw? || a.CheckShutdown?
             || a.SetDisconnecting? || a.DestroyServer? || a.DropConnection?
    ensures OnceInv(Apply(w, a))
  {
    hide OnceInv, Sound, QueueRaw, Drop, Listed, StoreDisconnecting;
    match a
    case EndEvent(l) => NextOnce(w, l);
    case SwapPending(l) => SwapOnce(w, l);
    case EndBatch(l) => PhaseStepOnce(w, l, Polling);
    case SetDisconnecting(c, local) => StoreOnce(w, c, local);
    case CheckSend(_) => LoopsAloneOnce(w, Apply(w, a));
    case CheckShutdown(_) => LoopsAloneOnce(w, Apply(w, a));
    case PushRaw(t) => PushOnce(w, t);
    case DestroyServer => LoopsAloneOnce(w, Apply(w, a));
    case DropConnection(c) => DropOnce(w, c);
  }

  lemma StepOnce(w: World, a: Label)
    requires Sound(w) && Inv(w) && OnceInv(w) && Enabled(w, a) && SingleLabel(w, a)
    ensures OnceInv(Apply(w, a))
  {
    hide Inv, OnceInv, Sound;
    match a
    case Accept(fd, io) => AcceptOnce(w, fd, io);
    case PollReturn(l, active) => PollReturnOnce(w, l, active);
    case BeginEvent(l, eof) => BeginEventOnce(w, l, eof);
    case RunCallback(l, o) => RunCallbackOnce(w, l, o);
    case RunTask(l, o) => RunTaskOnce(w, l, o);
    case LocalSend(c, o) => LocalSendOnce(w, c, o);
    case _ => PlainStepOnce(w, a);
  }

  // ---------------------------------------------------------------- runs

  ghost predicate SingleRun(w: World, run: seq<Label>)
    requires Sound(w) && Executes(w, run)
    decreases |run|
  {
    run == [] || (SingleLabel(w, run[0]) && SingleRun(Apply(w, run[0]), run[1..]))
  }

  lemma {:induction false} RunOnceFrom(w: World, run: seq<Label>)
    requires Sound(w) && Inv(w) && OnceInv(w) && Executes(w, run) && TimelyRun(w, run) && SingleRun(w, run)
    ensures Inv(Final(w, run)) && OnceInv(Final(w, run))
    decreases |run|
  {
    hide Inv, OnceInv, Sound, Apply, Enabled, SingleLabel, TimelyLabel;
    if run != [] {
      StepKeeps(w, run[0]);
      StepOnce(w, run[0]);
      RunOnceFrom(Apply(w, run[0]), run[1..]);
    }
  }

  lemma InitOnce(w: World)
    requires Init(w)
    ensures Inv(w) && OnceInv(w)
  {
    InitInv(w);
  }

  /**
   * In every such run each connection passes each stage of its life at most once, and a closed one
   * has had exactly one up and one down.
   */
  lemma LifeOnce(w0: World, run: seq<Label>, c: nat)
    requires Init(w0) && Executes(w0, run) && TimelyRun(w0, run) && SingleRun(w0, run)
    requires c < |Final(w0, run).conns|
    ensures var k := Final(w0, run).conns[c];
            && k.established <= 1 && k.closes <= 1 && k.erased <= 1 && k.destroyed <= 1
            && k.ups <= 1 && k.downs <= 1
            && (k.closes == 1 ==> k.ups == 1 && k.downs == 1)
  {
    InitOnce(w0);
    RunOnceFrom(w0, run);
    InvView(Final(w0, run), c);
    assert Closes(Final(w0, run), c) <= 1;
  }
}
